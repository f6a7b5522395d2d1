/**
 * The committed-event stream: a polling reader over an append-only log that writes
 * frames to one client, with back-pressure, bounded batches and reconnection.
 */
module EventStream {
  import opened Shared

  /******* Events and frames *******/

  datatype Topic = DigestTopic | LifecycleTopic

  /**
   * A committed event. `digest` is the dashboard digest of its payload, absent when the
   * payload does not satisfy the digest schema; `status` is the payload's status text,
   * empty when it has none.
   */
  datatype Event = Event(seqNo: nat, eventId: string, eventType: string, tick: nat, digest: Option<string>, status: string)

  datatype FrameData =
    | DigestData(digest: string)
    | LifecycleData(eventId: string, eventType: string, status: string, tick: nat)
    | GapData(fromSeq: int, toSeq: int)

  datatype Frame = Frame(id: int, data: FrameData) {
    /** The first and last sequence numbers this frame accounts for. */
    function Lo(): int {
      if data.GapData? then data.fromSeq else id
    }

    function Hi(): int {
      if data.GapData? then data.toSeq else id
    }

    predicate Covers(s: int) {
      Lo() <= s <= Hi()
    }
  }

  const TICK_COMPLETED := "simulation.tick.completed"

  const LIFECYCLE_EVENT_TYPES: set<string> := {
    "simulation.created", "simulation.started", "simulation.paused", "simulation.resumed",
    "simulation.stopped", "simulation.completed", "simulation.failed"
  }

  function LifecycleStatus(event: Event): string
    requires event.eventType in LIFECYCLE_EVENT_TYPES
  {
    if event.status != "" then event.status else event.eventType[|"simulation."|..]
  }

  /** The public frame of one event, if its topic is subscribed; an error when its digest is invalid. */
  function FrameForCommittedEvent(event: Event, topics: set<Topic>): Result<Option<Frame>> {
    if event.eventType == TICK_COMPLETED && DigestTopic in topics then
      match event.digest
      case None => Err(SchemaInvalid)
      case Some(digest) => Ok(Some(Frame(event.seqNo, DigestData(digest))))
    else if event.eventType in LIFECYCLE_EVENT_TYPES && LifecycleTopic in topics then
      Ok(Some(Frame(event.seqNo,
                    LifecycleData(event.eventId, event.eventType, LifecycleStatus(event), event.tick))))
    else
      Ok(None)
  }

  /** The event store hands out gapless sequence numbers. */
  ghost predicate ValidLog(log: seq<Event>) {
    forall i | 0 <= i < |log| :: log[i].seqNo == i
  }

  /******* Reading one batch *******/

  datatype Delivery = Delivery(throughSeq: int, frame: Option<Frame>)

  datatype Batch = Batch(deliveries: seq<Delivery>, gap: bool)

  /** The events after `afterSeq`, in order. */
  function Forward(log: seq<Event>, afterSeq: int): seq<Event>
    requires -1 <= afterSeq
  {
    if afterSeq + 1 <= |log| then log[afterSeq + 1..] else []
  }

  /**
   * One bounded read. `pageLog` is the log the page query saw and `latestLog` the log the
   * query for the newest event saw; commits may fall between the two.
   */
  function ReadCommittedEventBatch(
    pageLog: seq<Event>, latestLog: seq<Event>, afterSeq: int, topics: set<Topic>, maxBacklogEvents: nat
  ): Result<Batch>
    requires -1 <= afterSeq && pageLog <= latestLog
  {
    var events := Forward(pageLog, afterSeq);
    if |events| > maxBacklogEvents then
      var latest := latestLog[|latestLog| - 1];
      if latest.seqNo <= afterSeq then
        Err(Internal)
      else
        Ok(Batch([Delivery(latest.seqNo, Some(Frame(latest.seqNo, GapData(afterSeq + 1, latest.seqNo))))], true))
    else if exists i | 0 <= i < |events| :: FrameForCommittedEvent(events[i], topics).Err? then
      Err(SchemaInvalid)
    else
      Ok(Batch(seq(|events|, i requires 0 <= i < |events| =>
                     Delivery(events[i].seqNo, FrameForCommittedEvent(events[i], topics).value)), false))
  }

  /**
   * A read fails only over a subscribed digest that its payload does not give, and never because there is too
   * much: a backlog beyond the limit becomes one gap up to the newest event, and any other is
   * read event by event.
   */
  lemma BatchFailsExactlyWhen(pageLog: seq<Event>, latestLog: seq<Event>, afterSeq: int, topics: set<Topic>, maxBacklogEvents: nat)
    requires -1 <= afterSeq && pageLog <= latestLog && ValidLog(latestLog)
    ensures var backlog := |pageLog| - (afterSeq + 1);
            var read := ReadCommittedEventBatch(pageLog, latestLog, afterSeq, topics, maxBacklogEvents);
            if maxBacklogEvents < backlog then
              var latest := |latestLog| - 1;
              read == Ok(Batch([Delivery(latest, Some(Frame(latest, GapData(afterSeq + 1, latest))))], true))
            else
              && (read.Err? <==>
                    DigestTopic in topics && exists s: nat | afterSeq < s < |pageLog| ::
                      pageLog[s].eventType == "simulation.tick.completed" && pageLog[s].digest.None?)
              && (read.Ok? ==>
                    && !read.value.gap && |read.value.deliveries| == Max(0, backlog)
                    && forall i | 0 <= i < backlog :: read.value.deliveries[i].throughSeq == afterSeq + 1 + i)
  {
    var events := Forward(pageLog, afterSeq);
    assert forall i | 0 <= i < |events| :: events[i] == pageLog[afterSeq + 1 + i] == latestLog[afterSeq + 1 + i];
    if s: nat :| afterSeq < s < |pageLog| && pageLog[s].eventType == "simulation.tick.completed" && pageLog[s].digest.None? {
      assert events[s - afterSeq - 1] == pageLog[s];
    }
  }

  /******* What the client is owed *******/

  /**
   * The frames account for every event in (start, after]: their ranges are disjoint and
   * in order, an event frame is exactly the frame of its event, and an event that no frame
   * covers belongs to no subscribed topic.
   */
  ghost predicate Accounted(frames: seq<Frame>, log: seq<Event>, topics: set<Topic>, start: int, after: int) {
    && -1 <= start <= after
    && (after < |log| || after == start)
    && (forall i | 0 <= i < |frames| ::
          && start < frames[i].Lo() <= frames[i].Hi() == frames[i].id <= after
          && (!frames[i].data.GapData? ==> FrameForCommittedEvent(log[frames[i].id], topics) == Ok(Some(frames[i]))))
    && (forall i, j | 0 <= i < j < |frames| :: frames[i].Hi() < frames[j].Lo())
    && (forall s | start < s <= after ::
          CoveredBy(frames, s) || FrameForCommittedEvent(log[s], topics) == Ok(None))
  }

  ghost predicate CoveredBy(frames: seq<Frame>, s: int) {
    exists i | 0 <= i < |frames| :: frames[i].Covers(s)
  }

  /** `frames` delivers event `s` through exactly one frame, and no gap hides it. */
  ghost predicate DeliveredOnce(frames: seq<Frame>, log: seq<Event>, topics: set<Topic>, s: nat)
    requires s < |log|
  {
    exists i | 0 <= i < |frames| ::
      && FrameForCommittedEvent(log[s], topics) == Ok(Some(frames[i]))
      && frames[i].id == s
      && forall j | 0 <= j < |frames| && j != i :: !frames[j].Covers(s)
  }

  /** Event `s` is inside exactly one gap frame and no other frame covers it. */
  ghost predicate InOneGap(frames: seq<Frame>, s: int) {
    exists i | 0 <= i < |frames| ::
      && frames[i].data.GapData?
      && frames[i].Covers(s)
      && forall j | 0 <= j < |frames| && j != i :: !frames[j].Covers(s)
  }

  /** Event `s` was passed over without a frame because no subscribed topic wants it. */
  ghost predicate PassedOver(frames: seq<Frame>, log: seq<Event>, topics: set<Topic>, s: nat)
    requires s < |log|
  {
    !CoveredBy(frames, s) && FrameForCommittedEvent(log[s], topics) == Ok(None)
  }

  /** Every event in the accounted range has exactly one of the three fates. */
  lemma EachEventHasOneFate(frames: seq<Frame>, log: seq<Event>, topics: set<Topic>, start: int, after: int, s: nat)
    requires ValidLog(log) && Accounted(frames, log, topics, start, after)
    requires start < s <= after
    ensures DeliveredOnce(frames, log, topics, s) || InOneGap(frames, s) || PassedOver(frames, log, topics, s)
    ensures !(DeliveredOnce(frames, log, topics, s) && InOneGap(frames, s))
    ensures !(DeliveredOnce(frames, log, topics, s) && PassedOver(frames, log, topics, s))
    ensures !(InOneGap(frames, s) && PassedOver(frames, log, topics, s))
  {
    if CoveredBy(frames, s) {
      var i :| 0 <= i < |frames| && frames[i].Covers(s);
      forall j | 0 <= j < |frames| && j != i ensures !frames[j].Covers(s) {
        if j < i {
          assert frames[j].Hi() < frames[i].Lo();
        } else {
          assert frames[i].Hi() < frames[j].Lo();
        }
      }
    }
  }

  /** Commits after the fact do not disturb what was accounted for. */
  lemma AccountedGrows(
    frames: seq<Frame>, log: seq<Event>, longer: seq<Event>, topics: set<Topic>, start: int, after: int
  )
    requires Accounted(frames, log, topics, start, after) && log <= longer
    ensures Accounted(frames, longer, topics, start, after)
  {
  }

  /** A delivery is the next event with its own frame, or one gap over everything up to its id. */
  ghost predicate Continues(delivery: Delivery, log: seq<Event>, topics: set<Topic>, after: int) {
    && -1 <= after < delivery.throughSeq < |log|
    && match delivery.frame
       case None =>
         && delivery.throughSeq == after + 1
         && FrameForCommittedEvent(log[delivery.throughSeq], topics) == Ok(None)
       case Some(frame) =>
         && frame.id == delivery.throughSeq
         && if frame.data.GapData? then
              frame.data == GapData(after + 1, delivery.throughSeq)
            else
              delivery.throughSeq == after + 1 && FrameForCommittedEvent(log[frame.id], topics) == Ok(Some(frame))
  }

  /** The deliveries follow one another from `after` and reach at least `target`. */
  ghost predicate Reaches(deliveries: seq<Delivery>, log: seq<Event>, topics: set<Topic>, after: int, target: int) {
    if deliveries == [] then target <= after
    else
      && Continues(deliveries[0], log, topics, after)
      && Reaches(deliveries[1..], log, topics, deliveries[0].throughSeq, target)
  }

  /** Every batch that is read continues the account and reaches the end of the page's log. */
  lemma BatchReachesLogEnd(
    pageLog: seq<Event>, latestLog: seq<Event>, afterSeq: int, topics: set<Topic>, maxBacklogEvents: nat
  )
    requires -1 <= afterSeq && pageLog <= latestLog && ValidLog(latestLog)
    requires ReadCommittedEventBatch(pageLog, latestLog, afterSeq, topics, maxBacklogEvents).Ok?
    ensures Reaches(ReadCommittedEventBatch(pageLog, latestLog, afterSeq, topics, maxBacklogEvents).value.deliveries,
                    latestLog, topics, afterSeq, |pageLog| - 1)
    ensures ReadCommittedEventBatch(pageLog, latestLog, afterSeq, topics, maxBacklogEvents).value.gap <==>
            maxBacklogEvents < |pageLog| - 1 - afterSeq
  {
    var batch := ReadCommittedEventBatch(pageLog, latestLog, afterSeq, topics, maxBacklogEvents).value;
    if !batch.gap {
      forall k | 0 <= k < |batch.deliveries|
        ensures Continues(batch.deliveries[k], latestLog, topics, afterSeq + k)
        ensures batch.deliveries[k].throughSeq == afterSeq + k + 1
      {
        assert Forward(pageLog, afterSeq)[k] == latestLog[afterSeq + 1 + k];
      }
      SingleStepsReach(batch.deliveries, latestLog, topics, afterSeq, |pageLog| - 1);
    } else {
      assert batch.deliveries[1..] == [];
    }
  }

  lemma {:induction false} SingleStepsReach(
    deliveries: seq<Delivery>, log: seq<Event>, topics: set<Topic>, after: int, target: int
  )
    requires forall k | 0 <= k < |deliveries| ::
               Continues(deliveries[k], log, topics, after + k) && deliveries[k].throughSeq == after + k + 1
    requires target <= after + |deliveries|
    ensures Reaches(deliveries, log, topics, after, target)
  {
    if deliveries != [] {
      assert Continues(deliveries[0], log, topics, after + 0);
      forall k | 0 <= k < |deliveries[1..]|
        ensures Continues(deliveries[1..][k], log, topics, after + 1 + k)
        ensures deliveries[1..][k].throughSeq == after + 1 + k + 1
      {
        assert Continues(deliveries[k + 1], log, topics, after + (k + 1));
      }
      SingleStepsReach(deliveries[1..], log, topics, after + 1, target);
    }
  }

  /** One delivery extends the account. */
  lemma AccountedExtend(
    frames: seq<Frame>, log: seq<Event>, topics: set<Topic>, start: int, after: int, delivery: Delivery
  )
    requires ValidLog(log) && Accounted(frames, log, topics, start, after)
    requires Continues(delivery, log, topics, after)
    ensures Accounted(frames + FramesOf(delivery), log, topics, start, delivery.throughSeq)
  {
    var longer := frames + FramesOf(delivery);
    forall s | start < s <= delivery.throughSeq
      ensures CoveredBy(longer, s) || FrameForCommittedEvent(log[s], topics) == Ok(None)
    {
      if s <= after {
        if CoveredBy(frames, s) {
          var i :| 0 <= i < |frames| && frames[i].Covers(s);
          assert longer[i].Covers(s);
        }
      } else if delivery.frame.Some? {
        assert longer[|frames|].Covers(s);
      }
    }
  }

  function FramesOf(delivery: Delivery): seq<Frame> {
    match delivery.frame
    case None => []
    case Some(frame) => [frame]
  }

  /******* One connection *******/

  datatype Chunk = Comment(text: string) | FrameChunk(frame: Frame)

  /** The frames among the chunks handed to the response. */
  function WrittenFrames(chunks: seq<Chunk>): seq<Frame> {
    if chunks == [] then []
    else
      var last := chunks[|chunks| - 1];
      WrittenFrames(chunks[..|chunks| - 1]) + (if last.FrameChunk? then [last.frame] else [])
  }

  lemma WrittenFramesPush(chunks: seq<Chunk>, chunk: Chunk)
    ensures WrittenFrames(chunks + [chunk]) ==
            WrittenFrames(chunks) + (if chunk.FrameChunk? then [chunk.frame] else [])
  {
    assert (chunks + [chunk])[..|chunks|] == chunks;
  }

  /**
   * What the operating environment may do between two steps of the connection. A poll asks the
   * store twice, and other events may be committed between the two queries.
   */
  datatype Step =
    | Commit(events: seq<Event>)
    | PollTimer(between: seq<Event>)
    | DrainEvent(between: seq<Event>)
    | HeartbeatTimer
    | RemoteClose
  {
    /** The events other writers commit during this step. */
    function Commits(): seq<Event> {
      match this
      case Commit(events) => events
      case PollTimer(between) => between
      case DrainEvent(between) => between
      case HeartbeatTimer => []
      case RemoteClose => []
    }
  }

  class StreamConnection {
    const topics: set<Topic>
    const maxBacklogEvents: nat
    var afterSeq: int
    var blocked: bool
    var polling: bool
    var closed: bool
    // The response: what it has accepted, whether its peer is gone, and its drain listeners.
    var chunks: seq<Chunk>
    var destroyed: bool
    var drainListeners: nat
    // The log as last read, where the connection started, and how far frames account for it.
    ghost var seen: seq<Event>
    ghost const startSeq: int
    ghost var servedSeq: int

    ghost predicate Valid()
      reads this
    {
      && ValidLog(seen)
      && !polling
      && Serving()
    }

    /** The part of the invariant that also holds in the middle of a poll. */
    ghost predicate Serving()
      reads this
    {
      && Accounted(WrittenFrames(chunks), seen, topics, startSeq, servedSeq)
      && (!closed ==> servedSeq == afterSeq)
      && (!closed ==> drainListeners == if blocked then 1 else 0)
    }

    constructor (topics: set<Topic>, afterSeq: int, maxBacklogEvents: nat, ghost log: seq<Event>)
      requires ValidLog(log) && -1 <= afterSeq
      ensures Valid() && fresh(this)
      ensures this.topics == topics && startSeq == afterSeq && this.afterSeq == afterSeq && seen == log
      ensures this.maxBacklogEvents == maxBacklogEvents && chunks == [] && !closed && !blocked
    {
      this.topics := topics;
      this.maxBacklogEvents := maxBacklogEvents;
      this.afterSeq := afterSeq;
      blocked, polling, closed := false, false, false;
      chunks, destroyed, drainListeners := [], false, 0;
      seen, startSeq, servedSeq := log, afterSeq, afterSeq;
    }

    /** Stops the connection for good; what was written stays accounted for. */
    method Close()
      modifies this`closed, this`drainListeners
      ensures closed
    {
      if closed {
        return;
      }
      closed := true;
      drainListeners := 0;
    }

    /**
     * Hands one chunk to the response. The peer may be found gone, and a full buffer still
     * accepts the chunk but blocks the connection until it drains. `threw` is a failed write.
     */
    method Write(chunk: Chunk) returns (accepted: bool, threw: bool)
      requires !closed ==> !blocked && drainListeners == 0
      modifies this`chunks, this`closed, this`blocked, this`drainListeners, this`destroyed
      ensures old(closed) ==> closed
      ensures accepted ==> !closed && !blocked && !threw
      ensures chunks == old(chunks) || (!threw && chunks == old(chunks) + [chunk])
      ensures !closed && !threw ==> chunks == old(chunks) + [chunk]
      ensures closed ==> chunks == old(chunks)
      ensures threw ==> chunks == old(chunks) && blocked == old(blocked)
      ensures !closed && !threw ==> accepted == !blocked
      ensures !closed ==> drainListeners == if blocked then 1 else 0
    {
      var peerGone: bool := *;
      destroyed := destroyed || peerGone;
      if closed || destroyed {
        Close();
        return false, false;
      }
      threw := *;
      if threw {
        return false, true;
      }
      accepted := *;
      chunks := chunks + [chunk];
      if !accepted {
        blocked := true;
        drainListeners := drainListeners + 1;
      }
    }

    /** Reads the log forward and writes what is due; afterwards an unblocked reader has caught up. */
    method Poll(pageLog: seq<Event>, latestLog: seq<Event>)
      requires Valid() && ValidLog(latestLog)
      requires seen <= pageLog <= latestLog
      modifies this
      ensures Valid() && seen == latestLog
      ensures old(closed) ==> closed
      ensures old(closed || blocked) ==> chunks == old(chunks) && afterSeq == old(afterSeq) && blocked == old(blocked)
      ensures old(WrittenFrames(chunks)) <= WrittenFrames(chunks)
      ensures !old(blocked) && !closed && !blocked ==> |pageLog| - 1 <= afterSeq
    {
      AccountedGrows(WrittenFrames(chunks), seen, latestLog, topics, startSeq, servedSeq);
      seen := latestLog;
      if closed || blocked || polling {
        return;
      }
      polling := true;
      var batch := ReadBatch(pageLog, latestLog);
      if batch.Err? {
        Close();
      } else {
        Deliver(batch.value.deliveries, |pageLog| - 1);
      }
      polling := false;
    }

    /** Reads the next batch: whatever its size, it continues the account up to the end of the page's log. */
    method ReadBatch(pageLog: seq<Event>, latestLog: seq<Event>) returns (batch: Result<Batch>)
      requires ValidLog(latestLog) && pageLog <= latestLog && -1 <= afterSeq
      ensures batch.Ok? ==> Reaches(batch.value.deliveries, latestLog, topics, afterSeq, |pageLog| - 1)
      ensures batch.Ok? ==> (batch.value.gap <==> maxBacklogEvents < |pageLog| - 1 - afterSeq)
    {
      batch := ReadCommittedEventBatch(pageLog, latestLog, afterSeq, topics, maxBacklogEvents);
      if batch.Ok? {
        BatchReachesLogEnd(pageLog, latestLog, afterSeq, topics, maxBacklogEvents);
      }
    }

    /** The write loop of one poll; it stops at a full buffer and at a connection that ended. */
    method Deliver(deliveries: seq<Delivery>, ghost target: int)
      requires ValidLog(seen) && Serving() && !closed && !blocked
      requires Reaches(deliveries, seen, topics, afterSeq, target)
      modifies this`afterSeq, this`servedSeq, this`chunks, this`closed, this`blocked, this`drainListeners, this`destroyed
      ensures Serving()
      ensures old(WrittenFrames(chunks)) <= WrittenFrames(chunks)
      ensures !closed && !blocked ==> target <= afterSeq
    {
      var k := 0;
      while k < |deliveries|
        invariant 0 <= k <= |deliveries|
        invariant Serving() && !closed && !blocked
        invariant Reaches(deliveries[k..], seen, topics, afterSeq, target)
        invariant old(WrittenFrames(chunks)) <= WrittenFrames(chunks)
      {
        assert deliveries[k] == deliveries[k..][0] && deliveries[k..][1..] == deliveries[k + 1..];
        var goesOn := DeliverOne(deliveries[k]);
        if !goesOn {
          return;
        }
        k := k + 1;
      }
      assert deliveries[|deliveries|..] == [];
    }

    /** One event or gap: written if it has a frame, and accounted for; a stopped writer ends the batch. */
    method DeliverOne(delivery: Delivery) returns (goesOn: bool)
      requires ValidLog(seen) && Serving() && !closed && !blocked
      requires Continues(delivery, seen, topics, afterSeq)
      modifies this`afterSeq, this`servedSeq, this`chunks, this`closed, this`blocked, this`drainListeners, this`destroyed
      ensures Serving()
      ensures old(WrittenFrames(chunks)) <= WrittenFrames(chunks)
      ensures if goesOn then !closed && !blocked && afterSeq == delivery.throughSeq else closed || blocked
    {
      AccountedExtend(WrittenFrames(chunks), seen, topics, startSeq, servedSeq, delivery);
      match delivery.frame {
        case Some(frame) =>
          WrittenFramesPush(chunks, FrameChunk(frame));
          var accepted, threw := Write(FrameChunk(frame));
          if threw {
            Close();
            return false;
          }
          afterSeq := delivery.throughSeq;
          if !closed {
            servedSeq := afterSeq;
          }
          return accepted;
        case None =>
          assert WrittenFrames(chunks) + FramesOf(delivery) == WrittenFrames(chunks);
          afterSeq := delivery.throughSeq;
          servedSeq := afterSeq;
          return true;
      }
    }

    method Heartbeat()
      requires Valid()
      modifies this
      ensures Valid() && seen == old(seen)
      ensures old(closed) ==> closed
      ensures WrittenFrames(chunks) == old(WrittenFrames(chunks)) && afterSeq == old(afterSeq)
      ensures old(closed || blocked) ==> chunks == old(chunks)
      ensures !old(closed || blocked) && !closed ==> chunks == old(chunks) + [Comment(":hb\n\n")]
    {
      if closed || blocked {
        return;
      }
      WrittenFramesPush(chunks, Comment(":hb\n\n"));
      var _, threw := Write(Comment(":hb\n\n"));
      if threw {
        Close();
      }
    }

    /** The response emptied its buffer; reading resumes where it stopped. */
    method HandleDrain(pageLog: seq<Event>, latestLog: seq<Event>)
      requires Valid() && ValidLog(latestLog)
      requires seen <= pageLog <= latestLog
      requires drainListeners == 1
      modifies this
      ensures Valid() && seen == latestLog
      ensures old(closed) ==> closed
      ensures old(WrittenFrames(chunks)) <= WrittenFrames(chunks)
    {
      drainListeners := 0;
      if closed {
        AccountedGrows(WrittenFrames(chunks), seen, latestLog, topics, startSeq, servedSeq);
        seen := latestLog;
        return;
      }
      blocked := false;
      Poll(pageLog, latestLog);
    }

    method Start(pageLog: seq<Event>, latestLog: seq<Event>)
      requires Valid() && ValidLog(latestLog)
      requires seen <= pageLog <= latestLog
      requires !closed && !blocked && chunks == []
      modifies this
      ensures Valid() && seen == latestLog
    {
      WrittenFramesPush(chunks, Comment(":connected\n\n"));
      var _, threw := Write(Comment(":connected\n\n"));
      if threw {
        Close();
      }
      Poll(pageLog, latestLog);
    }

    /** One step of the environment; `latestLog` is the log after it. */
    method Meet(step: Step, log: seq<Event>, latestLog: seq<Event>)
      requires Valid() && seen <= log && latestLog == log + step.Commits() && ValidLog(latestLog)
      modifies this
      ensures Valid() && seen <= latestLog
      ensures old(WrittenFrames(chunks)) <= WrittenFrames(chunks) && (old(closed) ==> closed)
    {
      match step {
        case Commit(_) =>
        case PollTimer(_) =>
          Poll(log, latestLog);
        case DrainEvent(_) =>
          if drainListeners == 1 {
            HandleDrain(log, latestLog);
          }
        case HeartbeatTimer =>
          Heartbeat();
        case RemoteClose =>
          Close();
      }
    }

    /**
     * A new connection is started and then meets any interleaving of commits, polls, drains,
     * heartbeats and a remote close: while it is open its frames account for exactly the events
     * up to `afterSeq`.
     */
    method Serve(log: seq<Event>, opening: seq<Event>, script: seq<Step>) returns (finalLog: seq<Event>)
      requires Valid() && seen <= log && !closed && !blocked && chunks == []
      requires ValidLog(log + opening + Committed(script))
      modifies this
      ensures finalLog == log + opening + Committed(script)
      ensures Accounted(WrittenFrames(chunks), finalLog, topics, startSeq, servedSeq)
      ensures !closed ==> servedSeq == afterSeq
    {
      finalLog := log + opening;
      assert script[..0] == [] && script[..|script|] == script;
      PrefixIsValid(finalLog, finalLog + Committed(script));
      Start(log, finalLog);
      var k := 0;
      while k < |script|
        invariant 0 <= k <= |script|
        invariant Valid() && seen <= finalLog
        invariant finalLog == log + opening + Committed(script[..k])
      {
        var latestLog := finalLog + script[k].Commits();
        NextStepCommits(log + opening, script, k);
        Meet(script[k], finalLog, latestLog);
        finalLog := latestLog;
        k := k + 1;
      }
      AccountedGrows(WrittenFrames(chunks), seen, finalLog, topics, startSeq, servedSeq);
    }
  }

  /** The events committed during a script. */
  function Committed(script: seq<Step>): seq<Event> {
    if script == [] then []
    else Committed(script[..|script| - 1]) + script[|script| - 1].Commits()
  }

  lemma {:induction false} CommittedPrefix(script: seq<Step>, k: nat)
    requires k <= |script|
    ensures Committed(script[..k]) <= Committed(script)
    decreases |script|
  {
    if k < |script| {
      assert script[..|script| - 1][..k] == script[..k];
      CommittedPrefix(script[..|script| - 1], k);
    } else {
      assert script[..k] == script;
    }
  }

  lemma ValidUpTo(log: seq<Event>, some: seq<Event>, more: seq<Event>)
    requires some <= more && ValidLog(log + more)
    ensures ValidLog(log + some)
  {
    assert forall i | 0 <= i < |log + some| :: (log + some)[i] == (log + more)[i];
  }

  /** The log after one more step of a script. */
  lemma NextStepCommits(log: seq<Event>, script: seq<Step>, k: nat)
    requires k < |script| && ValidLog(log + Committed(script))
    ensures log + Committed(script[..k + 1]) == log + Committed(script[..k]) + script[k].Commits()
    ensures ValidLog(log + Committed(script[..k + 1]))
  {
    assert script[..k + 1][..k] == script[..k];
    ConcatAssociates(log, Committed(script[..k]), script[k].Commits());
    CommittedPrefix(script, k + 1);
    ValidUpTo(log, Committed(script[..k + 1]), Committed(script));
  }

  lemma PrefixIsValid(log: seq<Event>, longer: seq<Event>)
    requires log <= longer && ValidLog(longer)
    ensures ValidLog(log)
  {
    assert forall i | 0 <= i < |log| :: log[i] == longer[i];
  }

  /******* One client across reconnections *******/

  /** One connection as the client lived it: what the server wrote and how much of it arrived. */
  datatype Session = Session(frames: seq<Frame>, servedSeq: int, received: nat)

  /** The id the client would send to reconnect after a session that began at `start`. */
  function LastEventId(session: Session, start: int): int
    requires session.received <= |session.frames|
  {
    if session.received == 0 then start else session.frames[session.received - 1].id
  }

  /** Each session begins at the last id received before it and was served by a connection. */
  ghost predicate ClientRun(sessions: seq<Session>, log: seq<Event>, topics: set<Topic>, start: int)
    decreases |sessions|
  {
    sessions == [] ||
    var first := sessions[0];
    && first.received <= |first.frames|
    && Accounted(first.frames, log, topics, start, first.servedSeq)
    && ClientRun(sessions[1..], log, topics, LastEventId(first, start))
  }

  /** No session received more than was written. */
  predicate WithinWritten(sessions: seq<Session>) {
    forall session | session in sessions :: session.received <= |session.frames|
  }

  function Received(sessions: seq<Session>): seq<Frame>
    requires WithinWritten(sessions)
  {
    if sessions == [] then []
    else sessions[0].frames[..sessions[0].received] + Received(sessions[1..])
  }

  function FinalId(sessions: seq<Session>, start: int): int
    requires WithinWritten(sessions)
    decreases |sessions|
  {
    if sessions == [] then start else FinalId(sessions[1..], LastEventId(sessions[0], start))
  }

  lemma ClientRunReceived(sessions: seq<Session>, log: seq<Event>, topics: set<Topic>, start: int)
    requires ClientRun(sessions, log, topics, start)
    ensures WithinWritten(sessions)
    decreases |sessions|
  {
    if sessions != [] {
      ClientRunReceived(sessions[1..], log, topics, LastEventId(sessions[0], start));
      forall session | session in sessions ensures session.received <= |session.frames| {
        if session != sessions[0] {
          assert session in sessions[1..];
        }
      }
    }
  }

  /** Cutting a session after any received frame leaves an account that ends at that frame. */
  lemma ReceivedPrefixAccounted(
    frames: seq<Frame>, log: seq<Event>, topics: set<Topic>, start: int, after: int, received: nat
  )
    requires Accounted(frames, log, topics, start, after) && received <= |frames|
    ensures Accounted(frames[..received], log, topics, start,
                      if received == 0 then start else frames[received - 1].id)
  {
    if received > 0 {
      var last := frames[received - 1].id;
      forall s | start < s <= last
        ensures CoveredBy(frames[..received], s) || FrameForCommittedEvent(log[s], topics) == Ok(None)
      {
        if CoveredBy(frames, s) {
          var i :| 0 <= i < |frames| && frames[i].Covers(s);
          var cut, lo := frames[received - 1].Hi(), frames[i].Lo();
          if i < received {
            assert frames[..received][i].Covers(s);
          }
        }
      }
    }
  }

  /** Accounts of adjacent ranges join. */
  lemma AccountedJoin(
    left: seq<Frame>, right: seq<Frame>, log: seq<Event>, topics: set<Topic>, start: int, middle: int, after: int
  )
    requires Accounted(left, log, topics, start, middle) && Accounted(right, log, topics, middle, after)
    ensures Accounted(left + right, log, topics, start, after) || middle >= |log|
  {
    if middle < |log| {
      var both := left + right;
      forall i, j | 0 <= i < j < |both| ensures both[i].Hi() < both[j].Lo() {
        if i < |left| <= j {
          assert both[j] == right[j - |left|];
        }
      }
      forall s | start < s <= after
        ensures CoveredBy(both, s) || FrameForCommittedEvent(log[s], topics) == Ok(None)
      {
        if s <= middle {
          if CoveredBy(left, s) {
            var i :| 0 <= i < |left| && left[i].Covers(s);
            assert both[i].Covers(s);
          }
        } else if CoveredBy(right, s) {
          var i :| 0 <= i < |right| && right[i].Covers(s);
          assert both[|left| + i].Covers(s);
        }
      }
    }
  }

  /**
   * Across any number of reconnections, each after any received prefix, what the client
   * received accounts for every event up to the last id it received.
   */
  lemma {:induction false} ClientAccounted(sessions: seq<Session>, log: seq<Event>, topics: set<Topic>, start: int)
    requires -1 <= start < |log| && ClientRun(sessions, log, topics, start)
    requires WithinWritten(sessions)
    ensures Accounted(Received(sessions), log, topics, start, FinalId(sessions, start))
    decreases |sessions|
  {
    if sessions != [] {
      var first := sessions[0];
      var middle := LastEventId(first, start);
      ReceivedPrefixAccounted(first.frames, log, topics, start, first.servedSeq, first.received);
      ClientAccounted(sessions[1..], log, topics, middle);
      AccountedJoin(first.frames[..first.received], Received(sessions[1..]), log, topics, start, middle, FinalId(sessions, start));
    }
  }

  /******* The client's law, in terms of events and topics alone *******/

  predicate NamesLifecycle(eventType: string) {
    || eventType == "simulation.created" || eventType == "simulation.started" || eventType == "simulation.paused"
    || eventType == "simulation.resumed" || eventType == "simulation.stopped" || eventType == "simulation.completed"
    || eventType == "simulation.failed"
  }

  /** The frame repeats the event; a status the payload leaves out is what follows the common prefix of its type. */
  ghost predicate TellsLifecycle(frame: Frame, event: Event) {
    && frame.id == event.seqNo && frame.data.LifecycleData?
    && frame.data.eventId == event.eventId && frame.data.eventType == event.eventType && frame.data.tick == event.tick
    && if event.status != "" then frame.data.status == event.status else "simulation." + frame.data.status == event.eventType
  }

  ghost predicate TellsDigest(frame: Frame, event: Event) {
    frame.id == event.seqNo && event.digest.Some? && frame.data == DigestData(event.digest.value)
  }

  ghost predicate InReceivedGap(received: seq<Frame>, s: int) {
    exists frame :: frame in received && frame.data.GapData? && frame.Covers(s)
  }

  /** An event of a subscribed topic was told, or a gap says it may have been left out. */
  ghost predicate Told(received: seq<Frame>, event: Event, topics: set<Topic>) {
    && (LifecycleTopic in topics && NamesLifecycle(event.eventType) ==>
          InReceivedGap(received, event.seqNo) || exists frame :: frame in received && TellsLifecycle(frame, event))
    && (DigestTopic in topics && event.eventType == "simulation.tick.completed" ==>
          InReceivedGap(received, event.seqNo) || exists frame :: frame in received && TellsDigest(frame, event))
  }

  /** The frame tells of an event of its own kind, of a subscribed topic, within the range. */
  ghost predicate Truthful(frame: Frame, log: seq<Event>, topics: set<Topic>, start: int, lastId: int) {
    && start < frame.id <= lastId && frame.id < |log|
    && match frame.data
       case GapData(fromSeq, toSeq) => start < fromSeq <= toSeq == frame.id
       case DigestData(_) =>
         && DigestTopic in topics && 0 <= frame.id && log[frame.id].eventType == "simulation.tick.completed"
         && TellsDigest(frame, log[frame.id])
       case LifecycleData(_, _, _, _) =>
         && LifecycleTopic in topics && 0 <= frame.id && NamesLifecycle(log[frame.id].eventType)
         && TellsLifecycle(frame, log[frame.id])
  }

  /** What a client is promised about the frames it received, the last of them with id `lastId`. */
  ghost predicate NothingMissed(received: seq<Frame>, log: seq<Event>, topics: set<Topic>, start: int, lastId: int) {
    && (forall i, j | 0 <= i < j < |received| :: received[i].id < received[j].id)
    && (forall s: nat | start < s <= lastId && s < |log| :: Told(received, log[s], topics))
    && (forall frame | frame in received :: Truthful(frame, log, topics, start, lastId))
  }

  lemma SuffixFollowsPrefix(eventType: string)
    requires NamesLifecycle(eventType)
    ensures eventType in LIFECYCLE_EVENT_TYPES && |"simulation."| <= |eventType|
    ensures "simulation." + eventType[|"simulation."|..] == eventType
  {
    assert eventType[..11] == "simulation.";
  }

  /** Which frame an event of which kind gets, and that no other event gets one. */
  lemma FramesAreTold(event: Event, topics: set<Topic>)
    ensures match FrameForCommittedEvent(event, topics)
            case Ok(None) =>
              && !(LifecycleTopic in topics && NamesLifecycle(event.eventType))
              && !(DigestTopic in topics && event.eventType == "simulation.tick.completed")
            case Err(_) =>
              DigestTopic in topics && event.eventType == "simulation.tick.completed" && event.digest.None?
            case Ok(Some(frame)) =>
              if frame.data.DigestData? then
                && DigestTopic in topics && event.eventType == "simulation.tick.completed" && TellsDigest(frame, event)
              else
                LifecycleTopic in topics && NamesLifecycle(event.eventType) && TellsLifecycle(frame, event)
  {
    if NamesLifecycle(event.eventType) {
      SuffixFollowsPrefix(event.eventType);
      assert event.eventType != "simulation.tick.completed";
    }
  }

  lemma AccountTellsEvent(frames: seq<Frame>, log: seq<Event>, topics: set<Topic>, start: int, after: int, s: nat)
    requires ValidLog(log) && Accounted(frames, log, topics, start, after) && start < s <= after && s < |log|
    ensures Told(frames, log[s], topics)
  {
    if CoveredBy(frames, s) {
      var i :| 0 <= i < |frames| && frames[i].Covers(s);
      assert frames[i] in frames;
      if !frames[i].data.GapData? {
        FrameTells(frames, log[s], topics, frames[i]);
      }
    } else {
      FramesAreTold(log[s], topics);
    }
  }

  lemma FrameTells(frames: seq<Frame>, event: Event, topics: set<Topic>, frame: Frame)
    requires frame in frames && FrameForCommittedEvent(event, topics) == Ok(Some(frame))
    ensures Told(frames, event, topics)
  {
    FramesAreTold(event, topics);
    if NamesLifecycle(event.eventType) {
      SuffixFollowsPrefix(event.eventType);
    }
  }

  lemma AccountIsTruthful(frames: seq<Frame>, log: seq<Event>, topics: set<Topic>, start: int, after: int, i: nat)
    requires ValidLog(log) && Accounted(frames, log, topics, start, after) && start < |log| && i < |frames|
    ensures Truthful(frames[i], log, topics, start, after)
  {
    if !frames[i].data.GapData? {
      FramesAreTold(log[frames[i].id], topics);
    }
  }

  /** An account of the frames, in the client's own terms. */
  lemma AccountTellsAll(frames: seq<Frame>, log: seq<Event>, topics: set<Topic>, start: int, after: int)
    requires ValidLog(log) && Accounted(frames, log, topics, start, after) && start < |log|
    ensures NothingMissed(frames, log, topics, start, after)
  {
    forall i, j | 0 <= i < j < |frames| ensures frames[i].id < frames[j].id {
      assert frames[i].Hi() < frames[j].Lo();
    }
    forall s: nat | start < s <= after && s < |log| ensures Told(frames, log[s], topics) {
      AccountTellsEvent(frames, log, topics, start, after, s);
    }
    forall frame | frame in frames ensures Truthful(frame, log, topics, start, after) {
      var i :| 0 <= i < |frames| && frames[i] == frame;
      AccountIsTruthful(frames, log, topics, start, after, i);
    }
  }

  /**
   * The client's view in its own terms: ids strictly increase, and a subscribed event up to
   * its last id was either received or lies inside a received gap frame.
   */
  lemma ClientMissesNothing(sessions: seq<Session>, log: seq<Event>, topics: set<Topic>, start: int)
    requires ValidLog(log) && -1 <= start < |log| && ClientRun(sessions, log, topics, start)
    requires WithinWritten(sessions)
    ensures NothingMissed(Received(sessions), log, topics, start, FinalId(sessions, start))
  {
    ClientAccounted(sessions, log, topics, start);
    AccountTellsAll(Received(sessions), log, topics, start, FinalId(sessions, start));
  }

  /** One visit of a client: what happens while it is connected, and how many frames reach it. */
  datatype Visit = Visit(opening: seq<Event>, script: seq<Step>, arriving: nat)

  /** The events committed during a number of visits. */
  function CommittedBy(visits: seq<Visit>): seq<Event> {
    if visits == [] then []
    else
      var last := visits[|visits| - 1];
      CommittedBy(visits[..|visits| - 1]) + last.opening + Committed(last.script)
  }

  lemma {:induction false} CommittedByPrefix(visits: seq<Visit>, k: nat)
    requires k <= |visits|
    ensures CommittedBy(visits[..k]) <= CommittedBy(visits)
    decreases |visits|
  {
    if k < |visits| {
      assert visits[..|visits| - 1][..k] == visits[..k];
      CommittedByPrefix(visits[..|visits| - 1], k);
    } else {
      assert visits[..k] == visits;
    }
  }

  /** The log after one more visit. */
  lemma NextVisitCommits(log: seq<Event>, visits: seq<Visit>, k: nat)
    requires k < |visits| && ValidLog(log + CommittedBy(visits))
    ensures log + CommittedBy(visits[..k + 1])
            == log + CommittedBy(visits[..k]) + visits[k].opening + Committed(visits[k].script)
    ensures ValidLog(log + CommittedBy(visits[..k + 1]))
  {
    var before, opening, script := CommittedBy(visits[..k]), visits[k].opening, Committed(visits[k].script);
    assert visits[..k + 1][..k] == visits[..k];
    ConcatAssociates(log, before + opening, script);
    ConcatAssociates(log, before, opening);
    CommittedByPrefix(visits, k + 1);
    ValidUpTo(log, CommittedBy(visits[..k + 1]), CommittedBy(visits));
  }

  lemma {:induction false} ClientRunGrows(
    sessions: seq<Session>, log: seq<Event>, longer: seq<Event>, topics: set<Topic>, start: int
  )
    requires ClientRun(sessions, log, topics, start) && log <= longer
    ensures ClientRun(sessions, longer, topics, start)
    decreases |sessions|
  {
    if sessions != [] {
      AccountedGrows(sessions[0].frames, log, longer, topics, start, sessions[0].servedSeq);
      ClientRunGrows(sessions[1..], log, longer, topics, LastEventId(sessions[0], start));
    }
  }

  lemma {:induction false} SessionsAppend(sessions: seq<Session>, next: Session, start: int)
    requires WithinWritten(sessions) && next.received <= |next.frames|
    ensures WithinWritten(sessions + [next])
    ensures Received(sessions + [next]) == Received(sessions) + next.frames[..next.received]
    ensures FinalId(sessions + [next], start) == LastEventId(next, FinalId(sessions, start))
    decreases |sessions|
  {
    if sessions == [] {
      assert [next][1..] == [] && [] + [next] == [next];
      assert Received([next]) == next.frames[..next.received] + Received([next][1..]);
    } else {
      assert (sessions + [next])[1..] == sessions[1..] + [next] && (sessions + [next])[0] == sessions[0];
      SessionsAppend(sessions[1..], next, LastEventId(sessions[0], start));
    }
  }

  /** One more session, begun where the client stood, continues its run. */
  lemma {:induction false} ClientRunAppend(
    sessions: seq<Session>, next: Session, log: seq<Event>, topics: set<Topic>, start: int
  )
    requires WithinWritten(sessions) && next.received <= |next.frames|
    requires ClientRun(sessions, log, topics, start)
    requires Accounted(next.frames, log, topics, FinalId(sessions, start), next.servedSeq)
    ensures ClientRun(sessions + [next], log, topics, start)
    decreases |sessions|
  {
    if sessions == [] {
      assert [next][1..] == [] && [] + [next] == [next];
    } else {
      assert (sessions + [next])[1..] == sessions[1..] + [next] && (sessions + [next])[0] == sessions[0];
      ClientRunAppend(sessions[1..], next, log, topics, LastEventId(sessions[0], start));
    }
  }

  /** Where a client stands after some sessions: what it received, and the id it reconnects with. */
  ghost predicate Stands(
    sessions: seq<Session>, received: seq<Frame>, lastId: int, log: seq<Event>, topics: set<Topic>, start: int
  ) {
    && WithinWritten(sessions) && ClientRun(sessions, log, topics, start)
    && received == Received(sessions) && -1 <= lastId == FinalId(sessions, start)
  }

  /** A further session, served while the log grew, takes the client further. */
  lemma VisitContinues(
    sessions: seq<Session>, received: seq<Frame>, lastId: int, next: Session,
    log: seq<Event>, longer: seq<Event>, topics: set<Topic>, start: int
  )
    requires Stands(sessions, received, lastId, log, topics, start) && log <= longer
    requires next.received <= |next.frames|
    requires Accounted(next.frames, longer, topics, lastId, next.servedSeq)
    ensures Stands(sessions + [next], received + next.frames[..next.received], LastEventId(next, lastId),
                   longer, topics, start)
  {
    ClientRunGrows(sessions, log, longer, topics, start);
    ClientRunAppend(sessions, next, longer, topics, start);
    SessionsAppend(sessions, next, start);
  }

  lemma {:induction false} FinalIdIsLastReceived(sessions: seq<Session>, start: int)
    requires WithinWritten(sessions)
    ensures FinalId(sessions, start) ==
            if Received(sessions) == [] then start else Received(sessions)[|Received(sessions)| - 1].id
    decreases |sessions|
  {
    if sessions != [] {
      FinalIdIsLastReceived(sessions[1..], LastEventId(sessions[0], start));
    }
  }

  /** One visit: a fresh connection from the client's last id, cut after some frames. */
  method ServeVisit(log: seq<Event>, topics: set<Topic>, lastId: int, maxBacklogEvents: nat, visit: Visit)
    returns (arrived: seq<Frame>, nextId: int, finalLog: seq<Event>, ghost session: Session)
    requires -1 <= lastId && ValidLog(log + visit.opening + Committed(visit.script))
    ensures finalLog == log + visit.opening + Committed(visit.script)
    ensures session.received <= |session.frames| && arrived == session.frames[..session.received]
    ensures session.received == visit.arriving || session.received == |session.frames| < visit.arriving
    ensures Accounted(session.frames, finalLog, topics, lastId, session.servedSeq)
    ensures nextId == LastEventId(session, lastId)
  {
    PrefixIsValid(log, log + visit.opening + Committed(visit.script));
    var connection := new StreamConnection(topics, lastId, maxBacklogEvents, log);
    finalLog := connection.Serve(log, visit.opening, visit.script);
    var frames := WrittenFrames(connection.chunks);
    var received := if visit.arriving < |frames| then visit.arriving else |frames|;
    arrived := frames[..received];
    nextId := if received == 0 then lastId else frames[received - 1].id;
    session := Session(frames, connection.servedSeq, received);
  }

  /**
   * A client that keeps reconnecting with the last id it received, over real connections that
   * are cut after any number of frames while events keep being committed, misses nothing.
   */
  method ServeClient(log: seq<Event>, topics: set<Topic>, start: int, maxBacklogEvents: nat, visits: seq<Visit>)
    returns (received: seq<Frame>, lastId: int, finalLog: seq<Event>, ghost sessions: seq<Session>)
    requires -1 <= start < |log| && ValidLog(log + CommittedBy(visits))
    ensures finalLog == log + CommittedBy(visits)
    ensures lastId == if received == [] then start else received[|received| - 1].id
    ensures NothingMissed(received, finalLog, topics, start, lastId)
    ensures |sessions| == |visits| && ClientRun(sessions, finalLog, topics, start)
    ensures WithinWritten(sessions)
    ensures received == Received(sessions) && lastId == FinalId(sessions, start)
  {
    received, lastId, finalLog, sessions := [], start, log, [];
    assert visits[..0] == [] && visits[..|visits|] == visits;
    PrefixIsValid(log, log + CommittedBy(visits));
    for k := 0 to |visits|
      invariant finalLog == log + CommittedBy(visits[..k]) && ValidLog(finalLog)
      invariant |sessions| == k && Stands(sessions, received, lastId, finalLog, topics, start)
    {
      NextVisitCommits(log, visits, k);
      var arrived, nextId, longerLog, session := ServeVisit(finalLog, topics, lastId, maxBacklogEvents, visits[k]);
      VisitContinues(sessions, received, lastId, session, finalLog, longerLog, topics, start);
      received, lastId, finalLog, sessions := received + arrived, nextId, longerLog, sessions + [session];
    }
    ClientMissesNothing(sessions, finalLog, topics, start);
    FinalIdIsLastReceived(sessions, start);
  }
}
