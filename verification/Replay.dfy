/**
 * The replay executor: it re-runs a recorded simulation, compares every event it produces
 * with the recorded one, and survives being stopped between any two durable writes.
 */
module Replay {
  import opened Shared

  /******* Event projection *******/

  datatype Json =
    | JsonNull
    | JsonBool(b: bool)
    | JsonNumber(n: int)
    | JsonString(s: string)
    | JsonArray(items: seq<Json>)
    | JsonObject(fields: map<string, Json>)

  /** Keys that identify one run of a simulation rather than what happened in it. */
  const OPERATIONAL_KEYS: set<string> := {
    "simulationId", "runId", "createdWall", "wallTime", "correlationId", "latencyMs"
  }

  function WithoutOperationalIdentity(value: Json): Json {
    match value
    case JsonArray(items) =>
      JsonArray(seq(|items|, i requires 0 <= i < |items| => WithoutOperationalIdentity(items[i])))
    case JsonObject(fields) =>
      JsonObject(map key | key in fields && key !in OPERATIONAL_KEYS :: WithoutOperationalIdentity(fields[key]))
    case _ => value
  }

  /** Two values say the same once operational keys are ignored at every depth. */
  ghost predicate SameFacts(a: Json, b: Json) {
    match (a, b)
    case (JsonArray(xs), JsonArray(ys)) =>
      |xs| == |ys| && forall i | 0 <= i < |xs| :: SameFacts(xs[i], ys[i])
    case (JsonObject(f), JsonObject(g)) =>
      && f.Keys - OPERATIONAL_KEYS == g.Keys - OPERATIONAL_KEYS
      && forall key | key in f && key in g && key !in OPERATIONAL_KEYS :: SameFacts(f[key], g[key])
    case _ => a == b
  }

  lemma {:induction false} ProjectionDecidesSameFacts(a: Json, b: Json)
    ensures WithoutOperationalIdentity(a) == WithoutOperationalIdentity(b) <==> SameFacts(a, b)
  {
    match (a, b) {
      case (JsonArray(xs), JsonArray(ys)) =>
        var pa, pb := WithoutOperationalIdentity(a).items, WithoutOperationalIdentity(b).items;
        forall i | 0 <= i < |xs| && i < |ys| ensures pa[i] == pb[i] <==> SameFacts(xs[i], ys[i]) {
          ProjectionDecidesSameFacts(xs[i], ys[i]);
        }
      case (JsonObject(f), JsonObject(g)) =>
        var pf, pg := WithoutOperationalIdentity(a).fields, WithoutOperationalIdentity(b).fields;
        assert pf.Keys == f.Keys - OPERATIONAL_KEYS && pg.Keys == g.Keys - OPERATIONAL_KEYS;
        forall key | key in f && key in g && key !in OPERATIONAL_KEYS
          ensures pf[key] == pg[key] <==> SameFacts(f[key], g[key])
        {
          ProjectionDecidesSameFacts(f[key], g[key]);
        }
        assert SameFacts(a, b) ==> pf == pg;
      case _ =>
    }
  }

  /** A field makes a difference exactly when it is not one of the six that name the run or its clock. */
  lemma OnlyRunIdentityIsIgnored(fields: map<string, Json>, key: string, value: Json)
    requires key !in fields
    ensures WithoutOperationalIdentity(JsonObject(fields[key := value])) == WithoutOperationalIdentity(JsonObject(fields))
            <==> || key == "simulationId" || key == "runId" || key == "createdWall"
                 || key == "wallTime" || key == "correlationId" || key == "latencyMs"
  {
    var before, after := WithoutOperationalIdentity(JsonObject(fields)), WithoutOperationalIdentity(JsonObject(fields[key := value]));
    if key in OPERATIONAL_KEYS {
      assert after.fields == before.fields;
    } else {
      assert key in after.fields && key !in before.fields;
    }
  }

  /** An event: the three fields the executor reads, and its whole envelope as a value. */
  datatype Event = Event(seqNo: nat, tick: nat, eventType: string, envelope: Json)

  function Projection(event: Event): Json {
    WithoutOperationalIdentity(event.envelope)
  }

  /** A digest, modelled as the injective image of what it digests. */
  datatype Hash = Hash(of: Json)

  function ReplayEventHash(event: Event): Hash {
    Hash(Projection(event))
  }

  /******* Comparing two ranges *******/

  datatype Mismatch = Mismatch(seqNo: nat, tick: nat, expectedHash: Hash, actualHash: Option<Hash>, missing: bool)

  /** Two ranges agree when they have equal length and equal projections throughout. */
  ghost predicate Agree(expected: seq<Event>, actual: seq<Event>) {
    && |expected| == |actual|
    && forall i | 0 <= i < |expected| :: Projection(expected[i]) == Projection(actual[i])
  }

  /** `index` is the first place where the ranges differ, and `mismatch` describes it. */
  ghost predicate FirstDifference(expected: seq<Event>, actual: seq<Event>, index: nat, mismatch: Mismatch) {
    && index <= |expected| && index <= |actual|
    && Agree(expected[..index], actual[..index])
    && if index == |expected| then
         && index < |actual|
         && mismatch == Mismatch(actual[index].seqNo, actual[index].tick, Hash(JsonNull),
                                 Some(ReplayEventHash(actual[index])), false)
       else if index == |actual| then
         mismatch == Mismatch(expected[index].seqNo, expected[index].tick, ReplayEventHash(expected[index]), None, true)
       else
         && Projection(expected[index]) != Projection(actual[index])
         && mismatch == Mismatch(expected[index].seqNo, Max(expected[index].tick, actual[index].tick),
                                 ReplayEventHash(expected[index]), Some(ReplayEventHash(actual[index])), false)
  }

  method FirstReplayEventMismatch(expected: seq<Event>, actual: seq<Event>) returns (mismatch: Option<Mismatch>)
    ensures mismatch.None? <==> Agree(expected, actual)
    ensures mismatch.Some? ==> exists index :: FirstDifference(expected, actual, index, mismatch.value)
  {
    var length := Max(|expected|, |actual|);
    var index := 0;
    while index < length
      invariant 0 <= index <= length
      invariant index <= |expected| && index <= |actual|
      invariant Agree(expected[..index], actual[..index])
    {
      if |expected| <= index {
        mismatch := Some(Mismatch(actual[index].seqNo, actual[index].tick, Hash(JsonNull),
                                  Some(ReplayEventHash(actual[index])), false));
        assert FirstDifference(expected, actual, index, mismatch.value);
        return;
      }
      var expectedHash := ReplayEventHash(expected[index]);
      if |actual| <= index {
        mismatch := Some(Mismatch(expected[index].seqNo, expected[index].tick, expectedHash, None, true));
        assert FirstDifference(expected, actual, index, mismatch.value);
        return;
      }
      var actualHash := ReplayEventHash(actual[index]);
      if expectedHash != actualHash {
        mismatch := Some(Mismatch(expected[index].seqNo, Max(expected[index].tick, actual[index].tick),
                                  expectedHash, Some(actualHash), false));
        assert FirstDifference(expected, actual, index, mismatch.value);
        return;
      }
      index := index + 1;
    }
    assert expected[..index] == expected && actual[..index] == actual;
    return None;
  }

  /******* The executor *******/

  datatype Status = Running | Completed | Diverged | Failed

  /** How a stretch of work ended: it went on, the process died, or the engine threw. */
  datatype Signal = Continue | Crashed | Threw

  datatype Cause =
    | EventMismatch(mismatch: Mismatch)
    | UnsupportedJournalCommand(command: Event)
    | StateHashMismatch(expectedHash: string, actualHash: string)
    | CacheIncomplete

  const ADMIN_COMMAND := "admin.command.received"
  const COMPLETED_EVENT := "simulation.completed"

  ghost predicate Gapless(log: seq<Event>) {
    forall i | 0 <= i < |log| :: log[i].seqNo == i
  }

  /** `log` repeats the start of `source`, run identity aside. */
  ghost predicate Reproduces(log: seq<Event>, source: seq<Event>) {
    |log| <= |source| && Agree(source[..|log|], log)
  }

  /** The recorded mismatch is real: the two logs do differ at its sequence number. */
  ghost predicate Genuine(mismatch: Mismatch, log: seq<Event>, source: seq<Event>) {
    var at := mismatch.seqNo;
    && at < |log|
    && (at < |source| ==> Projection(source[at]) != Projection(log[at]))
  }

  /** What a replay is asked to do and what it finds at its start; none of it changes. */
  datatype Request = Request(
    source: seq<Event>, sourceTick: nat, sourceHash: string, snapshotHashes: map<nat, string>,
    supports: Event -> bool, cacheComplete: bool, strict: bool, toTick: nat)
  {
    /** The recorded state hash at a tick, where one is known. */
    function HashAt(tick: nat): Option<string> {
      if tick == sourceTick then Some(sourceHash)
      else if tick in snapshotHashes then Some(snapshotHashes[tick])
      else None
    }
  }

  /** The divergence has the reason it names. */
  ghost predicate Real(cause: Cause, log: seq<Event>, request: Request) {
    match cause
    case EventMismatch(mismatch) => Genuine(mismatch, log, request.source)
    case UnsupportedJournalCommand(command) =>
      command in request.source && command.eventType == "admin.command.received" && !request.supports(command)
    case StateHashMismatch(expectedHash, actualHash) => expectedHash != actualHash
    case CacheIncomplete => !request.cacheComplete
  }

  /** The next recorded event happened at this tick and is one that only the journal can repeat. */
  predicate JournalDue(source: seq<Event>, at: nat, tick: nat, terminal: bool) {
    && at < |source| && source[at].tick == tick
    && (source[at].eventType == "admin.command.received" || (terminal && source[at].eventType == "simulation.completed"))
  }

  /** Every tick began where no recorded command of its boundary was left over. */
  ghost predicate BoundariesCleared(tickStarts: seq<nat>, source: seq<Event>) {
    forall tick | 0 <= tick < |tickStarts| :: !JournalDue(source, tickStarts[tick], tick, false)
  }

  /** Comparing the range after what already agrees decides whether the whole log agrees. */
  lemma RangeDecides(log: seq<Event>, source: seq<Event>, fromSeq: nat, expected: seq<Event>, actual: seq<Event>)
    requires fromSeq < |log| && actual == log[fromSeq..]
    requires expected == source[Min(fromSeq, |source|)..Min(|log|, |source|)]
    ensures Reproduces(log[..fromSeq], source) && Agree(expected, actual) ==> Reproduces(log, source)
    ensures Reproduces(log, source) ==> Agree(expected, actual)
  {
    if Reproduces(log[..fromSeq], source) && Agree(expected, actual) {
      forall i | 0 <= i < |log| ensures Projection(source[i]) == Projection(log[i]) {
        if i < fromSeq {
          assert source[..fromSeq][i] == source[i] && log[..fromSeq][i] == log[i];
        } else {
          assert expected[i - fromSeq] == source[i] && actual[i - fromSeq] == log[i];
        }
      }
    }
    if Reproduces(log, source) {
      forall i | 0 <= i < |actual| ensures Projection(expected[i]) == Projection(actual[i]) {
        assert expected[i] == source[..|log|][fromSeq + i] && actual[i] == log[fromSeq + i];
      }
    }
  }

  lemma DifferenceIsGenuine(
    log: seq<Event>, source: seq<Event>, fromSeq: nat, expected: seq<Event>, actual: seq<Event>, index: nat, mismatch: Mismatch
  )
    requires Gapless(log) && Gapless(source) && fromSeq < |log| && actual == log[fromSeq..]
    requires expected == source[Min(fromSeq, |source|)..Min(|log|, |source|)]
    requires FirstDifference(expected, actual, index, mismatch)
    ensures Genuine(mismatch, log, source)
  {
    assert index < |actual| ==> actual[index] == log[fromSeq + index];
    assert index < |expected| ==> expected[index] == source[fromSeq + index];
  }

  class ReplayRun {
    const request: Request
    // The target run's rows: its event log and clock.
    var log: seq<Event>
    var currentTick: nat
    // The replay row and its divergence table.
    var status: Status
    var lastComparedSeq: int
    var divergences: seq<Cause>
    var sourceStateHash: Option<string>
    var replayStateHash: Option<string>
    // Whether a tick ever ran after a divergence was on record, and where in the log each committed tick began.
    ghost var tickedAfterDivergence: bool
    ghost var tickStarts: seq<nat>

    /** What holds of the durable rows after every single write. */
    ghost predicate Valid()
      reads this
    {
      && Gapless(request.source) && Gapless(log) && log != []
      && -1 <= lastComparedSeq < |log|
      && (status != Failed && divergences == [] ==> Reproduces(log[..lastComparedSeq + 1], request.source))
      && (forall cause | cause in divergences :: Real(cause, log, request))
      && (!request.cacheComplete ==> CacheIncomplete in divergences)
      && (request.strict ==> !tickedAfterDivergence)
      && currentTick == |tickStarts| <= request.toTick
      && BoundariesCleared(tickStarts, request.source)
      && (status == Completed ==> Finished())
      && (status == Diverged ==> divergences != [] && WentOn())
    }

    /** Exactly the requested ticks were run, and everything there is was compared. */
    ghost predicate Finished()
      reads this
    {
      && divergences == [] && lastComparedSeq == |log| - 1
      && currentTick == request.toTick
      && (request.toTick == request.sourceTick ==> !JournalDue(request.source, |log|, currentTick, true))
      && replayStateHash.Some? && sourceStateHash == request.HashAt(currentTick)
      && (sourceStateHash.Some? ==> sourceStateHash == replayStateHash)
    }

    /** A replay that is not strict stops short only at a command it cannot repeat. */
    ghost predicate WentOn()
      reads this
    {
      !request.strict && currentTick < request.toTick ==>
        exists cause :: cause in divergences && cause.UnsupportedJournalCommand?
    }

    /**
     * Creation compares the genesis events inside one transaction, so the row it leaves
     * already accounts for everything the target log holds.
     */
    constructor (request: Request, genesis: seq<Event>)
      requires Gapless(request.source) && Gapless(genesis) && genesis != []
      ensures Valid() && status == Running && lastComparedSeq == |log| - 1 && log == genesis && currentTick == 0
      ensures this.request == request
      ensures divergences == [] <==> Reproduces(genesis, request.source) && request.cacheComplete
    {
      this.request := request;
      log, currentTick := genesis, 0;
      status, lastComparedSeq, divergences := Running, -1, [];
      sourceStateHash, replayStateHash := None, None;
      tickedAfterDivergence, tickStarts := false, [];
      new;
      var expected := request.source[..Min(|genesis|, |request.source|)];
      var mismatch := FirstReplayEventMismatch(expected, genesis);
      if mismatch.Some? {
        ghost var index: nat :| FirstDifference(expected, genesis, index, mismatch.value);
        divergences := divergences + [EventMismatch(mismatch.value)];
      }
      if !request.cacheComplete {
        divergences := divergences + [CacheIncomplete];
      }
      lastComparedSeq := |log| - 1;
      assert log[..lastComparedSeq + 1] == log;
    }

    /** One committed batch of arbitrary events; the store rejects a batch that leaves a gap. */
    method Append(atLeast: nat) returns (signal: Signal)
      requires Valid() && status == Running
      modifies this`log
      ensures Valid() && old(log) <= log
      ensures signal == Continue ==> |old(log)| + atLeast <= |log|
    {
      var events: seq<Event> := *;
      if |events| < atLeast || exists i | 0 <= i < |events| :: events[i].seqNo != |log| + i {
        return Threw;
      }
      ghost var before := log;
      log := log + events;
      assert log[..lastComparedSeq + 1] == before[..lastComparedSeq + 1];
      var crash: bool := *;
      signal := if crash then Crashed else Continue;
    }

    /** One simulated tick: evidence commits of its own, then the tick's commit, which also advances the clock. */
    method ExecuteTick() returns (signal: Signal)
      requires Valid() && status == Running && currentTick < request.toTick
      requires request.strict ==> divergences == []
      requires !JournalDue(request.source, |log|, currentTick, false)
      modifies this`log, this`currentTick, this`tickedAfterDivergence, this`tickStarts
      ensures Valid() && old(log) <= log && old(tickStarts) <= tickStarts
      ensures currentTick == old(currentTick) || currentTick == old(currentTick) + 1
      ensures signal == Continue ==> currentTick == old(currentTick) + 1
    {
      tickedAfterDivergence := tickedAfterDivergence || divergences != [];
      ghost var start := |log|;
      var evidenceCommits: int := *;
      var k := 0;
      while k < evidenceCommits
        invariant Valid() && old(log) <= log && status == Running
        invariant currentTick == old(currentTick) && tickStarts == old(tickStarts)
      {
        signal := Append(0);
        if signal != Continue {
          return;
        }
        k := k + 1;
      }
      signal := CommitTick(start);
    }

    /** The commit of a tick that began at `start`: its events and the clock together, or nothing. */
    method CommitTick(ghost start: nat) returns (signal: Signal)
      requires Valid() && status == Running && currentTick < request.toTick
      requires !JournalDue(request.source, start, currentTick, false)
      modifies this`log, this`currentTick, this`tickStarts
      ensures Valid() && old(log) <= log && old(tickStarts) <= tickStarts
      ensures currentTick == old(currentTick) || currentTick == old(currentTick) + 1
      ensures signal == Continue ==> currentTick == old(currentTick) + 1
    {
      var events: seq<Event> := *;
      if exists i | 0 <= i < |events| :: events[i].seqNo != |log| + i {
        return Threw;
      }
      ghost var before := log;
      log, currentTick, tickStarts := log + events, currentTick + 1, tickStarts + [start];
      assert log[..lastComparedSeq + 1] == before[..lastComparedSeq + 1];
      var crash: bool := *;
      signal := if crash then Crashed else Continue;
    }

    method RecordDivergence(cause: Cause) returns (signal: Signal)
      requires Valid() && status == Running && Real(cause, log, request)
      modifies this`divergences
      ensures Valid() && divergences == old(divergences) + [cause]
      ensures signal != Threw
    {
      divergences := divergences + [cause];
      var crash: bool := *;
      signal := if crash then Crashed else Continue;
    }

    /** Compares what was appended since the checkpoint; divergence-free afterwards means all of it agreed. */
    method CompareReplayRange(fromSeq: nat, toSeqExclusive: nat) returns (signal: Signal)
      requires Valid() && status == Running
      requires fromSeq == lastComparedSeq + 1 && toSeqExclusive == |log|
      modifies this`divergences
      ensures Valid() && signal != Threw && old(divergences) <= divergences
      ensures signal == Continue && divergences == [] ==> Reproduces(log, request.source)
      ensures Reproduces(log, request.source) ==> divergences == old(divergences)
    {
      var source := request.source;
      if toSeqExclusive <= fromSeq {
        assert log[..lastComparedSeq + 1] == log;
        return Continue;
      }
      var expected := source[Min(fromSeq, |source|)..Min(toSeqExclusive, |source|)];
      var actual := log[fromSeq..toSeqExclusive];
      var mismatch := FirstReplayEventMismatch(expected, actual);
      RangeDecides(log, source, fromSeq, expected, actual);
      if mismatch.None? {
        return Continue;
      }
      ghost var index: nat :| FirstDifference(expected, actual, index, mismatch.value);
      DifferenceIsGenuine(log, source, fromSeq, expected, actual, index, mismatch.value);
      signal := RecordDivergence(EventMismatch(mismatch.value));
    }

    /** Moves the checkpoint to the end of the log, once everything up to there was compared. */
    method UpdateProgress() returns (signal: Signal)
      requires Valid() && status == Running && log != []
      requires divergences == [] ==> Reproduces(log, request.source)
      modifies this`lastComparedSeq
      ensures Valid() && lastComparedSeq == |log| - 1 && signal != Threw
    {
      lastComparedSeq := |log| - 1;
      assert log[..lastComparedSeq + 1] == log;
      var crash: bool := *;
      signal := if crash then Crashed else Continue;
    }

    method CompareAndCheckpoint(fromSeq: nat) returns (signal: Signal)
      requires Valid() && status == Running
      requires fromSeq == lastComparedSeq + 1 && log != []
      modifies this`divergences, this`lastComparedSeq
      ensures Valid() && signal != Threw && old(divergences) <= divergences
      ensures signal == Continue ==> lastComparedSeq == |log| - 1
      ensures Reproduces(log, request.source) ==> divergences == old(divergences)
    {
      signal := CompareReplayRange(fromSeq, |log|);
      if signal == Continue {
        signal := UpdateProgress();
      }
    }

    /**
     * Re-applies the journal commands recorded at the current tick. `complete` is false when
     * a command is unsupported, or when a strict replay has diverged; otherwise none is left.
     */
    method ApplyReplayBoundary(allowTerminalFact: bool) returns (signal: Signal, complete: bool)
      requires Valid() && status == Running && lastComparedSeq == |log| - 1
      modifies this`log, this`divergences, this`lastComparedSeq
      ensures Valid() && old(divergences) <= divergences && old(log) <= log
      ensures signal == Continue ==> lastComparedSeq == |log| - 1
      ensures signal == Continue && complete ==> !JournalDue(request.source, |log|, currentTick, allowTerminalFact)
      ensures signal == Continue && complete && request.strict && old(divergences) == [] ==> divergences == []
      ensures signal == Continue && !complete ==>
                divergences != [] && (!request.strict ==> exists cause :: cause in divergences && cause.UnsupportedJournalCommand?)
      decreases |request.source| - |log|
    {
      complete := true;
      while |log| < |request.source| && request.source[|log|].tick == currentTick
        invariant Valid() && status == Running && lastComparedSeq == |log| - 1
        invariant old(divergences) <= divergences && old(log) <= log
        invariant request.strict && old(divergences) == [] ==> divergences == []
        decreases |request.source| - |log|
      {
        var expected := request.source[|log|];
        var fromSeq := |log|;
        if expected.eventType == ADMIN_COMMAND {
          if !request.supports(expected) {
            signal := RecordDivergence(UnsupportedJournalCommand(expected));
            assert divergences[|divergences| - 1].UnsupportedJournalCommand?;
            return signal, false;
          }
          signal := Append(1);
        } else if allowTerminalFact && expected.eventType == COMPLETED_EVENT {
          signal := Append(1);
        } else {
          return Continue, true;
        }
        if signal != Continue {
          return;
        }
        signal := CompareAndCheckpoint(fromSeq);
        if signal != Continue {
          return;
        }
        if request.strict && divergences != [] {
          return Continue, false;
        }
      }
      signal := Continue;
    }

    /** Compares final states where both are known and closes the replay row. */
    method FinishReplay(compareTargetState: bool) returns (signal: Signal)
      requires Valid() && status == Running && lastComparedSeq == |log| - 1
      requires compareTargetState && divergences == [] ==>
                 && currentTick == request.toTick
                 && (request.toTick == request.sourceTick ==> !JournalDue(request.source, |log|, currentTick, true))
      requires !compareTargetState ==> divergences != []
      requires WentOn()
      modifies this`divergences, this`status, this`sourceStateHash, this`replayStateHash
      ensures Valid() && signal != Threw
      ensures signal == Continue ==> status == if divergences == [] then Completed else Diverged
      ensures signal == Crashed ==> status == Running
    {
      var replayHash: string := *;
      var sourceHash := if compareTargetState then request.HashAt(currentTick) else None;
      if sourceHash.Some? && sourceHash.value != replayHash {
        signal := RecordDivergence(StateHashMismatch(sourceHash.value, replayHash));
        if signal != Continue {
          return;
        }
      }
      sourceStateHash, replayStateHash := sourceHash, Some(replayHash);
      status := if divergences == [] then Completed else Diverged;
      return Continue;
    }

    /** One round of the replay loop: the boundary's commands, one tick, and the comparison of both. */
    method ReplayTick() returns (signal: Signal)
      requires Valid() && status == Running && lastComparedSeq == |log| - 1
      requires currentTick < request.toTick && (request.strict ==> divergences == [])
      modifies this
      ensures Valid() && old(log) <= log && old(tickStarts) <= tickStarts
      ensures signal == Continue && status == Running ==>
                && lastComparedSeq == |log| - 1 && currentTick == old(currentTick) + 1
                && (request.strict ==> divergences == [])
      ensures signal == Continue ==> status == Running || status == Diverged
      ensures signal != Continue ==> status == Running
    {
      var complete;
      signal, complete := ApplyReplayBoundary(false);
      if signal != Continue {
        return;
      }
      if !complete || (request.strict && divergences != []) {
        signal := FinishReplay(false);
        return;
      }
      var fromSeq := |log|;
      signal := ExecuteTick();
      if signal != Continue {
        return;
      }
      signal := CompareAndCheckpoint(fromSeq);
      if signal != Continue {
        return;
      }
      if request.strict && divergences != [] {
        signal := FinishReplay(false);
      }
    }

    /** One attempt at the replay, from whatever the durable rows say. */
    method ExecuteReplay() returns (signal: Signal)
      requires Valid() && status == Running
      modifies this
      ensures Valid() && old(log) <= log && old(tickStarts) <= tickStarts
      ensures signal == Continue ==> status == Completed || status == Diverged
      ensures signal != Continue ==> status == Running
      ensures status == Completed ==> currentTick == request.toTick == |tickStarts|
    {
      if lastComparedSeq < |log| - 1 {
        signal := CompareAndCheckpoint(lastComparedSeq + 1);
        if signal != Continue {
          return;
        }
      }
      if request.strict && divergences != [] {
        signal := FinishReplay(false);
        return;
      }
      while currentTick < request.toTick
        invariant Valid() && status == Running && lastComparedSeq == |log| - 1
        invariant request.strict ==> divergences == []
        invariant old(log) <= log && old(tickStarts) <= tickStarts
      {
        signal := ReplayTick();
        if signal != Continue || status != Running {
          return;
        }
      }
      if request.toTick == request.sourceTick {
        var terminal;
        signal, terminal := ApplyReplayBoundary(true);
        if signal != Continue {
          return;
        }
      }
      signal := FinishReplay(true);
    }

    /** An error closes the row as failed; its checkpoint then vouches for nothing. */
    method Fail()
      requires Valid() && status == Running
      modifies this`status, this`lastComparedSeq
      ensures Valid() && status == Failed
    {
      status := Failed;
      lastComparedSeq := Max(lastComparedSeq, |log| - 1);
    }

    /**
     * Any number of attempts, each after a crash at any durable write. A replay that ends
     * `completed` has run and compared exactly the requested ticks, with every recorded command
     * repeated before them, and has reproduced a prefix of the recorded log and its known state;
     * a strict one never ticked past a recorded divergence; every recorded divergence is real.
     */
    method RunWithRecovery(attempts: nat)
      requires Valid() && status == Running
      modifies this
      ensures Valid()
      ensures status == Completed ==>
                && Reproduces(log, request.source) && lastComparedSeq == |log| - 1
                && currentTick == request.toTick == |tickStarts|
                && (request.toTick == request.sourceTick ==> replayStateHash == Some(request.sourceHash))
                && (request.toTick != request.sourceTick && request.toTick in request.snapshotHashes ==>
                      replayStateHash == Some(request.snapshotHashes[request.toTick]))
      ensures request.strict ==> !tickedAfterDivergence
      ensures BoundariesCleared(tickStarts, request.source)
      ensures forall cause | cause in divergences :: Real(cause, log, request)
    {
      var k := 0;
      while k < attempts && status == Running
        invariant Valid()
      {
        var signal := ExecuteReplay();
        if signal == Threw {
          Fail();
        }
        k := k + 1;
      }
      assert log[..|log|] == log;
    }
  }
}
