/**
 * The synchronous event bus: events published while another is dispatched wait in a queue,
 * the sink sees every event before its handlers do, and a failure leaves nothing behind.
 */
module Bus {
  import opened Shared

  /**
   * One occurrence of an event, together with what happens when the sink and each of its
   * handlers are called with it. Handlers may do anything that ends, so the occurrences one
   * publication leads to form a finite tree.
   */
  datatype Node = Node(id: int, eventType: string, sinkThrows: bool, reactions: seq<Reaction>)

  /** A handler publishes some events in order and then returns or throws. */
  datatype Reaction = Reaction(published: seq<Node>, throws: bool)

  type Handler = string

  datatype Action = Sunk(node: Node) | Handled(handler: Handler, node: Node)

  /** The subscriptions, fixed during dispatch. */
  datatype Subscriptions = Subscriptions(byType: map<string, seq<Handler>>, wildcard: seq<Handler>, hasSink: bool) {
    function For(eventType: string): seq<Handler> {
      (if eventType in byType then byType[eventType] else []) + wildcard
    }
  }

  /******* Finite trees of occurrences *******/

  function Size(n: Node): nat {
    1 + SizeOfReactions(n.reactions)
  }

  function SizeOfReactions(rs: seq<Reaction>): nat {
    if rs == [] then 0 else SizeOfAll(rs[0].published) + SizeOfReactions(rs[1..])
  }

  function SizeOfAll(ns: seq<Node>): nat {
    if ns == [] then 0 else Size(ns[0]) + SizeOfAll(ns[1..])
  }

  /** What the handlers publish, if all of them run: handler by handler, in order. */
  function Published(rs: seq<Reaction>): seq<Node> {
    if rs == [] then [] else rs[0].published + Published(rs[1..])
  }

  /** Every occurrence says what each of its handlers does. */
  ghost predicate Fits(subs: Subscriptions, n: Node) {
    |n.reactions| == |subs.For(n.eventType)|
    && forall i | 0 <= i < |n.reactions| :: forall j | 0 <= j < |n.reactions[i].published| :: Fits(subs, n.reactions[i].published[j])
  }

  ghost predicate AllFit(subs: Subscriptions, ns: seq<Node>) {
    forall i | 0 <= i < |ns| :: Fits(subs, ns[i])
  }

  lemma {:induction false} SizeConcat(xs: seq<Node>, ys: seq<Node>)
    ensures SizeOfAll(xs + ys) == SizeOfAll(xs) + SizeOfAll(ys)
  {
    if xs == [] {
      assert xs + ys == ys;
    } else {
      assert (xs + ys)[1..] == xs[1..] + ys;
      SizeConcat(xs[1..], ys);
    }
  }

  lemma {:induction false} SizeOfPublished(rs: seq<Reaction>)
    ensures SizeOfAll(Published(rs)) == SizeOfReactions(rs)
  {
    if rs != [] {
      SizeOfPublished(rs[1..]);
      SizeConcat(rs[0].published, Published(rs[1..]));
    }
  }

  /** Dispatching one occurrence leaves fewer to come. */
  lemma QueueShrinks(queue: seq<Node>)
    requires queue != []
    ensures SizeOfAll(queue[1..] + Published(queue[0].reactions)) == SizeOfAll(queue) - 1
  {
    SizeConcat(queue[1..], Published(queue[0].reactions));
    SizeOfPublished(queue[0].reactions);
    assert Size(queue[0]) == 1 + SizeOfReactions(queue[0].reactions);
    assert SizeOfAll(queue) == Size(queue[0]) + SizeOfAll(queue[1..]);
  }

  lemma {:induction false} PublishedFit(subs: Subscriptions, rs: seq<Reaction>)
    requires forall i | 0 <= i < |rs| :: AllFit(subs, rs[i].published)
    ensures AllFit(subs, Published(rs))
  {
    if rs != [] {
      PublishedFit(subs, rs[1..]);
    }
  }

  lemma ChildrenFit(subs: Subscriptions, n: Node)
    requires Fits(subs, n)
    ensures AllFit(subs, Published(n.reactions))
  {
    PublishedFit(subs, n.reactions);
  }

  /******* Orders of dispatch *******/

  /** First in, first out: an occurrence's publications go behind everything already waiting. */
  function Fifo(queue: seq<Node>): seq<Node>
    decreases SizeOfAll(queue)
  {
    if queue == [] then []
    else
      QueueShrinks(queue);
      [queue[0]] + Fifo(queue[1..] + Published(queue[0].reactions))
  }

  function NextLevel(ns: seq<Node>): seq<Node> {
    if ns == [] then [] else Published(ns[0].reactions) + NextLevel(ns[1..])
  }

  lemma {:induction false} NextLevelIsSmaller(ns: seq<Node>)
    ensures SizeOfAll(NextLevel(ns)) + |ns| == SizeOfAll(ns)
  {
    if ns != [] {
      NextLevelIsSmaller(ns[1..]);
      SizeOfPublished(ns[0].reactions);
      SizeConcat(Published(ns[0].reactions), NextLevel(ns[1..]));
    }
  }

  /** Breadth first: a whole level, then everything that level published. */
  function Levels(ns: seq<Node>): seq<Node>
    decreases SizeOfAll(ns)
  {
    if ns == [] then []
    else
      NextLevelIsSmaller(ns);
      ns + Levels(NextLevel(ns))
  }

  lemma FifoStep(queue: seq<Node>, rest: seq<Node>)
    requires queue != [] && rest == queue[1..] + Published(queue[0].reactions)
    ensures Fifo(queue) == [queue[0]] + Fifo(rest)
  {
  }

  lemma Reassociate<T>(first: T, a: seq<T>, b: seq<T>, c: seq<T>)
    ensures ([first] + a + b)[1..] + c == a + (b + c)
    ensures [first] + (a + b) == ([first] + a) + b
    ensures (a + b) + c == a + (b + c)
  {
  }

  lemma {:induction false} FifoTakesALevel(level: seq<Node>, waiting: seq<Node>)
    ensures Fifo(level + waiting) == level + Fifo(waiting + NextLevel(level))
    decreases |level|
  {
    if level == [] {
      assert level + waiting == waiting && waiting + NextLevel(level) == waiting;
    } else {
      var first, tail := level[0], level[1..];
      var more := Published(first.reactions);
      assert level == [first] + tail;
      Reassociate(first, tail, waiting, more);
      FifoStep(level + waiting, tail + (waiting + more));
      FifoTakesALevel(tail, waiting + more);
      Reassociate(first, waiting, more, NextLevel(tail));
      Reassociate(first, tail, Fifo(waiting + NextLevel(level)), []);
    }
  }

  /** A queue dispatches breadth first. */
  lemma {:induction false} FifoIsBreadthFirst(ns: seq<Node>)
    ensures Fifo(ns) == Levels(ns)
    decreases SizeOfAll(ns)
  {
    if ns != [] {
      NextLevelIsSmaller(ns);
      FifoTakesALevel(ns, []);
      assert ns + [] == ns && [] + NextLevel(ns) == NextLevel(ns);
      FifoIsBreadthFirst(NextLevel(ns));
    }
  }

  /******* Dispatching one occurrence *******/

  datatype Outcome = Outcome(trace: seq<Action>, queued: seq<Node>, threw: bool)

  /** Calls handlers `i` onwards. */
  function CallHandlers(handlers: seq<Handler>, n: Node, i: nat): Outcome
    requires i <= |handlers| == |n.reactions|
    decreases |handlers| - i
  {
    if i == |handlers| then Outcome([], [], false)
    else
      var call := [Handled(handlers[i], n)];
      if n.reactions[i].throws then Outcome(call, n.reactions[i].published, true)
      else
        var rest := CallHandlers(handlers, n, i + 1);
        Outcome(call + rest.trace, n.reactions[i].published + rest.queued, rest.threw)
  }

  /** The whole outcome is what has happened so far followed by the rest. */
  ghost predicate Continues(whole: Outcome, calls: seq<Action>, queued: seq<Node>, rest: Outcome) {
    whole.trace == calls + rest.trace && whole.queued == queued + rest.queued && whole.threw == rest.threw
  }

  function Dispatch(subs: Subscriptions, n: Node): Outcome
    requires Fits(subs, n)
  {
    var sunk := if subs.hasSink then [Sunk(n)] else [];
    if subs.hasSink && n.sinkThrows then Outcome(sunk, [], true)
    else
      var called := CallHandlers(subs.For(n.eventType), n, 0);
      called.(trace := sunk + called.trace)
  }

  /** The trace of an occurrence nobody fails on: the sink, then every handler once, in order. */
  function FullTrace(subs: Subscriptions, n: Node): seq<Action> {
    var handlers := subs.For(n.eventType);
    (if subs.hasSink then [Sunk(n)] else []) + seq(|handlers|, i requires 0 <= i < |handlers| => Handled(handlers[i], n))
  }

  function Calls(handlers: seq<Handler>, n: Node): seq<Action> {
    seq(|handlers|, i requires 0 <= i < |handlers| => Handled(handlers[i], n))
  }

  lemma CallsConcat(xs: seq<Handler>, ys: seq<Handler>, n: Node)
    ensures Calls(xs + ys, n) == Calls(xs, n) + Calls(ys, n)
  {
  }

  /** The sink comes first, then the handlers of the event's own type, then those of every type. */
  lemma TypedHandlersComeFirst(subs: Subscriptions, n: Node)
    ensures var typed := if n.eventType in subs.byType then subs.byType[n.eventType] else [];
            var sunk := if subs.hasSink then [Sunk(n)] else [];
            FullTrace(subs, n) == sunk + (Calls(typed, n) + Calls(subs.wildcard, n))
  {
    CallsConcat(if n.eventType in subs.byType then subs.byType[n.eventType] else [], subs.wildcard, n);
    assert Calls(subs.For(n.eventType), n) ==
           seq(|subs.For(n.eventType)|, i requires 0 <= i < |subs.For(n.eventType)| => Handled(subs.For(n.eventType)[i], n));
  }

  lemma {:induction false} CallsAreInOrder(handlers: seq<Handler>, n: Node, i: nat)
    requires i <= |handlers| == |n.reactions|
    ensures var called := CallHandlers(handlers, n, i);
            && |called.trace| <= |handlers| - i
            && (forall k | 0 <= k < |called.trace| :: called.trace[k] == Handled(handlers[i + k], n))
            && (!called.threw ==> |called.trace| == |handlers| - i && called.queued == Published(n.reactions[i..]))
    decreases |handlers| - i
  {
    if i < |handlers| {
      CallsAreInOrder(handlers, n, i + 1);
      assert n.reactions[i..][1..] == n.reactions[i + 1..];
    }
  }

  /** A dispatch is complete, or it broke off after part of the full trace. */
  lemma DispatchFollowsTheOrder(subs: Subscriptions, n: Node)
    requires Fits(subs, n)
    ensures var d := Dispatch(subs, n);
            && d.trace <= FullTrace(subs, n)
            && (!d.threw ==> d.trace == FullTrace(subs, n) && d.queued == Published(n.reactions))
  {
    CallsAreInOrder(subs.For(n.eventType), n, 0);
    assert n.reactions[0..] == n.reactions;
  }

  /** Whether call number `m` of the full trace throws. */
  predicate CallThrows(subs: Subscriptions, n: Node, m: nat)
    requires |n.reactions| == |subs.For(n.eventType)| && m < |FullTrace(subs, n)|
  {
    if !subs.hasSink then n.reactions[m].throws
    else if m == 0 then n.sinkThrows
    else n.reactions[m - 1].throws
  }

  /** The sink or some handler throws on this occurrence. */
  ghost predicate Breaks(subs: Subscriptions, n: Node)
    requires |n.reactions| == |subs.For(n.eventType)|
  {
    exists m: nat | m < |FullTrace(subs, n)| :: CallThrows(subs, n, m)
  }

  /** The calls of the occurrence up to the first that throws, and not one more. */
  ghost predicate StopsAtThrow(calls: seq<Action>, subs: Subscriptions, n: Node)
    requires |n.reactions| == |subs.For(n.eventType)|
  {
    && 0 < |calls| <= |FullTrace(subs, n)| && calls == FullTrace(subs, n)[..|calls|]
    && CallThrows(subs, n, |calls| - 1)
    && forall m: nat | m < |calls| - 1 :: !CallThrows(subs, n, m)
  }

  lemma {:induction false} CallsStopAtThrow(handlers: seq<Handler>, n: Node, i: nat)
    requires i <= |handlers| == |n.reactions|
    ensures var called := CallHandlers(handlers, n, i);
            && (called.threw <==> exists k | i <= k < |handlers| :: n.reactions[k].throws)
            && (called.threw ==> 0 < |called.trace| <= |handlers| - i && n.reactions[i + |called.trace| - 1].throws)
            && (called.threw ==> forall k | i <= k < i + |called.trace| - 1 :: !n.reactions[k].throws)
    decreases |handlers| - i
  {
    if i < |handlers| {
      CallsStopAtThrow(handlers, n, i + 1);
    }
  }

  /** A dispatch breaks off exactly when something throws, right after that call. */
  lemma DispatchStopsAtThrow(subs: Subscriptions, n: Node)
    requires Fits(subs, n)
    ensures Dispatch(subs, n).threw <==> Breaks(subs, n)
    ensures Dispatch(subs, n).threw ==> StopsAtThrow(Dispatch(subs, n).trace, subs, n)
  {
    var handlers, d := subs.For(n.eventType), Dispatch(subs, n);
    CallsStopAtThrow(handlers, n, 0);
    DispatchFollowsTheOrder(subs, n);
    if subs.hasSink && n.sinkThrows {
      assert CallThrows(subs, n, 0);
    } else {
      var offset := if subs.hasSink then 1 else 0;
      if k :| 0 <= k < |handlers| && n.reactions[k].throws {
        assert CallThrows(subs, n, k + offset);
      }
      if d.threw {
        assert CallThrows(subs, n, |d.trace| - 1);
      }
    }
  }

  /******* Draining the queue *******/

  /** The trace of draining the queue, and whether it ended with an exception. */
  function Drain(subs: Subscriptions, queue: seq<Node>): (seq<Action>, bool)
    requires AllFit(subs, queue)
    decreases SizeOfAll(queue)
  {
    if queue == [] then ([], false)
    else
      var d := Dispatch(subs, queue[0]);
      if d.threw then (d.trace, true)
      else
        DispatchFollowsTheOrder(subs, queue[0]);
        ChildrenFit(subs, queue[0]);
        QueueShrinks(queue);
        var (trace, threw) := Drain(subs, queue[1..] + d.queued);
        (d.trace + trace, threw)
  }

  lemma DrainStep(subs: Subscriptions, queue: seq<Node>)
    requires AllFit(subs, queue) && queue != []
    ensures var d := Dispatch(subs, queue[0]);
            if d.threw then Drain(subs, queue) == (d.trace, true)
            else
              && d.queued == Published(queue[0].reactions)
              && AllFit(subs, queue[1..] + d.queued)
              && Drain(subs, queue).0 == d.trace + Drain(subs, queue[1..] + d.queued).0
              && Drain(subs, queue).1 == Drain(subs, queue[1..] + d.queued).1
  {
    DispatchFollowsTheOrder(subs, queue[0]);
    ChildrenFit(subs, queue[0]);
  }

  /** One more dispatch on the way from the start of a drain to its end. */
  lemma DrainGoesOn(subs: Subscriptions, whole: (seq<Action>, bool), calls: seq<Action>, queue: seq<Node>)
    requires AllFit(subs, queue) && queue != []
    requires whole == (calls + Drain(subs, queue).0, Drain(subs, queue).1)
    ensures var d := Dispatch(subs, queue[0]);
            var rest := queue[1..] + d.queued;
            if d.threw then whole == (calls + d.trace, true)
            else
              && AllFit(subs, rest) && SizeOfAll(rest) < SizeOfAll(queue)
              && whole == (calls + d.trace + Drain(subs, rest).0, Drain(subs, rest).1)
  {
    DrainStep(subs, queue);
    QueueShrinks(queue);
    var d := Dispatch(subs, queue[0]);
    if !d.threw {
      ConcatAssociates(calls, d.trace, Drain(subs, queue[1..] + d.queued).0);
    }
  }

  class EventBus {
    var subs: Subscriptions
    var queue: seq<Node>
    var draining: bool
    // Every call made to the sink and to handlers, in order.
    var trace: seq<Action>

    /** Between publications the bus is at rest. */
    predicate AtRest()
      reads this
    {
      queue == [] && !draining
    }

    constructor ()
      ensures AtRest() && trace == [] && subs == Subscriptions(map[], [], false)
    {
      subs := Subscriptions(map[], [], false);
      queue, draining, trace := [], false, [];
    }

    /** The sink may be set once. */
    method SetSink() returns (failed: bool)
      modifies this`subs
      ensures failed == old(subs).hasSink && subs == old(subs).(hasSink := true)
    {
      failed := subs.hasSink;
      subs := subs.(hasSink := true);
    }

    method Subscribe(eventType: string, handler: Handler)
      modifies this`subs
      ensures eventType == "*" ==> subs == old(subs).(wildcard := old(subs).wildcard + [handler])
      ensures eventType != "*" ==>
                subs.For(eventType) == (if eventType in old(subs).byType then old(subs).byType[eventType] else [])
                                       + [handler] + old(subs).wildcard
      ensures forall other | other != eventType && eventType != "*" :: subs.For(other) == old(subs).For(other)
    {
      if eventType == "*" {
        subs := subs.(wildcard := subs.wildcard + [handler]);
      } else {
        var list := if eventType in subs.byType then subs.byType[eventType] else [];
        subs := subs.(byType := subs.byType[eventType := list + [handler]]);
      }
    }

    /** From inside a handler: the event only joins the queue. */
    method PublishNested(n: Node)
      requires draining
      modifies this`queue
      ensures queue == old(queue) + [n]
    {
      queue := queue + [n];
    }

    /** Runs one handler, which publishes its events one by one. */
    method CallHandler(handler: Handler, n: Node, reaction: Reaction)
      requires draining
      modifies this`queue, this`trace
      ensures trace == old(trace) + [Handled(handler, n)]
      ensures queue == old(queue) + reaction.published
    {
      trace := trace + [Handled(handler, n)];
      for k := 0 to |reaction.published|
        invariant queue == old(queue) + reaction.published[..k]
        invariant trace == old(trace) + [Handled(handler, n)]
      {
        PublishNested(reaction.published[k]);
      }
    }

    method DispatchOne(n: Node) returns (threw: bool)
      requires Fits(subs, n) && draining
      modifies this`queue, this`trace
      ensures var d := Dispatch(subs, n);
              threw == d.threw && trace == old(trace) + d.trace && queue == old(queue) + d.queued
    {
      if subs.hasSink {
        trace := trace + [Sunk(n)];
        if n.sinkThrows {
          return true;
        }
      }
      threw := CallAll(subs.For(n.eventType), n);
    }

    method CallAll(handlers: seq<Handler>, n: Node) returns (threw: bool)
      requires draining && |handlers| == |n.reactions|
      modifies this`queue, this`trace
      ensures var called := CallHandlers(handlers, n, 0);
              threw == called.threw && trace == old(trace) + called.trace && queue == old(queue) + called.queued
    {
      ghost var calls, queued := [], [];
      for i := 0 to |handlers|
        invariant trace == old(trace) + calls && queue == old(queue) + queued
        invariant Continues(CallHandlers(handlers, n, 0), calls, queued, CallHandlers(handlers, n, i))
      {
        CallHandler(handlers[i], n, n.reactions[i]);
        calls := calls + [Handled(handlers[i], n)];
        queued := queued + n.reactions[i].published;
        if n.reactions[i].throws {
          return true;
        }
      }
      return false;
    }

    /** Publishes one event from outside and dispatches everything it leads to. */
    method Publish(n: Node) returns (threw: bool)
      requires AtRest() && Fits(subs, n)
      modifies this`queue, this`draining, this`trace
      ensures AtRest()
      ensures var (calls, failed) := Drain(subs, [n]);
              threw == failed && trace == old(trace) + calls
    {
      queue := queue + [n];
      draining := true;
      assert queue == [n];
      threw := DrainQueue();
      draining := false;
    }

    /** Dispatches until nothing waits; a failure drops whatever still does. */
    method DrainQueue() returns (threw: bool)
      requires draining && AllFit(subs, queue)
      modifies this`queue, this`trace
      ensures queue == []
      ensures trace == old(trace) + Drain(subs, old(queue)).0
      ensures threw == Drain(subs, old(queue)).1
    {
      ghost var whole, calls := Drain(subs, queue), [];
      assert [] + whole.0 == whole.0;
      while queue != []
        invariant AllFit(subs, queue)
        invariant trace == old(trace) + calls
        invariant whole == (calls + Drain(subs, queue).0, Drain(subs, queue).1)
        decreases SizeOfAll(queue)
      {
        var next := queue[0];
        DrainGoesOn(subs, whole, calls, queue);
        ConcatAssociates(old(trace), calls, Dispatch(subs, next).trace);
        calls := calls + Dispatch(subs, next).trace;
        queue := queue[1..];
        threw := DispatchOne(next);
        if threw {
          queue := [];
          return;
        }
      }
      threw := false;
    }
  }

  /******* What a publication amounts to *******/

  function Flatten(subs: Subscriptions, ns: seq<Node>): seq<Action> {
    if ns == [] then [] else FullTrace(subs, ns[0]) + Flatten(subs, ns[1..])
  }

  function SinkLog(trace: seq<Action>): seq<Node> {
    if trace == [] then []
    else if trace[0].Sunk? then [trace[0].node] + SinkLog(trace[1..])
    else SinkLog(trace[1..])
  }

  /**
   * Without failures, the calls are the full traces of all occurrences, one occurrence after
   * the other, breadth first: sink before handlers, and all handlers before the next occurrence.
   * With a failure, they are a part of that from the start.
   */
  lemma {:induction false} DrainIsBreadthFirst(subs: Subscriptions, queue: seq<Node>)
    requires AllFit(subs, queue)
    ensures Drain(subs, queue).0 <= Flatten(subs, Fifo(queue))
    ensures !Drain(subs, queue).1 ==> Drain(subs, queue).0 == Flatten(subs, Fifo(queue))
    decreases SizeOfAll(queue)
  {
    if queue != [] {
      var d := Dispatch(subs, queue[0]);
      DispatchFollowsTheOrder(subs, queue[0]);
      var later := queue[1..] + Published(queue[0].reactions);
      assert Fifo(queue)[1..] == Fifo(later);
      if !d.threw {
        ChildrenFit(subs, queue[0]);
        QueueShrinks(queue);
        DrainIsBreadthFirst(subs, later);
      }
    }
  }

  /** The first occurrence that breaks, and the calls made until then. */
  ghost predicate BrokenOff(calls: seq<Action>, subs: Subscriptions, order: seq<Node>, i: nat)
    requires i < |order| && AllFit(subs, order)
  {
    && Breaks(subs, order[i]) && (forall k | 0 <= k < i :: !Breaks(subs, order[k]))
    && Flatten(subs, order[..i]) <= calls
    && StopsAtThrow(calls[|Flatten(subs, order[..i])|..], subs, order[i])
  }

  ghost predicate SomeBreaks(subs: Subscriptions, order: seq<Node>)
    requires AllFit(subs, order)
  {
    exists k | 0 <= k < |order| :: Breaks(subs, order[k])
  }

  lemma SomeBreaksInFront(subs: Subscriptions, first: Node, order: seq<Node>)
    requires Fits(subs, first) && AllFit(subs, order)
    ensures AllFit(subs, [first] + order)
    ensures SomeBreaks(subs, [first] + order) <==> Breaks(subs, first) || SomeBreaks(subs, order)
  {
    var whole := [first] + order;
    assert whole[0] == first && forall k | 0 <= k < |order| :: whole[k + 1] == order[k];
    assert forall k | 0 < k < |whole| :: whole[k] == order[k - 1];
  }

  lemma BrokenNow(subs: Subscriptions, first: Node, order: seq<Node>, calls: seq<Action>)
    requires Fits(subs, first) && AllFit(subs, [first] + order) && Breaks(subs, first) && StopsAtThrow(calls, subs, first)
    ensures BrokenOff(calls, subs, [first] + order, 0)
  {
    assert ([first] + order)[..0] == [] && calls[0..] == calls;
  }

  /** Draining fails exactly when some occurrence breaks, and then ends with the first that does. */
  lemma {:induction false} DrainStopsAtThrow(subs: Subscriptions, queue: seq<Node>) returns (i: nat)
    requires AllFit(subs, queue)
    ensures AllFit(subs, Fifo(queue))
    ensures Drain(subs, queue).1 <==> SomeBreaks(subs, Fifo(queue))
    ensures Drain(subs, queue).1 ==> i < |Fifo(queue)| && BrokenOff(Drain(subs, queue).0, subs, Fifo(queue), i)
    decreases SizeOfAll(queue)
  {
    i := 0;
    if queue != [] {
      var first, later := queue[0], queue[1..] + Published(queue[0].reactions);
      ChildrenFit(subs, first);
      QueueShrinks(queue);
      FifoStep(queue, later);
      var j := DrainStopsAtThrow(subs, later);
      SomeBreaksInFront(subs, first, Fifo(later));
      DrainStep(subs, queue);
      DispatchFollowsTheOrder(subs, first);
      DispatchStopsAtThrow(subs, first);
      if Breaks(subs, first) {
        BrokenNow(subs, first, Fifo(later), Dispatch(subs, first).trace);
      } else if Drain(subs, later).1 {
        i := j + 1;
        BrokenLater(subs, first, Fifo(later), Drain(subs, later).0, j);
      }
    }
  }

  lemma BrokenLater(subs: Subscriptions, first: Node, order: seq<Node>, calls: seq<Action>, i: nat)
    requires Fits(subs, first) && !Breaks(subs, first) && AllFit(subs, order) && i < |order|
    requires BrokenOff(calls, subs, order, i)
    ensures AllFit(subs, [first] + order) && BrokenOff(FullTrace(subs, first) + calls, subs, [first] + order, i + 1)
  {
    var whole, full := [first] + order, FullTrace(subs, first);
    assert forall k | 0 < k < |whole| :: whole[k] == order[k - 1];
    var before := Flatten(subs, order[..i]);
    assert whole[..i + 1] == [first] + order[..i] && ([first] + order[..i])[1..] == order[..i];
    assert Flatten(subs, whole[..i + 1]) == full + before;
    assert (full + calls)[|full + before|..] == calls[|before|..];
  }

  /**
   * A publication fails exactly when the sink or a handler throws on some occurrence of its
   * breadth-first expansion. It then ends with that very call: all occurrences before the first
   * that breaks were dispatched in full, and nothing comes after it.
   */
  lemma PublicationStopsAtThrow(subs: Subscriptions, n: Node) returns (i: nat)
    requires Fits(subs, n)
    ensures AllFit(subs, Levels([n]))
    ensures Drain(subs, [n]).1 <==> SomeBreaks(subs, Levels([n]))
    ensures Drain(subs, [n]).1 ==> i < |Levels([n])| && BrokenOff(Drain(subs, [n]).0, subs, Levels([n]), i)
    ensures !Drain(subs, [n]).1 ==> Drain(subs, [n]).0 == Flatten(subs, Levels([n]))
  {
    FifoIsBreadthFirst([n]);
    DrainIsBreadthFirst(subs, [n]);
    i := DrainStopsAtThrow(subs, [n]);
  }

  lemma {:induction false} SinkLogConcat(xs: seq<Action>, ys: seq<Action>)
    ensures SinkLog(xs + ys) == SinkLog(xs) + SinkLog(ys)
  {
    if xs == [] {
      assert xs + ys == ys;
    } else {
      assert (xs + ys)[1..] == xs[1..] + ys;
      SinkLogConcat(xs[1..], ys);
    }
  }

  lemma {:induction false} NothingSunk(trace: seq<Action>)
    requires forall i | 0 <= i < |trace| :: trace[i].Handled?
    ensures SinkLog(trace) == []
  {
    if trace != [] {
      NothingSunk(trace[1..]);
    }
  }

  lemma {:induction false} SinkLogOfFullTraces(subs: Subscriptions, ns: seq<Node>)
    requires subs.hasSink
    ensures SinkLog(Flatten(subs, ns)) == ns
  {
    if ns != [] {
      var full := FullTrace(subs, ns[0]);
      NothingSunk(full[1..]);
      SinkLogConcat(full, Flatten(subs, ns[1..]));
      SinkLogOfFullTraces(subs, ns[1..]);
    }
  }

  lemma SinkLogOfPart(part: seq<Action>, whole: seq<Action>)
    requires part <= whole
    ensures SinkLog(part) <= SinkLog(whole)
  {
    SinkLogConcat(part, whole[|part|..]);
    assert part + whole[|part|..] == whole;
  }

  /** The sink log of a publication is the breadth-first expansion of the event, or its beginning after a failure. */
  lemma SinkLogIsBreadthFirst(subs: Subscriptions, n: Node)
    requires subs.hasSink && Fits(subs, n)
    ensures SinkLog(Drain(subs, [n]).0) <= Levels([n])
    ensures !Drain(subs, [n]).1 ==> SinkLog(Drain(subs, [n]).0) == Levels([n])
  {
    DrainIsBreadthFirst(subs, [n]);
    FifoIsBreadthFirst([n]);
    SinkLogOfFullTraces(subs, Levels([n]));
    SinkLogOfPart(Drain(subs, [n]).0, Flatten(subs, Levels([n])));
  }

  /** Any series of publications: whatever failed before, each starts at rest and adds its own calls only. */
  method PublishAll(bus: EventBus, ns: seq<Node>)
    requires bus.AtRest() && AllFit(bus.subs, ns)
    modifies bus`queue, bus`draining, bus`trace
    ensures bus.AtRest()
    ensures bus.trace == old(bus.trace) + AllCalls(bus.subs, ns)
  {
    ghost var calls := [];
    for i := 0 to |ns|
      invariant bus.AtRest()
      invariant bus.trace == old(bus.trace) + calls && calls == AllCalls(bus.subs, ns[..i])
    {
      CallsOfNext(bus.subs, ns, i);
      ghost var more := Drain(bus.subs, [ns[i]]).0;
      var threw := bus.Publish(ns[i]);
      calls := calls + more;
    }
    assert ns[..|ns|] == ns;
  }

  lemma CallsOfNext(subs: Subscriptions, ns: seq<Node>, i: nat)
    requires AllFit(subs, ns) && i < |ns|
    ensures AllCalls(subs, ns[..i + 1]) == AllCalls(subs, ns[..i]) + Drain(subs, [ns[i]]).0
  {
    assert ns[..i + 1][..i] == ns[..i];
  }

  function AllCalls(subs: Subscriptions, ns: seq<Node>): seq<Action>
    requires AllFit(subs, ns)
  {
    if ns == [] then [] else AllCalls(subs, ns[..|ns| - 1]) + Drain(subs, [ns[|ns| - 1]]).0
  }
}
