/**
 The batching actor (langfuse-client/src/batcher.rs) as a state machine: producers and one background task that
 share a bounded queue. Module Batcher is the object; here are its steps, and what every interleaving of them keeps.
 */
module BatcherModel {
  import opened Wrappers

  datatype Policy = DropNew | Block

  /**
   A command in the queue. `asked` is bookkeeping of the model: how many events had been accepted when the flush
   entered the queue.
   */
  datatype Command<E> = Add(event: E) | Flush(ticket: nat, asked: nat) | Shutdown

  datatype Ack = Ack(ticket: nat, asked: nat)

  /**
   `waiting` holds the senders that wait for a place in the queue, first come first served. `alive` says that the
   handle has not been dropped, `running` that the background task has not returned. `accepted` and `asked` are the
   history of the events and the flushes that entered the queue, `ingested` that of the batches handed to the client.
   */
  datatype State<E> = State(maxEvents: nat, queue: seq<Command<E>>, waiting: seq<Command<E>>, buffer: seq<E>,
                            ingested: seq<seq<E>>, acked: seq<Ack>, alive: bool, running: bool,
                            accepted: seq<E>, asked: seq<Ack>)

  datatype Action<E> =
    | DoTryAdd(e: E)
    | DoAdd(e: E, policy: Policy)
    | DoFlush(ticket: nat)
    | DoCancel(sender: nat)
    | DoDrop
    | DoReceive
    | DoTick

  function New<E>(maxEvents: nat): State<E> {
    State(maxEvents, [], [], [], [], [], true, true, [], [])
  }

  /** A command that has found a place in the queue. */
  function Enqueue<E>(s: State<E>, c: Command<E>): State<E> {
    match c
    case Add(e) => s.(queue := s.queue + [c], accepted := s.accepted + [e])
    case Flush(t, _) => s.(queue := s.queue + [Flush(t, |s.accepted|)], asked := s.asked + [Ack(t, |s.accepted|)])
    case Shutdown => s.(queue := s.queue + [c])
  }

  predicate HasRoom<E>(s: State<E>) { |s.queue| < s.maxEvents && s.waiting == [] }

  function TrySend<E>(s: State<E>, c: Command<E>): State<E> {
    if s.running && HasRoom(s) then Enqueue(s, c) else s
  }

  /** A send that waits for a place in a full queue; it fails on a closed one. */
  function Send<E>(s: State<E>, c: Command<E>): State<E> {
    if !s.running then s else if HasRoom(s) then Enqueue(s, c) else s.(waiting := s.waiting + [c])
  }

  /** Taking a command frees a place, which the first waiting sender gets. */
  function Dequeue<E>(s: State<E>): State<E>
    requires s.queue != []
  {
    var s1 := s.(queue := s.queue[1..]);
    if s.waiting == [] then s1 else Enqueue(s1.(waiting := s.waiting[1..]), s.waiting[0])
  }

  function FlushBuffer<E>(s: State<E>): State<E> {
    if s.buffer == [] then s else s.(ingested := s.ingested + [s.buffer], buffer := [])
  }

  /** The task returns: its end of the queue goes away, and with it whatever is still queued or waiting. */
  function Return<E>(s: State<E>): State<E> {
    FlushBuffer(s).(running := false, queue := [], waiting := [])
  }

  function Process<E>(s: State<E>, c: Command<E>): State<E> {
    match c
    case Add(e) =>
      var s1 := s.(buffer := s.buffer + [e]);
      if |s1.buffer| >= s.maxEvents then FlushBuffer(s1) else s1
    case Flush(t, asked) => FlushBuffer(s).(acked := s.acked + [Ack(t, asked)])
    case Shutdown => Return(s)
  }

  /** With an empty queue the task waits while the handle lives, and is told that the channel is closed after that. */
  function Receive<E>(s: State<E>): State<E> {
    if !s.running then s
    else if s.queue != [] then Process(Dequeue(s), s.queue[0])
    else if s.alive then s
    else Return(s)
  }

  function Tick<E>(s: State<E>): State<E> {
    if s.running then FlushBuffer(s) else s
  }

  function Drop<E>(s: State<E>): State<E> {
    TrySend(s, Shutdown).(alive := false)
  }

  /** Producers hold the handle, so nothing is sent after it is dropped, and no sender waits when it is dropped. */
  predicate Enabled<E>(s: State<E>, a: Action<E>) {
    match a
    case DoTryAdd(_) => s.alive
    case DoAdd(_, _) => s.alive
    case DoFlush(_) => s.alive
    case DoCancel(i) => i < |s.waiting|
    case DoDrop => s.alive && s.waiting == []
    case _ => true
  }

  function Step<E>(s: State<E>, a: Action<E>): State<E> {
    if !Enabled(s, a) then s else
    match a
    case DoTryAdd(e) => TrySend(s, Add(e))
    case DoAdd(e, policy) => if policy == Block then Send(s, Add(e)) else TrySend(s, Add(e))
    case DoFlush(t) => Send(s, Flush(t, 0))
    case DoCancel(i) => s.(waiting := s.waiting[..i] + s.waiting[i + 1..])
    case DoDrop => Drop(s)
    case DoReceive => Receive(s)
    case DoTick => Tick(s)
  }

  function Run<E>(s: State<E>, acts: seq<Action<E>>): State<E>
    decreases |acts|
  {
    if acts == [] then s else Run(Step(s, acts[0]), acts[1..])
  }

  // ---- what every interleaving keeps ----

  function Flat<E>(batches: seq<seq<E>>): seq<E> {
    if batches == [] then [] else Flat(batches[..|batches| - 1]) + batches[|batches| - 1]
  }

  function Adds<E>(queue: seq<Command<E>>): seq<E> {
    if queue == [] then [] else
    (if queue[0].Add? then [queue[0].event] else []) + Adds(queue[1..])
  }

  function Flushes<E>(queue: seq<Command<E>>): seq<Ack> {
    if queue == [] then [] else
    (if queue[0].Flush? then [Ack(queue[0].ticket, queue[0].asked)] else []) + Flushes(queue[1..])
  }

  lemma AddsConcat<E>(a: seq<Command<E>>, b: seq<Command<E>>)
    ensures Adds(a + b) == Adds(a) + Adds(b)
  {
    if a == [] {
      assert a + b == b;
    } else {
      assert (a + b)[1..] == a[1..] + b;
    }
  }

  /** No event is lost and none is reordered: what was accepted is ingested, buffered or queued, in this order. */
  ghost predicate Conserved<E>(s: State<E>) {
    s.accepted == Flat(s.ingested) + s.buffer + Adds(s.queue)
  }

  /** Every flush is acknowledged once, in the order asked: those not yet acknowledged are queued. */
  ghost predicate Answered<E>(s: State<E>) {
    s.asked == s.acked + Flushes(s.queue)
  }

  /** Every flush in the queue stands behind exactly the events that were accepted before it. */
  ghost predicate Stamped<E>(s: State<E>) {
    forall i :: 0 <= i < |s.queue| && s.queue[i].Flush? ==>
      s.queue[i].asked == |Flat(s.ingested)| + |s.buffer| + |Adds(s.queue[..i])|
  }

  ghost predicate Shape<E>(s: State<E>) {
    && s.maxEvents >= 1
    && |s.queue| <= s.maxEvents && |s.buffer| < s.maxEvents
    && (s.waiting != [] ==> s.alive && |s.queue| == s.maxEvents)
    && (forall i :: 0 <= i < |s.waiting| ==> !s.waiting[i].Shutdown?)
    && (forall i :: 0 <= i < |s.queue| && s.queue[i].Shutdown? ==> !s.alive && i == |s.queue| - 1)
    && (!s.running ==> !s.alive && s.queue == [] && s.buffer == [])
    && (forall i :: 0 <= i < |s.ingested| ==> 1 <= |s.ingested[i]| <= s.maxEvents)
  }

  /** A flush is acknowledged after every event accepted before it was handed to the client. */
  ghost predicate AckedLate<E>(s: State<E>) {
    forall i :: 0 <= i < |s.acked| ==> s.acked[i].asked <= |Flat(s.ingested)|
  }

  ghost predicate Ordered<E>(s: State<E>) { Conserved(s) && Stamped(s) && AckedLate(s) }

  ghost predicate Inv<E>(s: State<E>) { Shape(s) && Ordered(s) && Answered(s) }

  function Buffered<E>(s: State<E>, c: Command<E>): State<E> {
    if c.Add? then s.(buffer := s.buffer + [c.event]) else s
  }

  lemma EnqueueKeeps<E>(s: State<E>, c: Command<E>)
    requires Ordered(s)
    ensures Ordered(Enqueue(s, c))
  {
    var s' := Enqueue(s, c);
    AddsConcat(s.queue, [s'.queue[|s.queue|]]);
    EnqueueStamped(s, c);
    hide Stamped, Adds, Flat;
    Regroup(Flat(s.ingested) + s.buffer, Adds(s.queue), if c.Add? then [c.event] else []);
    OneAdd(s'.queue[|s.queue|]);
  }

  lemma OneAdd<E>(c: Command<E>)
    ensures Adds([c]) == if c.Add? then [c.event] else []
  {
  }

  lemma EnqueueStamped<E>(s: State<E>, c: Command<E>)
    requires Conserved(s) && Stamped(s)
    ensures Stamped(Enqueue(s, c))
  {
    hide Flat, Adds;
    var s' := Enqueue(s, c);
    assert forall i :: 0 <= i <= |s.queue| ==> s'.queue[..i] == s.queue[..i];
    assert s.queue[..|s.queue|] == s.queue;
  }

  lemma AddsTail<E>(queue: seq<Command<E>>, i: nat)
    requires i < |queue|
    ensures Adds(queue[..i + 1]) == (if queue[0].Add? then [queue[0].event] else []) + Adds(queue[1..][..i])
  {
    assert queue[..i + 1][1..] == queue[1..][..i];
  }

  /** The first command leaves the queue, and goes to the end of the buffer if it is an event. */
  lemma TakeKeeps<E>(s: State<E>)
    requires Ordered(s) && s.queue != []
    ensures Ordered(Buffered(s.(queue := s.queue[1..]), s.queue[0]))
    ensures s.queue[0].Flush? ==> s.queue[0].asked == |Flat(s.ingested)| + |s.buffer|
  {
    AddsHead(s.queue);
    hide Flat, Adds;
    var s' := Buffered(s.(queue := s.queue[1..]), s.queue[0]);
    forall i | 0 <= i < |s'.queue| && s'.queue[i].Flush?
      ensures s'.queue[i].asked == |Flat(s'.ingested)| + |s'.buffer| + |Adds(s'.queue[..i])|
    {
      AddsTail(s.queue, i);
      assert s'.queue[i] == s.queue[i + 1];
    }
    Regroup(Flat(s.ingested) + s.buffer, if s.queue[0].Add? then [s.queue[0].event] else [], Adds(s.queue[1..]));
    Regroup(Flat(s.ingested), s.buffer, if s.queue[0].Add? then [s.queue[0].event] else []);
  }

  lemma AddsHead<E>(queue: seq<Command<E>>)
    requires queue != []
    ensures Adds(queue) == (if queue[0].Add? then [queue[0].event] else []) + Adds(queue[1..])
    ensures Adds(queue[..0]) == []
  {
  }

  lemma FlushKeeps<E>(s: State<E>)
    requires Conserved(s) && Stamped(s) && AckedLate(s)
    ensures var s' := FlushBuffer(s); Conserved(s') && Stamped(s') && AckedLate(s') && s'.buffer == []
    ensures Flat(FlushBuffer(s).ingested) == Flat(s.ingested) + s.buffer
  {
    FlatNext(s.ingested, s.buffer);
    hide Flat, Adds;
  }

  lemma FlatNext<E>(batches: seq<seq<E>>, b: seq<E>)
    ensures Flat(batches + [b]) == Flat(batches) + b
  {
    assert (batches + [b])[..|batches|] == batches;
  }

  lemma ShapeDequeue<E>(s: State<E>)
    requires Shape(s) && s.queue != []
    ensures Shape(Dequeue(s)) && Dequeue(s).running == s.running && Dequeue(s).buffer == s.buffer
    ensures s.queue[0].Shutdown? ==> !s.alive && Dequeue(s).queue == []
  {
    var s1 := s.(queue := s.queue[1..]);
    assert forall i :: 0 <= i < |s1.queue| ==> s1.queue[i] == s.queue[i + 1];
  }

  lemma ShapeFlush<E>(s: State<E>)
    requires Shape(s.(buffer := [])) && |s.buffer| <= s.maxEvents
    ensures Shape(FlushBuffer(s))
  {
  }

  lemma ShapeReceive<E>(s: State<E>)
    requires Shape(s)
    ensures Shape(Receive(s))
  {
    if s.running && s.queue != [] {
      ShapeDequeue(s);
      ShapeProcess(s, s.queue[0]);
    } else {
      ShapeFlush(s);
    }
  }

  lemma ShapeProcess<E>(s: State<E>, c: Command<E>)
    requires s.queue != [] && c == s.queue[0] && s.running && Shape(s) && Shape(Dequeue(s))
    requires Dequeue(s).running && Dequeue(s).buffer == s.buffer
    requires c.Shutdown? ==> !s.alive && Dequeue(s).queue == []
    ensures Shape(Process(Dequeue(s), c))
  {
    var s1 := Dequeue(s);
    assert s1.alive == s.alive;
    hide Dequeue;
    ShapeFlush(if c.Add? then s1.(buffer := s1.buffer + [c.event]) else s1);
  }

  lemma ShapeStep<E>(s: State<E>, a: Action<E>)
    requires Shape(s)
    ensures Shape(Step(s, a))
  {
    match a
    case DoReceive => ShapeReceive(s);
    case DoTick => ShapeFlush(s);
    case _ =>
  }

  /** Taking a command, putting it in the buffer if it is an event, and only then filling its place. */
  lemma DequeueBuffered<E>(s: State<E>)
    requires s.queue != []
    ensures var next := Buffered(s.(queue := s.queue[1..]), s.queue[0]);
            Buffered(Dequeue(s), s.queue[0]) ==
              if s.waiting == [] then next else Enqueue(next.(waiting := s.waiting[1..]), s.waiting[0])
  {
  }

  lemma OrderedDequeue<E>(s: State<E>)
    requires Ordered(s) && s.queue != []
    ensures Ordered(Buffered(Dequeue(s), s.queue[0]))
    ensures s.queue[0].Flush? ==> s.queue[0].asked == |Flat(s.ingested)| + |s.buffer|
  {
    var next := Buffered(s.(queue := s.queue[1..]), s.queue[0]);
    TakeKeeps(s);
    DequeueBuffered(s);
    if s.waiting != [] {
      EnqueueKeeps(next.(waiting := s.waiting[1..]), s.waiting[0]);
    }
  }

  lemma OrderedAck<E>(s: State<E>, t: nat, asked: nat)
    requires Ordered(s) && asked == |Flat(s.ingested)| + |s.buffer|
    ensures Ordered(FlushBuffer(s).(acked := s.acked + [Ack(t, asked)]))
  {
    FlushKeeps(s);
  }

  lemma OrderedReturn<E>(s: State<E>)
    requires Ordered(s) && s.queue == []
    ensures Ordered(Return(s))
  {
    FlushKeeps(s);
  }

  lemma OrderedReceive<E>(s: State<E>)
    requires Ordered(s) && s.queue != [] && (s.queue[0].Shutdown? ==> Dequeue(s).queue == [])
    ensures Ordered(Process(Dequeue(s), s.queue[0]))
  {
    var s1 := Dequeue(s);
    OrderedDequeue(s);
    match s.queue[0]
    case Add(e) => FlushKeeps(Buffered(s1, s.queue[0]));
    case Flush(t, asked) => OrderedAck(s1, t, asked);
    case Shutdown => OrderedReturn(s1);
  }

  lemma OrderedStep<E>(s: State<E>, a: Action<E>)
    requires Shape(s) && Ordered(s)
    ensures Ordered(Step(s, a))
  {
    hide Flat, Adds, Process, Enqueue;
    match a
    case DoReceive =>
      if s.running && s.queue != [] {
        ShapeDequeue(s);
        OrderedReceive(s);
      } else {
        FlushKeeps(s);
      }
    case DoTick => FlushKeeps(s);
    case DoTryAdd(e) => EnqueueKeeps(s, Add(e));
    case DoAdd(e, _) => EnqueueKeeps(s, Add(e));
    case DoFlush(t) => EnqueueKeeps(s, Flush(t, 0));
    case DoDrop => EnqueueKeeps(s, Shutdown);
    case DoCancel(_) =>
  }

  lemma FlushesConcat<E>(a: seq<Command<E>>, b: seq<Command<E>>)
    ensures Flushes(a + b) == Flushes(a) + Flushes(b)
  {
    if a == [] {
      assert a + b == b;
    } else {
      assert (a + b)[1..] == a[1..] + b;
    }
  }

  lemma AnsweredEnqueue<E>(s: State<E>, c: Command<E>)
    requires Answered(s)
    ensures Answered(Enqueue(s, c))
  {
    FlushesConcat(s.queue, [Enqueue(s, c).queue[|s.queue|]]);
  }

  lemma AnsweredReceive<E>(s: State<E>)
    requires Shape(s) && Answered(s) && s.queue != []
    ensures Answered(Process(Dequeue(s), s.queue[0]))
  {
    var c, s1 := s.queue[0], s.(queue := s.queue[1..]);
    var early := s1.(acked := s.acked + if c.Flush? then [Ack(c.ticket, c.asked)] else []);
    assert Answered(early);
    if s.waiting != [] {
      AnsweredEnqueue(early.(waiting := s.waiting[1..]), s.waiting[0]);
    }
    AnsweredProcess(Dequeue(s), c, early.acked);
    ShapeDequeue(s);
  }

  lemma AnsweredProcess<E>(s: State<E>, c: Command<E>, acked: seq<Ack>)
    requires s.asked == acked + Flushes(s.queue) && (c.Shutdown? ==> s.queue == [])
    requires acked == s.acked + if c.Flush? then [Ack(c.ticket, c.asked)] else []
    ensures Answered(Process(s, c))
  {
  }

  lemma AnsweredStep<E>(s: State<E>, a: Action<E>)
    requires Shape(s) && Answered(s)
    ensures Answered(Step(s, a))
  {
    match a
    case DoReceive => if s.queue != [] { AnsweredReceive(s); }
    case DoTick =>
    case DoTryAdd(e) => AnsweredEnqueue(s, Add(e));
    case DoAdd(e, _) => AnsweredEnqueue(s, Add(e));
    case DoFlush(t) => AnsweredEnqueue(s, Flush(t, 0));
    case DoDrop => AnsweredEnqueue(s, Shutdown);
    case DoCancel(_) =>
  }

  lemma StepKeeps<E>(s: State<E>, a: Action<E>)
    requires Inv(s)
    ensures Inv(Step(s, a))
  {
    ShapeStep(s, a);
    OrderedStep(s, a);
    AnsweredStep(s, a);
  }

  lemma NewKeeps<E>(s: State<E>)
    requires s == New(s.maxEvents) && s.maxEvents >= 1
    ensures Inv(s)
  {
  }

  lemma {:induction false} RunKeeps<E>(s: State<E>, acts: seq<Action<E>>)
    requires Inv(s)
    ensures Inv(Run(s, acts))
    decreases |acts|
  {
    if acts != [] {
      StepKeeps(s, acts[0]);
      RunKeeps(Step(s, acts[0]), acts[1..]);
    }
  }

  // ---- main results, for every interleaving of producers, ticks, flushes, cancellations and the drop ----

  lemma EveryRun<E>(maxEvents: nat, acts: seq<Action<E>>)
    requires maxEvents >= 1
    ensures var s := Run(New(maxEvents), acts);
            && s.accepted == Flat(s.ingested) + s.buffer + Adds(s.queue)
            && (forall i :: 0 <= i < |s.ingested| ==> 1 <= |s.ingested[i]| <= maxEvents)
            && |s.buffer| < maxEvents && |s.queue| <= maxEvents
            && (forall i :: 0 <= i < |s.acked| ==> s.acked[i].asked <= |s.accepted|
                                                    && s.accepted[..s.acked[i].asked] <= Flat(s.ingested))
            && s.asked == s.acked + Flushes(s.queue)
            && (!s.running ==> Flat(s.ingested) == s.accepted && s.acked == s.asked)
  {
    RunKeeps(New<E>(maxEvents), acts);
    RunMax(New<E>(maxEvents), acts);
  }

  lemma {:induction false} RunMax<E>(s: State<E>, acts: seq<Action<E>>)
    ensures Run(s, acts).maxEvents == s.maxEvents
    decreases |acts|
  {
    if acts != [] { RunMax(Step(s, acts[0]), acts[1..]); }
  }

  /** An event is refused only when the queue is full or the task has returned. */
  lemma RefusedOnlyWhenFull<E>(s: State<E>, e: E)
    requires Inv(s)
    ensures TrySend(s, Add(e)).accepted ==
              if s.running && |s.queue| < s.maxEvents then s.accepted + [e] else s.accepted
  {
  }

  /** What is offered by senders that wait. */
  function Offered<E>(acts: seq<Action<E>>): seq<E> {
    if acts == [] then [] else (if acts[0].DoAdd? then [acts[0].e] else []) + Offered(acts[1..])
  }

  predicate Blocking<E>(a: Action<E>) {
    a.DoReceive? || a.DoTick? || a.DoFlush? || (a.DoAdd? && a.policy == Block)
  }

  /** What has been offered and not withdrawn: accepted, or waiting for a place. */
  function Pending<E>(s: State<E>): seq<E> { s.accepted + Adds(s.waiting) }

  lemma PendingSend<E>(s: State<E>, c: Command<E>)
    requires s.running && !c.Shutdown?
    ensures Pending(Send(s, c)) == Pending(s) + if c.Add? then [c.event] else []
  {
    AddsConcat(s.waiting, [c]);
  }

  lemma PendingReceive<E>(s: State<E>)
    requires Shape(s)
    ensures Pending(Receive(s)) == Pending(s) && (s.alive ==> Receive(s).alive && Receive(s).running == s.running)
  {
    if s.running && s.queue != [] {
      PendingDequeue(s);
      assert s.queue[0].Shutdown? ==> s.waiting == [];
    }
  }

  lemma PendingDequeue<E>(s: State<E>)
    requires s.queue != []
    ensures Pending(Dequeue(s)) == Pending(s) && Dequeue(s).alive == s.alive && Dequeue(s).running == s.running
  {
  }

  lemma BlockingStep<E>(s: State<E>, a: Action<E>)
    requires Shape(s) && s.alive && Blocking(a)
    ensures Pending(Step(s, a)) == Pending(s) + (if a.DoAdd? then [a.e] else []) && Step(s, a).alive
  {
    match a
    case DoAdd(e, _) => PendingSend(s, Add(e));
    case DoFlush(t) => PendingSend(s, Flush(t, 0));
    case DoReceive => PendingReceive(s);
    case _ =>
  }

  /** Under the blocking policy nothing is refused: every event is accepted in the order offered, or still waits. */
  lemma {:induction false} BlockingRefusesNothing<E>(s: State<E>, acts: seq<Action<E>>)
    requires Shape(s) && s.alive && forall i :: 0 <= i < |acts| ==> Blocking(acts[i])
    ensures Pending(Run(s, acts)) == Pending(s) + Offered(acts)
    decreases |acts|
  {
    hide Pending, Shape, Blocking, Step;
    if acts != [] {
      var s1, rest := Step(s, acts[0]), acts[1..];
      ShapeStep(s, acts[0]);
      BlockingStep(s, acts[0]);
      BlockingRefusesNothing(s1, rest);
      Regroup(Pending(s), if acts[0].DoAdd? then [acts[0].e] else [], Offered(rest));
    }
  }

  function Receives<E>(acts: seq<Action<E>>): nat {
    if acts == [] then 0 else (if acts[0].DoReceive? then 1 else 0) + Receives(acts[1..])
  }

  /**
   After the drop the task ends and everything accepted has been ingested, as soon as it has been given as many turns
   as there were commands in the queue and one more. It does not matter whether the shutdown command found a place.
   */
  lemma {:induction false} DropLosesNothing<E>(s: State<E>, acts: seq<Action<E>>)
    requires Inv(s) && !s.alive && Receives(acts) > |s.queue|
    ensures var s' := Run(s, acts);
            !s'.running && Flat(s'.ingested) == s'.accepted == s.accepted && s'.acked == s'.asked == s.asked
    decreases |acts|
  {
    var s1, rest := Step(s, acts[0]), acts[1..];
    StepKeeps(s, acts[0]);
    StepAfterDrop(s, acts[0]);
    hide Inv, Step, Flat;
    if s1.running {
      DropLosesNothing(s1, rest);
    } else {
      StoppedStays(s1, rest);
      StoppedDelivered(s1);
    }
  }

  /** After the drop nothing is accepted any more, and every turn takes a command or ends the task. */
  lemma StepAfterDrop<E>(s: State<E>, a: Action<E>)
    requires Shape(s) && !s.alive
    ensures var s1 := Step(s, a);
            && s1.accepted == s.accepted && s1.asked == s.asked && !s1.alive
            && (s1.running ==> |s1.queue| == |s.queue| - if a.DoReceive? then 1 else 0)
  {
    assert s.waiting == [];
  }

  lemma StoppedDelivered<E>(s: State<E>)
    requires Inv(s) && !s.running
    ensures Flat(s.ingested) == s.accepted && s.acked == s.asked
  {
  }

  lemma {:induction false} StoppedStays<E>(s: State<E>, acts: seq<Action<E>>)
    requires Inv(s) && !s.running
    ensures Run(s, acts) == s
    decreases |acts|
  {
    if acts != [] {
      assert Step(s, acts[0]) == s;
      StoppedStays(s, acts[1..]);
    }
  }
}
