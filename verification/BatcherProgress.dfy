/** What the batcher's task gets done: no command and no event stays with it. */
module BatcherProgress {
  import opened Wrappers
  import opened BatcherModel

  // ---- the timer ----

  /**
   A tick of a running task leaves nothing in its hands: whatever has been accepted is ingested, or still waits in the
   queue, which the tick does not touch.
   */
  lemma TickHandsOver<E>(maxEvents: nat, acts: seq<Action<E>>)
    requires maxEvents >= 1 && Run(New(maxEvents), acts).running
    ensures var s, s' := Run(New(maxEvents), acts), Step(Run(New(maxEvents), acts), DoTick);
            && s'.buffer == [] && s'.queue == s.queue && s'.accepted == s.accepted && s'.running
            && Flat(s'.ingested) + Adds(s'.queue) == s'.accepted
  {
    hide Flat, Adds;
    var s := Run(New<E>(maxEvents), acts);
    NewKeeps(New<E>(maxEvents));
    RunKeeps(New<E>(maxEvents), acts);
    assert Enabled(s, DoTick);
    StepKeeps(s, DoTick);
    FlushKeeps(s);
    assert Flat(Step(s, DoTick).ingested) + [] == Flat(Step(s, DoTick).ingested);
  }

  // ---- the queue ----

  /** The first `n` queued commands hold what is missing of the first `events` events and `flushes` flushes. */
  ghost predicate Within<E>(s: State<E>, n: nat, events: nat, flushes: nat) {
    && n <= |s.queue|
    && events <= |Flat(s.ingested)| + |s.buffer| + |Adds(s.queue[..n])|
    && flushes <= |s.acked| + |Flushes(s.queue[..n])|
  }

  function Left<E>(n: nat, a: Action<E>): nat { if a.DoReceive? && n > 0 then n - 1 else n }

  lemma WithinEnqueue<E>(s: State<E>, c: Command<E>, n: nat, events: nat, flushes: nat)
    requires Within(s, n, events, flushes)
    ensures Within(Enqueue(s, c), n, events, flushes)
  {
    assert Enqueue(s, c).queue[..n] == s.queue[..n];
  }

  lemma FlushesTail<E>(queue: seq<Command<E>>, i: nat)
    requires i < |queue|
    ensures Flushes(queue[..i + 1]) ==
              (if queue[0].Flush? then [Ack(queue[0].ticket, queue[0].asked)] else []) + Flushes(queue[1..][..i])
  {
    assert queue[..i + 1][1..] == queue[1..][..i];
  }

  lemma FlushCounts<E>(s: State<E>)
    ensures |Flat(FlushBuffer(s).ingested)| + |FlushBuffer(s).buffer| == |Flat(s.ingested)| + |s.buffer|
    ensures FlushBuffer(s).queue == s.queue && FlushBuffer(s).acked == s.acked
  {
    FlatNext(s.ingested, s.buffer);
  }

  /** The same with the command `c` taken from the queue but not yet processed. */
  ghost predicate Taken<E>(s: State<E>, c: Command<E>, n: nat, events: nat, flushes: nat) {
    && n <= |s.queue|
    && events <= |Flat(s.ingested)| + |s.buffer| + (if c.Add? then 1 else 0) + |Adds(s.queue[..n])|
    && flushes <= |s.acked| + (if c.Flush? then 1 else 0) + |Flushes(s.queue[..n])|
  }

  lemma TakenDequeue<E>(s: State<E>, n: nat, events: nat, flushes: nat)
    requires s.queue != [] && Within(s, n, events, flushes)
    ensures Taken(Dequeue(s), s.queue[0], if n > 0 then n - 1 else 0, events, flushes)
  {
    var n' := if n > 0 then n - 1 else 0;
    assert Dequeue(s).queue[..n'] == s.queue[1..][..n'];
    assert Dequeue(s).ingested == s.ingested && Dequeue(s).buffer == s.buffer && Dequeue(s).acked == s.acked;
    AddsHead(s.queue);
    if n > 0 {
      AddsTail(s.queue, n');
      FlushesTail(s.queue, n');
    }
    hide Flat, Adds, Flushes, Dequeue;
  }

  lemma TakenProcess<E>(s: State<E>, c: Command<E>, n: nat, events: nat, flushes: nat)
    requires Taken(s, c, n, events, flushes) && !c.Shutdown?
    ensures Within(Process(s, c), n, events, flushes)
  {
    hide Flat, Adds, Flushes;
    FlushCounts(Buffered(s, c));
  }

  /** Taking a command moves it from the queue to what has been taken, whatever fills its place. */
  lemma WithinReceive<E>(s: State<E>, n: nat, events: nat, flushes: nat)
    requires s.running && s.queue != [] && Within(s, n, events, flushes) && Receive(s).running
    ensures Within(Receive(s), if n > 0 then n - 1 else 0, events, flushes)
  {
    TakenDequeue(s, n, events, flushes);
    hide Within, Taken, Dequeue, FlushBuffer;
    assert s.queue[0].Shutdown? ==> !Receive(s).running;
    TakenProcess(Dequeue(s), s.queue[0], if n > 0 then n - 1 else 0, events, flushes);
  }

  lemma WithinStep<E>(s: State<E>, a: Action<E>, n: nat, events: nat, flushes: nat)
    requires Shape(s) && s.running && Within(s, n, events, flushes) && Step(s, a).running
    ensures Within(Step(s, a), Left(n, a), events, flushes)
  {
    hide Flat, Adds, Flushes, Enqueue;
    match a
    case DoReceive => if s.queue != [] { WithinReceive(s, n, events, flushes); }
    case DoTick => FlushCounts(s);
    case DoTryAdd(e) => WithinEnqueue(s, Add(e), n, events, flushes);
    case DoAdd(e, _) => WithinEnqueue(s, Add(e), n, events, flushes);
    case DoFlush(t) => WithinEnqueue(s, Flush(t, 0), n, events, flushes);
    case DoDrop => WithinEnqueue(s, Shutdown, n, events, flushes);
    case DoCancel(_) =>
  }

  lemma {:induction false} WithinRun<E>(s: State<E>, acts: seq<Action<E>>, n: nat, events: nat, flushes: nat)
    requires Inv(s) && Within(s, n, events, flushes) && Run(s, acts).running && Receives(acts) >= n
    ensures Within(Run(s, acts), 0, events, flushes)
    decreases |acts|
  {
    hide Inv, Within, Step;
    if acts != [] {
      var s1, rest := Step(s, acts[0]), acts[1..];
      StepKeeps(s, acts[0]);
      if !s1.running { StoppedStays(s1, rest); }
      ShapeOf(s);
      if !s.running { StoppedStays(s, acts); }
      WithinStep(s, acts[0], n, events, flushes);
      WithinRun(s1, rest, Left(n, acts[0]), events, flushes);
    }
  }

  lemma ShapeOf<E>(s: State<E>)
    requires Inv(s)
    ensures Shape(s) && Conserved(s) && Answered(s)
  {
  }

  lemma {:induction false} HistoryGrows<E>(s: State<E>, acts: seq<Action<E>>)
    ensures s.accepted <= Run(s, acts).accepted && s.asked <= Run(s, acts).asked
    decreases |acts|
  {
    hide Step;
    if acts != [] {
      StepGrows(s, acts[0]);
      HistoryGrows(Step(s, acts[0]), acts[1..]);
    }
  }

  lemma StepGrows<E>(s: State<E>, a: Action<E>)
    ensures s.accepted <= Step(s, a).accepted && s.asked <= Step(s, a).asked
  {
    hide Process;
    if a.DoReceive? && s.running && s.queue != [] {
      DequeueGrows(s);
      hide Dequeue;
      ProcessAccepts(Dequeue(s), s.queue[0]);
    }
  }

  lemma DequeueGrows<E>(s: State<E>)
    requires s.queue != []
    ensures s.accepted <= Dequeue(s).accepted && s.asked <= Dequeue(s).asked
  {
  }

  lemma ProcessAccepts<E>(s: State<E>, c: Command<E>)
    ensures Process(s, c).accepted == s.accepted && Process(s, c).asked == s.asked
  {
  }

  lemma WithinAll<E>(s: State<E>)
    requires Conserved(s) && Answered(s)
    ensures Within(s, |s.queue|, |s.accepted|, |s.asked|)
  {
    hide Flat, Adds, Flushes;
    assert s.queue[..|s.queue|] == s.queue;
  }

  lemma TickDelivers<E>(s: State<E>, events: nat, flushes: nat)
    requires s.running && Within(s, 0, events, flushes)
    ensures events <= |Flat(Step(s, DoTick).ingested)| && flushes <= |Step(s, DoTick).acked|
  {
    FlushCounts(s);
  }

  lemma TickOnStopped<E>(s: State<E>)
    requires !s.running
    ensures Step(s, DoTick) == s
  {
  }

  lemma Prefixes<T>(a: seq<T>, b: seq<T>, c: seq<T>)
    requires a <= c && b <= c && |a| <= |b|
    ensures a <= b
  {
  }

  /** What is ingested and acknowledged is a beginning of what was accepted and asked. */
  lemma InOrder<E>(s: State<E>)
    requires Inv(s)
    ensures Flat(s.ingested) <= s.accepted && s.acked <= s.asked
  {
    hide Flat, Adds, Flushes;
  }

  /**
   From any reachable state: once the task has had as many turns as there are commands in the queue, every flush asked
   for by then is acknowledged, and after the next tick every event accepted by then is ingested, whatever producers do
   in the meantime and whether or not the task returns.
   */
  lemma NothingIsStuck<E>(s: State<E>, acts: seq<Action<E>>)
    requires Inv(s) && Receives(acts) >= |s.queue|
    ensures var s' := Step(Run(s, acts), DoTick);
            s.accepted <= Flat(s'.ingested) && s.asked <= s'.acked
  {
    hide Flat, Adds, Flushes, Step;
    var s1, s' := Run(s, acts), Step(Run(s, acts), DoTick);
    RunKeeps(s, acts);
    StepKeeps(s1, DoTick);
    HistoryGrows(s, acts);
    StepGrows(s1, DoTick);
    InOrder(s');
    ShapeOf(s);
    hide Inv, Within, Conserved, Answered;
    if s1.running {
      WithinAll(s);
      WithinRun(s, acts, |s.queue|, |s.accepted|, |s.asked|);
      TickDelivers(s1, |s.accepted|, |s.asked|);
    } else {
      assert s' == s1 by { TickOnStopped(s1); }
      StoppedDelivered(s1);
    }
    Prefixes(s.accepted, Flat(s'.ingested), s'.accepted);
    Prefixes(s.asked, s'.acked, s'.asked);
  }

  // ---- the end ----

  /** The turns after which the task returns, once the handle is gone. */
  function TurnsLeft<E>(s: State<E>): (n: nat)
    ensures n >= 1
  {
    |s.queue| + if s.queue != [] && Last(s.queue).Shutdown? then 0 else 1
  }

  lemma TurnTaken<E>(s: State<E>, a: Action<E>)
    requires Shape(s) && !s.alive && s.running
    ensures var s1 := Step(s, a);
            if a.DoReceive? then
              (if TurnsLeft(s) == 1 then !s1.running else s1.running && TurnsLeft(s1) == TurnsLeft(s) - 1)
            else s1.running && TurnsLeft(s1) == TurnsLeft(s)
  {
    hide Flat;
    assert s.waiting == [];
    if a.DoReceive? && s.queue != [] {
      assert s.queue[0].Shutdown? ==> |s.queue| == 1;
      assert |s.queue| > 1 ==> Last(s.queue[1..]) == Last(s.queue);
    }
  }

  lemma {:induction false} RunsWhileTurnsLeft<E>(s: State<E>, acts: seq<Action<E>>)
    requires Inv(s) && !s.alive && s.running
    ensures Run(s, acts).running <==> Receives(acts) < TurnsLeft(s)
    decreases |acts|
  {
    hide Inv, Step, TurnsLeft;
    if acts != [] {
      var s1, rest := Step(s, acts[0]), acts[1..];
      StepKeeps(s, acts[0]);
      ShapeOf(s);
      ShapeOf(s1);
      TurnTaken(s, acts[0]);
      StepAfterDrop(s, acts[0]);
      if s1.running {
        RunsWhileTurnsLeft(s1, rest);
      } else {
        StoppedStays(s1, rest);
      }
    }
  }

  /**
   The drop lets the task finish: it returns in its turn after those for the commands queued before the drop, neither
   earlier nor later, whether or not Shutdown found a place.
   */
  lemma ReturnsAfterDrop<E>(s: State<E>, acts: seq<Action<E>>)
    requires Inv(s) && s.alive && s.running && s.waiting == []
    ensures Step(s, DoDrop).queue == s.queue + if |s.queue| < s.maxEvents then [Shutdown] else []
    ensures Run(Step(s, DoDrop), acts).running <==> Receives(acts) <= |s.queue|
  {
    hide Flat, Adds, Flushes;
    var s1 := Step(s, DoDrop);
    StepKeeps(s, DoDrop);
    assert TurnsLeft(s1) == |s.queue| + 1 by { ShapeOf(s); }
    RunsWhileTurnsLeft(s1, acts);
  }

  /** A sender that gives up leaves the others in their order: put back at its place, it gives the old list. */
  lemma CancelTakesOne<E>(s: State<E>, i: nat)
    requires i < |s.waiting|
    ensures var s' := Step(s, DoCancel(i));
            && |s'.waiting| == |s.waiting| - 1 && s' == s.(waiting := s'.waiting)
            && s'.waiting[..i] + [s.waiting[i]] + s'.waiting[i..] == s.waiting
  {
  }

  // ---- batches are full unless something asks for less ----

  /** Only adds are queued or wait, the handle lives, and every batch so far has as many events as it can. */
  ghost predicate OnlyFull<E>(s: State<E>) {
    && s.alive && s.running && |s.buffer| < s.maxEvents
    && (forall i :: 0 <= i < |s.queue| ==> s.queue[i].Add?)
    && (forall i :: 0 <= i < |s.waiting| ==> s.waiting[i].Add?)
    && (forall i :: 0 <= i < |s.ingested| ==> |s.ingested[i]| == s.maxEvents)
  }

  predicate AddsOrReceives<E>(a: Action<E>) { a.DoTryAdd? || a.DoAdd? || a.DoCancel? || a.DoReceive? }

  lemma OnlyFullDequeue<E>(s: State<E>)
    requires OnlyFull(s) && s.queue != []
    ensures OnlyFull(Dequeue(s)) && Dequeue(s).maxEvents == s.maxEvents
  {
  }

  lemma OnlyFullStep<E>(s: State<E>, a: Action<E>)
    requires OnlyFull(s) && AddsOrReceives(a)
    ensures OnlyFull(Step(s, a)) && Step(s, a).maxEvents == s.maxEvents
  {
    if a.DoReceive? && s.queue != [] {
      OnlyFullDequeue(s);
      hide Dequeue;
      assert s.queue[0].Add?;
    }
  }

  /** Without ticks, flushes and the drop every batch that is handed over has exactly `maxEvents` events. */
  lemma {:induction false} FullBatches<E>(s: State<E>, acts: seq<Action<E>>)
    requires OnlyFull(s) && forall i :: 0 <= i < |acts| ==> AddsOrReceives(acts[i])
    ensures OnlyFull(Run(s, acts))
    ensures forall i :: 0 <= i < |Run(s, acts).ingested| ==> |Run(s, acts).ingested[i]| == s.maxEvents
    decreases |acts|
  {
    hide OnlyFull, Step, AddsOrReceives;
    if acts == [] {
      FullNow(s);
    } else {
      OnlyFullStep(s, acts[0]);
      FullBatches(Step(s, acts[0]), acts[1..]);
    }
  }

  lemma FullNow<E>(s: State<E>)
    requires OnlyFull(s)
    ensures forall i :: 0 <= i < |s.ingested| ==> |s.ingested[i]| == s.maxEvents
  {
  }

  // ---- flushes wait like events ----

  function Tickets(acks: seq<Ack>): seq<nat> {
    if acks == [] then [] else [acks[0].ticket] + Tickets(acks[1..])
  }

  lemma {:induction false} TicketsConcat(a: seq<Ack>, b: seq<Ack>)
    ensures Tickets(a + b) == Tickets(a) + Tickets(b)
  {
    if a == [] {
      assert a + b == b;
    } else {
      assert (a + b)[1..] == a[1..] + b;
      TicketsConcat(a[1..], b);
    }
  }

  /** The flushes that have been asked for and not withdrawn, in the order in which they have or will have a place. */
  function PendingFlushes<E>(s: State<E>): seq<nat> { Tickets(s.asked) + Tickets(Flushes(s.waiting)) }

  function AskedFlushes<E>(acts: seq<Action<E>>): seq<nat> {
    if acts == [] then [] else (if acts[0].DoFlush? then [acts[0].ticket] else []) + AskedFlushes(acts[1..])
  }

  lemma OneFlush<E>(c: Command<E>)
    ensures Tickets(Flushes([c])) == if c.Flush? then [c.ticket] else []
  {
    assert [c][1..] == [];
    assert c.Flush? ==> Flushes([c]) == [Ack(c.ticket, c.asked)] && [Ack(c.ticket, c.asked)][1..] == [];
  }

  lemma FlushesSend<E>(s: State<E>, c: Command<E>)
    requires s.running
    ensures PendingFlushes(Send(s, c)) == PendingFlushes(s) + if c.Flush? then [c.ticket] else []
  {
    hide Tickets, Flushes;
    OneFlush(c);
    if HasRoom(s) {
      FlushesEnqueue(s, c);
      assert Tickets(Flushes(s.waiting)) == [] by { NoFlush(s.waiting); }
    } else {
      FlushesConcat(s.waiting, [c]);
      TicketsConcat(Flushes(s.waiting), Flushes([c]));
      Regroup(Tickets(s.asked), Tickets(Flushes(s.waiting)), Tickets(Flushes([c])));
    }
  }

  lemma NoFlush<E>(cs: seq<Command<E>>)
    requires cs == []
    ensures Tickets(Flushes(cs)) == []
  {
  }

  lemma FlushesEnqueue<E>(s: State<E>, c: Command<E>)
    ensures Tickets(Enqueue(s, c).asked) == Tickets(s.asked) + if c.Flush? then [c.ticket] else []
  {
    if c.Flush? {
      TicketsConcat(s.asked, [Ack(c.ticket, |s.accepted|)]);
      assert [Ack(c.ticket, |s.accepted|)][1..] == [];
    }
  }

  lemma FlushesDequeue<E>(s: State<E>)
    requires s.queue != []
    ensures PendingFlushes(Dequeue(s)) == PendingFlushes(s)
  {
    hide Tickets, Flushes;
    if s.waiting != [] {
      var w, rest := s.waiting[0], s.waiting[1..];
      FlushesEnqueue(s.(queue := s.queue[1..], waiting := rest), w);
      assert s.waiting == [w] + rest;
      FlushesConcat([w], rest);
      TicketsConcat(Flushes([w]), Flushes(rest));
      OneFlush(w);
      Regroup(Tickets(s.asked), Tickets(Flushes([w])), Tickets(Flushes(rest)));
    }
  }

  lemma FlushesStep<E>(s: State<E>, a: Action<E>)
    requires Shape(s) && s.alive && Blocking(a)
    ensures PendingFlushes(Step(s, a)) == PendingFlushes(s) + if a.DoFlush? then [a.ticket] else []
  {
    hide Tickets, Flushes, Send;
    match a
    case DoAdd(e, _) => FlushesSend(s, Add(e));
    case DoFlush(t) => FlushesSend(s, Flush(t, 0));
    case DoReceive => if s.queue != [] { FlushesReceive(s); }
    case _ =>
  }

  lemma FlushesReceive<E>(s: State<E>)
    requires Shape(s) && s.alive && s.queue != []
    ensures PendingFlushes(Receive(s)) == PendingFlushes(s)
  {
    FlushesDequeue(s);
    hide PendingFlushes, Dequeue;
    ShapeDequeue(s);
    SameAsked(Dequeue(s), s.queue[0]);
  }

  lemma SameAsked<E>(s: State<E>, c: Command<E>)
    requires !c.Shutdown?
    ensures PendingFlushes(Process(s, c)) == PendingFlushes(s)
  {
    hide Tickets, Flushes;
    FlushCounts(Buffered(s, c));
  }

  /** No flush is lost either: each is queued in the order asked for, or still waits for its place. */
  lemma {:induction false} FlushesAreKept<E>(s: State<E>, acts: seq<Action<E>>)
    requires Shape(s) && s.alive && forall i :: 0 <= i < |acts| ==> Blocking(acts[i])
    ensures PendingFlushes(Run(s, acts)) == PendingFlushes(s) + AskedFlushes(acts)
    decreases |acts|
  {
    hide PendingFlushes, Shape, Blocking, Step;
    if acts != [] {
      var s1, rest := Step(s, acts[0]), acts[1..];
      ShapeStep(s, acts[0]);
      BlockingStep(s, acts[0]);
      FlushesStep(s, acts[0]);
      FlushesAreKept(s1, rest);
      Regroup(PendingFlushes(s), if acts[0].DoFlush? then [acts[0].ticket] else [], AskedFlushes(rest));
    }
  }
}
