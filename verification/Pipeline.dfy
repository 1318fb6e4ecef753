/** The tracer and the batcher together: what reaches the server at the end of a turn. */
module Pipeline {
  import opened Wrappers
  import opened TraceModel
  import opened Discipline
  import SpanGraph
  import B = BatcherModel

  predicate Adds(a: B.Action<Event>) { a.DoTryAdd? || a.DoAdd? }

  /** The events that the actions hand to the batcher, in order. */
  function Offers(acts: seq<B.Action<Event>>): seq<Event> {
    if acts == [] then [] else (if Adds(acts[0]) then [acts[0].e] else []) + Offers(acts[1..])
  }

  /** The add `a` is accepted or waits for a place, and no add that waits is withdrawn. */
  predicate NotRefused(s: B.State<Event>, a: B.Action<Event>) {
    var s1 := B.Step(s, a);
    && (Adds(a) ==> s1.accepted == s.accepted + [a.e] || s1.waiting == s.waiting + [B.Add(a.e)])
    && (a.DoCancel? && a.sender < |s.waiting| ==> !s.waiting[a.sender].Add?)
  }

  /** No add of a run is refused, which is what its caller is told, and none is withdrawn. */
  predicate NoneRefused(s: B.State<Event>, acts: seq<B.Action<Event>>)
    decreases |acts|
  {
    acts == [] || (NotRefused(s, acts[0]) && NoneRefused(B.Step(s, acts[0]), acts[1..]))
  }

  lemma CancelKeepsAdds(s: B.State<Event>, i: nat)
    requires i < |s.waiting| && !s.waiting[i].Add?
    ensures B.Adds(s.waiting[..i] + s.waiting[i + 1..]) == B.Adds(s.waiting)
  {
    var front, back := s.waiting[..i], s.waiting[i + 1..];
    assert s.waiting == front + ([s.waiting[i]] + back);
    B.AddsConcat(front, [s.waiting[i]] + back);
    B.AddsConcat([s.waiting[i]], back);
    B.AddsConcat(front, back);
  }

  lemma OfferAdd(s: B.State<Event>, a: B.Action<Event>)
    requires Adds(a) && NotRefused(s, a)
    ensures B.Pending(B.Step(s, a)) == B.Pending(s) + [a.e]
  {
    B.AddsConcat(s.waiting, [B.Add(a.e)]);
    assert s.accepted + [a.e] != s.accepted && s.waiting + [B.Add(a.e)] != s.waiting;
    assert B.Step(s, a).waiting == s.waiting ==> s.waiting == [];
  }

  /** An accepted event goes behind those accepted before it, and a waiting one behind those that wait. */
  lemma OfferStep(s: B.State<Event>, a: B.Action<Event>)
    requires B.Shape(s) && NotRefused(s, a)
    ensures B.Pending(B.Step(s, a)) == B.Pending(s) + if Adds(a) then [a.e] else []
  {
    match a
    case DoTryAdd(e) => OfferAdd(s, a);
    case DoAdd(e, _) => OfferAdd(s, a);
    case DoFlush(t) => B.AddsConcat(s.waiting, [B.Flush(t, 0)]);
    case DoCancel(i) => if i < |s.waiting| { CancelKeepsAdds(s, i); }
    case DoReceive => B.PendingReceive(s);
    case _ =>
  }

  lemma {:induction false} PendingIsOffered(s: B.State<Event>, acts: seq<B.Action<Event>>)
    requires B.Shape(s) && NoneRefused(s, acts)
    ensures B.Pending(B.Run(s, acts)) == B.Pending(s) + Offers(acts)
    decreases |acts|
  {
    hide B.Shape, B.Step, B.Pending, NotRefused;
    if acts != [] {
      var s1, rest := B.Step(s, acts[0]), acts[1..];
      OfferStep(s, acts[0]);
      B.ShapeStep(s, acts[0]);
      PendingIsOffered(s1, rest);
      Regroup(B.Pending(s), if Adds(acts[0]) then [acts[0].e] else [], Offers(rest));
    }
  }

  lemma {:induction false} RunConcat(s: B.State<Event>, a: seq<B.Action<Event>>, b: seq<B.Action<Event>>)
    ensures B.Run(s, a + b) == B.Run(B.Run(s, a), b)
    decreases |a|
  {
    if a == [] {
      assert a + b == b;
    } else {
      assert (a + b)[1..] == a[1..] + b;
      RunConcat(B.Step(s, a[0]), a[1..], b);
    }
  }

  /**
   A disciplined and balanced turn whose events all find a place in the queue, at once or after waiting for one, however
   they interleave with the background task and with flushes. Once the batcher is dropped and its task has had its
   turns, the server has been handed exactly the events of the turn, in order, and every reference among them resolves.
   */
  lemma ServerReceivesClosedGraph(start: Time, steps: seq<Step>, end: Time, maxEvents: nat,
                                  acts: seq<B.Action<Event>>, rest: seq<B.Action<Event>>)
    requires Disciplined(steps) && Balanced(steps) && maxEvents >= 1
    requires Offers(acts) == OnTraceEnd(SpanGraph.Run(start, steps), end).log
    requires NoneRefused(B.New(maxEvents), acts)
    requires var s := B.Run(B.New(maxEvents), acts);
             s.alive && s.waiting == [] && B.Receives(rest) > maxEvents
    ensures var s := B.Run(B.New(maxEvents), acts + [B.DoDrop] + rest);
            && !s.running
            && B.Flat(s.ingested) == OnTraceEnd(SpanGraph.Run(start, steps), end).log
            && SpanGraph.Closed(B.Flat(s.ingested))
  {
    hide B.Run, B.Flat, B.Receives, NoneRefused, Offers;
    hide OnTraceEnd, SpanGraph.Run, SpanGraph.Closed, Disciplined, Balanced;
    var s0 := B.New<Event>(maxEvents);
    var s1 := B.Run(s0, acts);
    B.NewKeeps(s0);
    B.RunKeeps(s0, acts);
    B.RunMax(s0, acts);
    PendingIsOffered(s0, acts);
    NothingWaits(s0);
    NothingWaits(s1);
    DropDelivers(s1, rest);
    RunConcat(s0, acts, [B.DoDrop] + rest);
    assert acts + ([B.DoDrop] + rest) == acts + [B.DoDrop] + rest;
    SpanGraph.BalancedRunIsClosed(start, steps, end);
  }

  lemma NothingWaits(s: B.State<Event>)
    ensures s.waiting == [] ==> B.Pending(s) == s.accepted
  {
  }

  lemma DropDelivers(s: B.State<Event>, rest: seq<B.Action<Event>>)
    requires B.Inv(s) && s.alive && s.waiting == [] && B.Receives(rest) > s.maxEvents
    ensures var s' := B.Run(s, [B.DoDrop] + rest);
            !s'.running && B.Flat(s'.ingested) == s.accepted
  {
    hide B.Receives, B.Flat, B.Inv;
    var s1 := B.Step(s, B.DoDrop);
    B.StepKeeps(s, B.DoDrop);
    QueueBound(s1);
    B.DropLosesNothing(s1, rest);
    assert ([B.DoDrop] + rest)[1..] == rest;
  }

  lemma QueueBound(s: B.State<Event>)
    requires B.Inv(s)
    ensures |s.queue| <= s.maxEvents
  {
  }
}
