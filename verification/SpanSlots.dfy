/** Starts and ends that belong together, told from the calls of a turn alone. */
module SpanSlots {
  import opened Wrappers
  import opened TraceModel
  import opened Discipline

  /** What a start opens and an end closes: the generation of a step, a tool call, the compaction. */
  datatype Slot = LlmStep(step: nat) | ToolCall(c: CallId) | Compaction

  predicate Opens(call: Call, slot: Slot) {
    match slot
    case LlmStep(n) => call.LlmStart? && call.step == n
    case ToolCall(c) => call.ToolStart? && call.c == c
    case Compaction => call.CompactStart?
  }

  predicate Closes(call: Call, slot: Slot) {
    match slot
    case LlmStep(n) => call.LlmEnd? && call.step == n
    case ToolCall(c) => call.ToolEnd? && call.c == c
    case Compaction => call.CompactEnd?
  }

  /** Step `x` ends what step `k` started, with no other start or end of the same in between. */
  predicate Pair(steps: seq<Step>, slot: Slot, k: nat, x: nat) {
    && k < x < |steps| && Opens(steps[k].call, slot) && Closes(steps[x].call, slot)
    && forall j :: k < j < x ==> !Opens(steps[j].call, slot) && !Closes(steps[j].call, slot)
  }

  /** The step before `n` that started what is not yet ended at `n`. */
  function OpenedAt(steps: seq<Step>, slot: Slot, n: nat): (r: Option<nat>)
    requires n <= |steps|
    ensures r.Some? ==> r.value < n && Opens(steps[r.value].call, slot)
  {
    if n == 0 then None
    else if Opens(steps[n - 1].call, slot) then Some(n - 1)
    else if Closes(steps[n - 1].call, slot) then None
    else OpenedAt(steps, slot, n - 1)
  }

  lemma {:induction false} OpenedIff(steps: seq<Step>, slot: Slot, n: nat, k: nat)
    requires n <= |steps|
    ensures OpenedAt(steps, slot, n) == Some(k) <==>
              k < n && Opens(steps[k].call, slot)
              && forall j :: k < j < n ==> !Opens(steps[j].call, slot) && !Closes(steps[j].call, slot)
  {
    hide Opens, Closes;
    if n > 0 && !Opens(steps[n - 1].call, slot) && !Closes(steps[n - 1].call, slot) {
      OpenedIff(steps, slot, n - 1, k);
    }
  }

  lemma PairIff(steps: seq<Step>, slot: Slot, k: nat, x: nat)
    requires x < |steps| && Closes(steps[x].call, slot)
    ensures Pair(steps, slot, k, x) <==> OpenedAt(steps, slot, x) == Some(k)
  {
    OpenedIff(steps, slot, x, k);
  }

  /** A later step does not change what was open before it. */
  lemma {:induction false} OpenedTake(steps: seq<Step>, slot: Slot, m: nat, n: nat)
    requires n <= m <= |steps|
    ensures OpenedAt(steps[..m], slot, n) == OpenedAt(steps, slot, n)
    decreases n
  {
    if n > 0 { OpenedTake(steps, slot, m, n - 1); }
  }

  // ---- the monitor knows which calls are open ----

  /** A call is open in one scope only, and a suspended agent's own call is open in its scope. */
  ghost predicate Disjoint(m: Monitor) {
    && (forall i :: 0 <= i < |m.below| ==> m.below[i].scope.open !! m.top.open)
    && (forall i, j :: 0 <= i < j < |m.below| ==> m.below[i].scope.open !! m.below[j].scope.open)
    && (forall i :: 0 <= i < |m.below| ==> m.below[i].call in m.below[i].scope.open)
  }

  lemma DisjointNext(m: Monitor, call: Call)
    requires Disjoint(m) && Allowed(m, call)
    ensures Disjoint(Next(m, call))
    ensures forall c :: Next(m, call).IsOpen(c) <==>
              Opens(call, ToolCall(c)) || (m.IsOpen(c) && !Closes(call, ToolCall(c)))
  {
    match call
    case ToolStart(c, name, _) => DisjointStart(m, call);
    case ToolEnd(c, _) => DisjointEnd(m, call);
    case _ =>
  }

  lemma DisjointStart(m: Monitor, call: Call)
    requires Disjoint(m) && Allowed(m, call) && call.ToolStart?
    ensures Disjoint(Next(m, call))
    ensures forall c :: Next(m, call).IsOpen(c) <==> c == call.c || m.IsOpen(c)
  {
    var m', k := Next(m, call), |m.below|;
    assert forall i :: 0 <= i < k ==> m'.below[i] == m.below[i] && call.c !in m.below[i].scope.open;
    if call.name == "Agent" {
      assert m'.below[k].scope.open == m.top.open + {call.c} && m'.top.open == {};
    }
    forall c ensures m'.IsOpen(c) <==> c == call.c || m.IsOpen(c) {
      if c in m.top.open + {call.c} {
        assert call.name == "Agent" ==> c in m'.below[k].scope.open;
      } else if i :| 0 <= i < k && c in m.below[i].scope.open {
        assert c in m'.below[i].scope.open;
      }
    }
  }

  lemma DisjointEnd(m: Monitor, call: Call)
    requires Disjoint(m) && Allowed(m, call) && call.ToolEnd?
    ensures Disjoint(Next(m, call))
    ensures forall c :: Next(m, call).IsOpen(c) <==> m.IsOpen(c) && c != call.c
  {
    var m', k := Next(m, call), |m.below| - 1;
    if call.c in m.top.open {
    } else if m.EndsAgent(call.c) {
      assert call.c in m.below[k].scope.open && m.IsOpen(call.c);
      assert m.top.open == {};
      forall c ensures m'.IsOpen(c) <==> m.IsOpen(c) && c != call.c {
        if i :| 0 <= i <= k && c in m.below[i].scope.open && c != call.c {
          assert if i == k then c in m'.top.open else c in m'.below[i].scope.open;
        }
      }
    } else {
      assert !m.IsOpen(call.c);
    }
  }

  lemma {:induction false} DisjointRun(steps: seq<Step>)
    requires Disciplined(steps)
    ensures Disjoint(Watch(steps))
  {
    hide Disjoint, Next, Allowed;
    if steps == [] {
      NothingOpen();
    } else {
      DisciplinedPrefix(steps);
      DisjointRun(steps[..|steps| - 1]);
      DisjointNext(Watch(steps[..|steps| - 1]), steps[|steps| - 1].call);
    }
  }

  lemma NothingOpen()
    ensures Disjoint(Watch([])) && forall c :: !Watch([]).IsOpen(c)
  {
  }

  lemma {:induction false} DisciplinedTake(steps: seq<Step>, k: nat)
    requires Disciplined(steps) && k <= |steps|
    ensures Disciplined(steps[..k])
    ensures k < |steps| ==> Allowed(Watch(steps[..k]), steps[k].call)
  {
    forall i | 0 <= i < k ensures Allowed(Watch(steps[..k][..i]), steps[..k][i].call) {
      assert steps[..k][..i] == steps[..i];
    }
  }

  lemma WatchNext(steps: seq<Step>, n: nat)
    requires n < |steps|
    ensures Watch(steps[..n + 1]) == Next(Watch(steps[..n]), steps[n].call)
  {
    hide Next;
    assert steps[..n + 1][..n] == steps[..n];
  }

  /** In a disciplined turn a call is open exactly if it was started and has not ended since. */
  lemma {:induction false} OpenCalls(steps: seq<Step>, n: nat, c: CallId)
    requires Disciplined(steps) && n <= |steps|
    ensures Watch(steps[..n]).IsOpen(c) <==> OpenedAt(steps, ToolCall(c), n).Some?
  {
    hide Disciplined, Watch, Next, Allowed, Disjoint;
    if n == 0 {
      NothingOpen();
    } else {
      OpenCalls(steps, n - 1, c);
      DisciplinedTake(steps, n - 1);
      DisjointRun(steps[..n - 1]);
      DisjointNext(Watch(steps[..n - 1]), steps[n - 1].call);
      WatchNext(steps, n - 1);
    }
  }
}
