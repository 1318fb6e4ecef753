/** What the tracer does not promise, and why the discipline is needed. */
module SpanLimits {
  import opened Wrappers
  import opened TraceModel
  import opened Discipline
  import opened SpanGraph

  function Continue(s: State, steps: seq<Step>): State
    decreases |steps|
  {
    if steps == [] then s else Continue(Apply(s, steps[0]), steps[1..])
  }

  /** A batch id that no frame holds any more and that nothing has created, though something names it. */
  ghost predicate Lost(s: State, id: Id) {
    && id.role == BatchRole && id.n < s.nextId
    && id in Dangling(s.log)
    && (forall f :: Has(s, f) ==> f.batch != Some(id))
    && (forall k :: k in s.generations ==> s.generations[k].id.role == GenerationRole)
    && (forall f, c :: Has(s, f) && c in f.pending ==> f.pending[c].span.role == ToolRole)
    && (forall f :: Has(s, f) ==> f.agent.role == AgentRole)
  }

  lemma LostEmit(s: State, e: Event, id: Id)
    requires Lost(s, id) && (e.Create? ==> e.body.id != id)
    ensures Lost(s.Emit(e), id)
  {
    Extend(s.log, e);
    assert forall f :: Has(s.Emit(e), f) ==> Has(s, f);
  }

  lemma LostFlush(s: State, id: Id)
    requires Lost(s, id)
    ensures Lost(FlushToolsBatch(s), id)
  {
    assert Has(s, s.top);
    var s1 := s.(top := NoTools(s.top));
    assert forall f :: Has(s1, f) ==> Has(s, f) || f == NoTools(s.top);
    assert Lost(s1, id);
    if Flushable(s.top) { LostEmit(s1, BatchEvent(s.top), id); }
  }

  lemma LostToolStart(s: State, c: CallId, name: string, input: Input, at: Time, id: Id)
    requires Lost(s, id)
    ensures Lost(OnToolStart(s, c, name, input, at), id)
  {
    assert Has(s, s.top);
    var s1, s' := RecordTool(s, c, name, input, at), OnToolStart(s, c, name, input, at);
    assert forall f :: Has(s', f) ==> Has(s, f) || f == s1.top || f == s'.top;
  }

  lemma LostToolEnd(s: State, c: CallId, isError: bool, at: Time, id: Id)
    requires Lost(s, id)
    ensures Lost(OnToolEnd(s, c, isError, at), id)
  {
    assert Has(s, s.top);
    var s1 := s;
    if s.HasAgentCall(c) {
      if s.below != [] { LostEmit(s, SubagentEvent(s.top, isError, at), id); }
      var s0 := if s.below == [] then s else s.Emit(SubagentEvent(s.top, isError, at));
      LostFlush(s0, id);
      s1 := EndSubagent(s, isError, at);
      assert forall f :: Has(s1, f) ==> Has(FlushToolsBatch(s0), f);
      assert Lost(s1, id);
    }
    LostEndTool(s1, c, isError, at, id);
  }

  lemma LostEndTool(s: State, c: CallId, isError: bool, at: Time, id: Id)
    requires Lost(s, id)
    ensures Lost(EndTool(s, c, isError, at), id)
  {
    assert Has(s, s.top);
    if c in s.top.pending {
      var s1 := s.Emit(ToolEvent(s.top.pending[c], isError, at));
      LostEmit(s, ToolEvent(s.top.pending[c], isError, at), id);
      var s' := EndTool(s, c, isError, at);
      assert forall f :: Has(s', f) ==> Has(s1, f) || f == s'.top;
    }
  }

  lemma LostStep(s: State, st: Step, id: Id)
    requires Lost(s, id)
    ensures Lost(Apply(s, st), id)
  {
    match st.call
    case LlmStart(_) => LostFlush(s, id);
    case LlmEnd(step, provider) =>
      if step in s.generations {
        LostEmit(s, GenerationEvent(s.generations[step], s.top.agent, provider, st.at), id);
      }
    case CompactStart => LostEmit(s, CompactStarted(Id(CompactRole, s.nextId), s.top.agent, st.at), id);
    case CompactEnd(isError) =>
      if s.compact.Some? { LostEmit(s, CompactEnded(s.compact.value, s.top.agent, isError, st.at), id); }
    case ToolStart(c, name, input) => LostToolStart(s, c, name, input, st.at, id);
    case ToolEnd(c, isError) => LostToolEnd(s, c, isError, st.at, id);
  }

  lemma LostForever(s: State, steps: seq<Step>, id: Id, end: Time)
    requires Lost(s, id)
    ensures !Closed(OnTraceEnd(Continue(s, steps), end).log)
    decreases |steps|
  {
    if steps == [] {
      LostFlush(s, id);
      LostEmit(FlushToolsBatch(s), AgentRunEnded(s.Main().agent, end), id);
    } else {
      LostStep(s, steps[0], id);
      LostForever(Apply(s, steps[0]), steps[1..], id, end);
    }
  }

  /**
   A tool that starts after the tools of its context have all ended, without an LLM start in between, overwrites the
   id of their batch. Whatever is called afterwards, in any order, the turn is never closed again.
   */
  lemma SecondBatchLosesFirst(start: Time, steps: seq<Step>, c: CallId, name: string, input: Input, at: Time,
                              more: seq<Step>, end: Time)
    requires Disciplined(steps)
    requires Watch(steps).top.open == {} && Watch(steps).top.batched
    ensures !Closed(OnTraceEnd(Continue(OnToolStart(Run(start, steps), c, name, input, at), more), end).log)
  {
    AccountedRun(start, steps);
    var s, m := Run(start, steps), Watch(steps);
    var id := s.top.batch.value;
    assert OwedBy(s.top, m.top, id);
    var s1, s' := RecordTool(s, c, name, input, at), OnToolStart(s, c, name, input, at);
    assert s.top.pending == map[] && s'.log == s.log && Has(s, s.top);
    forall f | Has(s', f)
      ensures f.batch != Some(id) && f.agent.role == AgentRole
      ensures forall d :: d in f.pending ==> f.pending[d].span.role == ToolRole
    {
      assert f == s1.top || f == s'.top || f in s.below;
      if f in s.below {
        var i :| 0 <= i < |s.below| && s.below[i] == f;
        assert Young(s.below[i], s.top.agent.n) && Has(s, f);
      }
    }
    LostForever(s', more, id, end);
  }

  /** The frame that is current once the current sub-agent has ended. */
  function FrameBelow(s: State): Frame { if s.below == [] then s.top else s.below[|s.below| - 1] }

  /**
   An Agent call that is pending anywhere always ends the current sub-agent. Its own observation is emitted exactly if
   it is pending in the frame below; otherwise a wrong frame was popped and the call is never observed by this end.
   */
  lemma AgentCallObservedIff(s: State, c: CallId, isError: bool, at: Time)
    requires s.HasAgentCall(c)
    ensures var s1, s' := EndSubagent(s, isError, at), OnToolEnd(s, c, isError, at);
            if c in FrameBelow(s).pending then s'.log == s1.log + [ToolEvent(FrameBelow(s).pending[c], isError, at)]
            else s' == s1
    ensures forall e :: e in EndSubagent(s, isError, at).log && e !in s.log ==> e.body.kind != ToolObservation
  {
    var s0 := if s.below == [] then s else s.Emit(SubagentEvent(s.top, isError, at));
    assert EndSubagent(s, isError, at).top.pending == FrameBelow(s).pending;
    assert EndSubagent(s, isError, at).log == FlushToolsBatch(s0).log;
  }

  /** Two Agent calls that begin in a state that knows neither. */
  lemma TwoAgentsStarted(s: State, a: CallId, b: CallId, inputA: Input, inputB: Input, t1: Time, t2: Time)
    requires a != b && forall f :: Has(s, f) ==> a !in f.pending && b !in f.pending
    ensures var s1 := OnToolStart(s, a, "Agent", inputA, t1); var s2 := OnToolStart(s1, b, "Agent", inputB, t2);
            && s2.log == s.log && s2.below == s1.below + [s2.below[|s1.below|]] && s1.below[..|s.below|] == s.below
            && |s1.below| == |s.below| + 1 && s1.below[|s.below|].pending.Keys == s.top.pending.Keys + {a}
            && IsAgentCall(s1.below[|s.below|], a) && IsAgentCall(s2.below[|s1.below|], b)
            && s2.below[|s1.below|].pending.Keys == {b} && s2.top.batch.None?
            && s2.below[|s1.below|].batchEnd.None?
  {
    assert Has(s, s.top);
    var s1 := OnToolStart(s, a, "Agent", inputA, t1);
    assert s1.top.pending == map[] && s1.below == s.below + [RecordTool(s, a, "Agent", inputA, t1).top];
    var s2 := OnToolStart(s1, b, "Agent", inputB, t2);
    assert s2.below == s1.below + [RecordTool(s1, b, "Agent", inputB, t2).top];
  }

  /**
   Two Agent calls that end in the order they started, begun in any state: the two sub-agents are emitted in the wrong
   order and neither call is observed, while the first of them stays pending.
   */
  lemma OverlappingAgentsUnobserved(s: State, a: CallId, b: CallId, inputA: Input, inputB: Input,
                                    t1: Time, t2: Time, t3: Time, t4: Time)
    requires a != b && forall f :: Has(s, f) ==> a !in f.pending && b !in f.pending
    ensures var s2 := OnToolStart(OnToolStart(s, a, "Agent", inputA, t1), b, "Agent", inputB, t2);
            var s3 := OnToolEnd(s2, a, false, t3); var s4 := OnToolEnd(s3, b, false, t4);
            && s4.log == s.log + [SubagentEvent(s2.top, false, t3), SubagentEvent(s3.top, false, t4)]
            && s4.below == s.below && a in s4.top.pending
  {
    var s1 := OnToolStart(s, a, "Agent", inputA, t1);
    var s2 := OnToolStart(s1, b, "Agent", inputB, t2);
    TwoAgentsStarted(s, a, b, inputA, inputB, t1, t2);
    hide OnToolStart;
    var n := |s.below|;
    assert s2.below[n] == s1.below[n];
    WrongFramePopped(s2, a, n, t3);
    var s3 := OnToolEnd(s2, a, false, t3);
    assert s3.below == s1.below && s3.top == s2.below[n + 1];
    WrongFramePopped(s3, b, n + 1, t4);
  }

  /** Ending a call that is pending in frame `i`, and not in the frame below the current one. */
  lemma WrongFramePopped(s: State, c: CallId, i: nat, at: Time)
    requires s.below != [] && !Flushable(s.top) && i <= |s.below| && c !in FrameBelow(s).pending
    requires IsAgentCall(if i == |s.below| then s.top else s.below[i], c)
    ensures var k := |s.below| - 1; var s' := OnToolEnd(s, c, false, at);
            && s'.below == s.below[..k] && s'.top == s.below[k] && s'.log == s.log + [SubagentEvent(s.top, false, at)]
  {
    assert s.HasAgentCall(c);
    AgentCallObservedIff(s, c, false, at);
  }
}
