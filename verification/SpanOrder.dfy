/** When parents are emitted before their children, and when they are not. */
module SpanOrder {
  import opened Wrappers
  import opened TraceModel
  import opened Discipline
  import opened SpanGraph

  /** Whatever an event names as its parent has been created before it. */
  ghost predicate Ordered(log: seq<Event>) {
    forall i :: 0 <= i < |log| && log[i].body.parent.Some? ==> log[i].body.parent.value in Created(log[..i])
  }

  /**
   A call that makes the tracer name nothing but the main agent: it ends no tool, and within a sub-agent it ends no
   generation and neither starts nor ends a compaction.
   */
  predicate Calm(m: Monitor, call: Call) {
    match call
    case ToolEnd(c, _) => !m.IsOpen(c)
    case LlmEnd(step, _) => step in m.steps ==> m.below == []
    case CompactStart => m.below == []
    case CompactEnd(_) => m.compacting ==> m.below == []
    case _ => true
  }

  predicate AllCalm(steps: seq<Step>) {
    forall k :: 0 <= k < |steps| ==> Calm(Watch(steps[..k]), steps[k].call)
  }

  lemma AllCalmNext(steps: seq<Step>)
    requires steps != []
    ensures var before := steps[..|steps| - 1];
            AllCalm(steps) <==> AllCalm(before) && Calm(Watch(before), steps[|steps| - 1].call)
  {
    hide Calm, Watch;
    var before := steps[..|steps| - 1];
    assert forall k :: 0 <= k < |before| ==> before[..k] == steps[..k] && before[k] == steps[k];
  }

  lemma OrderedNext(log: seq<Event>, e: Event)
    ensures Ordered(log + [e]) <==> Ordered(log) && (e.body.parent.Some? ==> e.body.parent.value in Created(log))
  {
    var all := log + [e];
    assert forall i :: 0 <= i < |log| ==> all[i] == log[i] && all[..i] == log[..i];
    assert all[..|log|] == log && all[|log|] == e;
  }

  /** Nothing that comes later repairs the order. */
  lemma {:induction false} OrderedPrefix(log: seq<Event>, more: seq<Event>)
    requires Ordered(log + more)
    ensures Ordered(log)
  {
    if more == [] {
      assert log + more == log;
    } else {
      var init, e := more[..|more| - 1], more[|more| - 1];
      assert log + more == log + init + [e];
      OrderedNext(log + init, e);
      OrderedPrefix(log, init);
    }
  }

  /** No frame has a batch in which a tool has ended. */
  predicate NoneEnded(m: Monitor) {
    !m.top.ended && forall i :: 0 <= i < |m.below| ==> !m.below[i].scope.ended
  }

  lemma OwnCallIsOpen(s: State, m: Monitor, c: CallId)
    requires Follows(s, m) && m.EndsAgent(c)
    ensures m.IsOpen(c)
  {
    var k := |m.below| - 1;
    OwnCallOpen(s.below[k], m.below[k]);
  }

  lemma CalmEndsNothing(s: State, m: Monitor, call: Call)
    requires Follows(s, m) && NoneEnded(m) && Calm(m, call)
    ensures NoneEnded(Next(m, call))
  {
    if call.ToolEnd? && m.EndsAgent(call.c) { OwnCallIsOpen(s, m, call.c); }
  }

  /** The main agent is created at the start of the turn, every other agent when it ends. */
  lemma TopCreatedIff(s: State)
    requires FrameIds(s)
    ensures s.top.agent in Created(s.log) <==> s.below == []
  {
    assert s.below != [] ==> Young(s.below[0], s.top.agent.n);
  }

  lemma OrderedUnderAgent(s: State, e: Event)
    requires FrameIds(s) && Ordered(s.log) && e.body.parent == Some(s.top.agent)
    ensures Ordered(s.log + [e]) <==> s.below == []
  {
    hide FrameIds, Ordered;
    TopCreatedIff(s);
    OrderedNext(s.log, e);
  }

  /** An ended tool names a batch that is still open, so its observation comes before the batch. */
  lemma ToolComesFirst(s: State, c: CallId, isError: bool, at: Time)
    requires c in s.top.pending && s.top.batch == Some(s.top.pending[c].parent)
    requires s.top.batch.value !in Created(s.log)
    ensures !Ordered(EndTool(s, c, isError, at).log)
  {
    hide Ordered;
    OrderedNext(s.log, ToolEvent(s.top.pending[c], isError, at));
  }

  lemma OwnToolComesFirst(s: State, m: Monitor, c: CallId, isError: bool, at: Time)
    requires Follows(s, m) && FrameIds(s) && c in m.top.open && !s.HasAgentCall(c)
    ensures !Ordered(OnToolEnd(s, c, isError, at).log)
  {
    hide Ordered;
    assert FrameMatches(s.top, m.top) && NotYetCreated(s.log, s.top);
    ToolComesFirst(s, c, isError, at);
  }

  lemma AgentToolComesFirst(s: State, m: Monitor, c: CallId, isError: bool, at: Time)
    requires Follows(s, m) && FrameIds(s) && m.EndsAgent(c) && s.HasAgentCall(c)
    ensures !Ordered(OnToolEnd(s, c, isError, at).log)
  {
    hide Ordered;
    var k, s1 := |s.below| - 1, EndSubagent(s, isError, at);
    assert FrameMatches(s.below[k], m.below[k].scope) && WaitsFor(s.below[k], m.below[k].call);
    assert s1.top == s.below[k];
    TopSettled(s, m);
    EndSubagentIds(s, isError, at);
    assert NotYetCreated(s1.log, s1.top);
    ToolComesFirst(s1, c, isError, at);
  }

  lemma OrderedToolEnd(s: State, m: Monitor, c: CallId, isError: bool, at: Time)
    requires Accounted(s, m) && Allowed(m, ToolEnd(c, isError)) && Ordered(s.log)
    ensures Ordered(OnToolEnd(s, c, isError, at).log) <==> Calm(m, ToolEnd(c, isError))
  {
    hide Ordered, FrameIds, OnlyOwed, Drawn;
    AgentCallIsTop(s, m, c, isError);
    if c in m.top.open {
      OwnToolComesFirst(s, m, c, isError, at);
    } else if m.EndsAgent(c) {
      OwnCallIsOpen(s, m, c);
      AgentToolComesFirst(s, m, c, isError, at);
    } else {
      assert FrameMatches(s.top, m.top);
      assert OnToolEnd(s, c, isError, at) == s;
    }
  }

  /** A step keeps the order exactly if its call is calm. */
  lemma OrderedStep(s: State, m: Monitor, st: Step)
    requires Accounted(s, m) && Allowed(m, st.call) && !m.top.ended && Ordered(s.log)
    ensures Ordered(Apply(s, st).log) <==> Calm(m, st.call)
  {
    hide Ordered, FrameIds, OnlyOwed, Drawn;
    match st.call
    case LlmStart(_) => assert FrameMatches(s.top, m.top);
    case LlmEnd(step, provider) =>
      if step in s.generations {
        OrderedUnderAgent(s, GenerationEvent(s.generations[step], s.top.agent, provider, st.at));
      }
    case CompactStart => OrderedUnderAgent(s, CompactStarted(Id(CompactRole, s.nextId), s.top.agent, st.at));
    case CompactEnd(isError) =>
      if s.compact.Some? { OrderedUnderAgent(s, CompactEnded(s.compact.value, s.top.agent, isError, st.at)); }
    case ToolStart(_, _, _) =>
    case ToolEnd(c, isError) => OrderedToolEnd(s, m, c, isError, st.at);
  }

  lemma AgentLogGrows(s: State, isError: bool, at: Time)
    ensures s.log <= EndSubagent(s, isError, at).log
  {
    var s1 := if s.below == [] then s else s.Emit(SubagentEvent(s.top, isError, at));
    assert s.log <= s1.log <= FlushToolsBatch(s1).log;
  }

  lemma LogGrows(s: State, st: Step)
    ensures s.log <= Apply(s, st).log
  {
    hide EndSubagent, BeginSubagent;
    match st.call
    case ToolStart(c, name, input) =>
      assert RecordTool(s, c, name, input, st.at).log == s.log;
      BeginEmitsNothing(RecordTool(s, c, name, input, st.at), input, st.at);
    case ToolEnd(c, isError) => AgentLogGrows(s, isError, st.at);
    case _ =>
  }

  lemma BeginEmitsNothing(s: State, input: Input, at: Time)
    ensures BeginSubagent(s, input, at).log == s.log
  {
  }

  lemma BrokenStaysBroken(log: seq<Event>, log': seq<Event>)
    requires log <= log' && !Ordered(log)
    ensures !Ordered(log')
  {
    hide Ordered;
    assert log' == log + log'[|log|..];
    if Ordered(log') { OrderedPrefix(log, log'[|log|..]); }
  }

  lemma {:induction false} OrderedRun(start: Time, steps: seq<Step>)
    requires Disciplined(steps)
    ensures Ordered(Run(start, steps).log) <==> AllCalm(steps)
    ensures AllCalm(steps) ==> NoneEnded(Watch(steps))
  {
    if steps == [] {
      assert Run(start, steps).log == [] + [AgentRunStarted(MAIN_AGENT, start)];
      OrderedNext([], AgentRunStarted(MAIN_AGENT, start));
    } else {
      var before, st := steps[..|steps| - 1], steps[|steps| - 1];
      var s, m := Run(start, before), Watch(before);
      DisciplinedPrefix(steps);
      AccountedRun(start, before);
      AllCalmNext(steps);
      OrderedRun(start, before);
      hide Ordered, AllCalm, Calm, Disciplined, FrameIds, OnlyOwed, Drawn, Follows, Apply, Next, Allowed;
      if AllCalm(before) {
        OrderedStep(s, m, st);
        if Calm(m, st.call) { CalmEndsNothing(s, m, st.call); }
      } else {
        LogGrows(s, st);
        BrokenStaysBroken(s.log, Apply(s, st).log);
      }
    }
  }

  // ---- main result ----

  /**
   In a disciplined turn every parent is emitted before its children exactly if all its calls are calm: no tool that was
   started ends, and no sub-agent ends a generation or compacts. Otherwise some child comes before its parent.
   */
  lemma OrderedIffCalm(start: Time, steps: seq<Step>, end: Time)
    requires Disciplined(steps)
    ensures Ordered(OnTraceEnd(Run(start, steps), end).log) <==> AllCalm(steps)
  {
    OrderedRun(start, steps);
    AccountedRun(start, steps);
    OrderedAtEnd(Run(start, steps), Watch(steps), end);
  }

  lemma OrderedAtEnd(s: State, m: Monitor, end: Time)
    requires Accounted(s, m) && (Ordered(s.log) ==> !m.top.ended)
    ensures Ordered(OnTraceEnd(s, end).log) <==> Ordered(s.log)
  {
    hide Ordered;
    assert FrameMatches(s.top, m.top);
    if Ordered(s.log) {
      OrderedNext(s.log, AgentRunEnded(s.Main().agent, end));
    } else {
      BrokenStaysBroken(s.log, OnTraceEnd(s, end).log);
    }
  }

  /** One tool is enough: its observation is emitted before the batch span that it names as its parent. */
  lemma ChildBeforeParent(input: Input)
    ensures var steps := [Step(ToolStart("a", "Read", input), 1), Step(ToolEnd("a", false), 2)];
            var log := OnTraceEnd(Run(0, steps), 3).log;
            && Disciplined(steps) && Balanced(steps) && !Ordered(log)
            && |log| == 4 && log[1].Create? && log[2].Create? && log[1].body.parent == Some(log[2].body.id)
  {
    hide Ordered;
    var st1, st2 := Step(ToolStart("a", "Read", input), 1), Step(ToolEnd("a", false), 2);
    var steps := [st1, st2];
    assert steps[..1] == [st1] && steps[..0] == [] && [st1][..0] == [];
    assert Run(0, []).log == [AgentRunStarted(MAIN_AGENT, 0)];
    assert Run(0, [st1]) == Apply(Run(0, []), st1) && Watch([st1]) == Next(Watch([]), st1.call);
    var s1 := Run(0, [st1]);
    assert !s1.HasAgentCall("a");
    assert Run(0, steps) == Apply(s1, st2) && Watch(steps) == Next(Watch([st1]), st2.call);
    OrderedIffCalm(0, steps, 3);
    assert !Calm(Watch(steps[..1]), steps[1].call);
  }
}
