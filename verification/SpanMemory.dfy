/** What the tracer remembers of the calls of a turn: every pending entry is that of the call that opened it. */
module SpanMemory {
  import opened Wrappers
  import opened TraceModel
  import opened Discipline
  import opened SpanGraph
  import opened SpanLedger
  import opened SpanSlots
  import opened SpanOwners

  /** The id of that role that is drawn first in step `k`. */
  function DrawnAt(start: Time, steps: seq<Step>, k: nat, role: Role): Id
    requires k <= |steps|
  {
    Id(role, Run(start, steps[..k]).nextId)
  }

  // ---- generations and compactions ----

  lemma GenerationsStep(s: State, st: Step, n: nat)
    ensures var g, g' := s.generations, Apply(s, st).generations;
            if Opens(st.call, LlmStep(n)) then n in g' && g'[n] == Started(Id(GenerationRole, s.nextId), st.at)
            else if Closes(st.call, LlmStep(n)) then n !in g'
            else (n in g' <==> n in g) && (n in g ==> g'[n] == g[n])
  {
    match st.call
    case ToolStart(c, name, input) => SameSlots(s, c, name, input, st.at);
    case ToolEnd(c, isError) => SameSlotsEnd(s, c, isError, st.at);
    case _ =>
  }

  lemma SameSlots(s: State, c: CallId, name: string, input: Input, at: Time)
    ensures var s' := OnToolStart(s, c, name, input, at); s'.generations == s.generations && s'.compact == s.compact
  {
    assert RecordTool(s, c, name, input, at).generations == s.generations;
    assert RecordTool(s, c, name, input, at).compact == s.compact;
    hide RecordTool;
  }

  lemma SameSlotsEnd(s: State, c: CallId, isError: bool, at: Time)
    ensures var s' := OnToolEnd(s, c, isError, at); s'.generations == s.generations && s'.compact == s.compact
  {
    assert EndSubagent(s, isError, at).generations == s.generations;
    assert EndSubagent(s, isError, at).compact == s.compact;
    hide EndSubagent;
  }

  /** The generations held are those whose LLM start has had no end, with its instant and the id drawn then. */
  lemma {:induction false} GenerationsRemembered(start: Time, steps: seq<Step>, n: nat, g: nat)
    requires n <= |steps|
    ensures var s := Run(start, steps[..n]);
            match OpenedAt(steps, LlmStep(g), n)
            case None => g !in s.generations
            case Some(k) => g in s.generations
                            && s.generations[g] == Started(DrawnAt(start, steps, k, GenerationRole), steps[k].at)
  {
    hide Run, Apply, Opens, Closes;
    if n == 0 {
      NothingRemembered(start);
    } else {
      GenerationsRemembered(start, steps, n - 1, g);
      RunNext(start, steps, n - 1);
      GenerationsStep(Run(start, steps[..n - 1]), steps[n - 1], g);
    }
  }

  lemma NothingRemembered(start: Time)
    ensures var s := Run(start, []);
            s.generations == map[] && s.compact == None && s.below == [] && s.top == MainFrame()
            && s.log == [AgentRunStarted(MAIN_AGENT, start)]
  {
  }

  lemma CompactStep(s: State, st: Step)
    ensures Apply(s, st).compact ==
              if Opens(st.call, Compaction) then Some(Started(Id(CompactRole, s.nextId), st.at))
              else if Closes(st.call, Compaction) then None
              else s.compact
  {
    match st.call
    case ToolStart(c, name, input) => SameSlots(s, c, name, input, st.at);
    case ToolEnd(c, isError) => SameSlotsEnd(s, c, isError, st.at);
    case _ =>
  }

  lemma {:induction false} CompactRemembered(start: Time, steps: seq<Step>, n: nat)
    requires n <= |steps|
    ensures Run(start, steps[..n]).compact ==
              match OpenedAt(steps, Compaction, n)
              case None => None
              case Some(k) => Some(Started(DrawnAt(start, steps, k, CompactRole), steps[k].at))
  {
    hide Run, Apply, Opens, Closes;
    if n == 0 {
      NothingRemembered(start);
    } else {
      CompactRemembered(start, steps, n - 1);
      RunNext(start, steps, n - 1);
      CompactStep(Run(start, steps[..n - 1]), steps[n - 1]);
    }
  }

  // ---- tools ----

  /** The entry `t` is that of the tool call started in step `k`. */
  ghost predicate Remembers(start: Time, steps: seq<Step>, k: nat, t: PendingTool) {
    && k < |steps| && steps[k].call.ToolStart?
    && t.name == steps[k].call.name && t.input == steps[k].call.input && t.start == steps[k].at
    && t.span == LaunchOf(Run(start, steps[..k]), steps[k])[0].span
  }

  /** Whatever is pending after a step was pending before it, or has been started by it. */
  lemma PendingStep(s: State, st: Step, f: Frame, c: CallId)
    requires Has(Apply(s, st), f) && c in f.pending
    ensures || (exists g :: Has(s, g) && c in g.pending && g.pending[c] == f.pending[c])
            || (Opens(st.call, ToolCall(c)) && f.pending[c].name == st.call.name && f.pending[c].input == st.call.input
                && f.pending[c].start == st.at && f.pending[c].span == LaunchOf(s, st)[0].span)
  {
    assert Has(s, s.top);
    match st.call
    case ToolStart(d, name, input) =>
      var s1 := RecordTool(s, d, name, input, st.at);
      assert f == s1.top || f in s.below || f.pending == map[];
      assert f == s1.top && c != d ==> c in s.top.pending && s.top.pending[c] == f.pending[c];
    case ToolEnd(d, isError) => PendingEnd(s, d, isError, st.at, f, c);
    case _ => assert f in s.below || f.pending == s.top.pending;
  }

  lemma PendingEnd(s: State, d: CallId, isError: bool, at: Time, f: Frame, c: CallId)
    requires Has(OnToolEnd(s, d, isError, at), f) && c in f.pending
    ensures exists g :: Has(s, g) && c in g.pending && g.pending[c] == f.pending[c]
  {
    var s1 := if s.HasAgentCall(d) then EndSubagent(s, isError, at) else s;
    PendingAgentEnd(s, isError, at);
    hide EndSubagent;
    assert Has(s1, s1.top);
    if f == EndTool(s1, d, isError, at).top {
      assert c in s1.top.pending && s1.top.pending[c] == f.pending[c];
    } else {
      assert Has(s1, f);
    }
  }

  lemma PendingAgentEnd(s: State, isError: bool, at: Time)
    ensures forall f :: Has(EndSubagent(s, isError, at), f) ==> exists g :: Has(s, g) && g.pending == f.pending
  {
    assert Has(s, s.top);
    assert forall f :: f in s.below ==> Has(s, f);
  }

  /** A pending call is open. */
  lemma PendingIsOpen(s: State, m: Monitor, f: Frame, c: CallId)
    requires Follows(s, m) && Has(s, f) && c in f.pending
    ensures m.IsOpen(c)
  {
    if f != s.top {
      var i :| 0 <= i < |s.below| && s.below[i] == f;
      assert c in m.below[i].scope.open;
    }
  }

  /** Every pending tool is that of its latest start, which has not ended. */
  lemma {:induction false} ToolsRemembered(start: Time, steps: seq<Step>, n: nat, f: Frame, c: CallId)
    requires Disciplined(steps) && n <= |steps| && Has(Run(start, steps[..n]), f) && c in f.pending
    ensures var k := OpenedAt(steps, ToolCall(c), n); k.Some? && Remembers(start, steps, k.value, f.pending[c])
    decreases n
  {
    hide Disciplined, Run, Apply, Watch, Next, Follows, FrameIds, OnlyOwed, Drawn, Has, LaunchOf, Allowed;
    hide Opens, Closes;
    DisciplinedTake(steps, n);
    AccountedRun(start, steps[..n]);
    PendingIsOpen(Run(start, steps[..n]), Watch(steps[..n]), f, c);
    OpenCalls(steps, n, c);
    if n > 0 {
      var s := Run(start, steps[..n - 1]);
      RunNext(start, steps, n - 1);
      PendingStep(s, steps[n - 1], f, c);
      if g :| Has(s, g) && c in g.pending && g.pending[c] == f.pending[c] {
        ToolsRemembered(start, steps, n - 1, g, c);
        StartedOnce(start, steps, n - 1, g, c);
      } else {
        OpensTool(steps[n - 1].call, c);
      }
    }
  }

  lemma OpensTool(call: Call, c: CallId)
    requires Opens(call, ToolCall(c))
    ensures call.ToolStart? && call.c == c
  {
  }

  /** A call that is pending is not started again. */
  lemma StartedOnce(start: Time, steps: seq<Step>, n: nat, f: Frame, c: CallId)
    requires Disciplined(steps) && n < |steps| && Has(Run(start, steps[..n]), f) && c in f.pending
    ensures !Opens(steps[n].call, ToolCall(c))
  {
    hide Disciplined, Run, Watch, Follows, FrameIds, OnlyOwed, Drawn, Has;
    DisciplinedTake(steps, n);
    AccountedRun(start, steps[..n]);
    PendingIsOpen(Run(start, steps[..n]), Watch(steps[..n]), f, c);
  }

  // ---- agents ----

  /** `f` is the frame of the sub-agent that step `j` began. */
  ghost predicate Begun(start: Time, steps: seq<Step>, j: nat, f: Frame) {
    && j < |steps| && IsAgentStart(steps[j])
    && f.agent == BegunBy(start, steps, j) && f.start == steps[j].at
    && f.agentName == steps[j].call.input.subagentType.GetOr("fork")
    && f.input == Take(steps[j].call.input.prompt.GetOr(""), 200)
  }

  predicate SameAgent(f: Frame, g: Frame) {
    f.agent == g.agent && f.agentName == g.agentName && f.input == g.input && f.start == g.start
  }

  /** A step changes no agent but for the one it begins. */
  lemma AgentStep(s: State, st: Step, f: Frame)
    requires Has(Apply(s, st), f)
    ensures || (exists g :: Has(s, g) && SameAgent(f, g))
            || (IsAgentStart(st) && f.agent == Apply(s, st).top.agent && f.start == st.at
                && f.agentName == st.call.input.subagentType.GetOr("fork")
                && f.input == Take(st.call.input.prompt.GetOr(""), 200))
  {
    assert Has(s, s.top);
    match st.call
    case ToolStart(c, name, input) =>
      var s1 := RecordTool(s, c, name, input, st.at);
      assert SameAgent(s1.top, s.top);
      hide RecordTool;
      assert f == s1.top || f in s.below || (name == "Agent" && f == BeginSubagent(s1, input, st.at).top);
      assert f in s.below ==> Has(s, f);
    case ToolEnd(c, isError) => AgentsAtEnd(s, c, isError, st.at, f);
    case _ => assert SameAgent(f, s.top) || (f in s.below && Has(s, f));
  }

  lemma AgentsAtEnd(s: State, c: CallId, isError: bool, at: Time, f: Frame)
    requires Has(OnToolEnd(s, c, isError, at), f)
    ensures exists g :: Has(s, g) && SameAgent(f, g)
  {
    hide Has, SameAgent, IsAgentCall, EndTool, EndSubagent;
    if s.HasAgentCall(c) {
      var g := AgentAfterTool(EndSubagent(s, isError, at), c, isError, at, f);
      var h := AgentAfterAgent(s, isError, at, g);
      SameAsSame(f, g, h);
    } else {
      var g := AgentAfterTool(s, c, isError, at, f);
    }
  }

  lemma SameAsSame(f: Frame, g: Frame, h: Frame)
    requires SameAgent(f, g) && SameAgent(g, h)
    ensures SameAgent(f, h)
  {
  }

  lemma AgentAfterTool(s: State, c: CallId, isError: bool, at: Time, f: Frame) returns (g: Frame)
    requires Has(EndTool(s, c, isError, at), f)
    ensures Has(s, g) && SameAgent(f, g)
  {
    g := if f == EndTool(s, c, isError, at).top then s.top else f;
  }

  lemma AgentAfterAgent(s: State, isError: bool, at: Time, f: Frame) returns (g: Frame)
    requires Has(EndSubagent(s, isError, at), f)
    ensures Has(s, g) && SameAgent(f, g)
  {
    g := if f in s.below then f else s.top;
  }

  /** Every frame but the main one is that of the sub-agent that some Agent call began. */
  lemma {:induction false} AgentsRemembered(start: Time, steps: seq<Step>, n: nat, f: Frame)
    requires n <= |steps| && Has(Run(start, steps[..n]), f)
    ensures SameAgent(f, MainFrame()) || exists j :: Begun(start, steps, j, f)
    decreases n
  {
    hide Run, Apply, Has, IsAgentStart;
    if n == 0 {
      NothingRemembered(start);
      OnlyMain(start, f);
    } else {
      var s := Run(start, steps[..n - 1]);
      RunNext(start, steps, n - 1);
      AgentStep(s, steps[n - 1], f);
      if g :| Has(s, g) && SameAgent(f, g) {
        AgentsRemembered(start, steps, n - 1, g);
        if j :| Begun(start, steps, j, g) { assert Begun(start, steps, j, f); }
      } else {
        assert Begun(start, steps, n - 1, f);
      }
    }
  }

  lemma OnlyMain(start: Time, f: Frame)
    requires Has(Run(start, []), f)
    ensures f == MainFrame()
  {
  }

  lemma IdsGrow(s: State, st: Step)
    ensures s.nextId <= Apply(s, st).nextId
    ensures IsAgentStart(st) ==> s.nextId <= Apply(s, st).top.agent.n < Apply(s, st).nextId
  {
  }

  lemma {:induction false} IdsGrowRun(start: Time, steps: seq<Step>, m: nat, n: nat)
    requires m <= n <= |steps|
    ensures Run(start, steps[..m]).nextId <= Run(start, steps[..n]).nextId
    decreases n
  {
    hide Run, Apply;
    if m < n {
      IdsGrowRun(start, steps, m, n - 1);
      RunNext(start, steps, n - 1);
      IdsGrow(Run(start, steps[..n - 1]), steps[n - 1]);
    }
  }

  /** No two Agent calls begin the same sub-agent. */
  lemma BegunOnce(start: Time, steps: seq<Step>, i: nat, j: nat)
    requires i < |steps| && j < |steps| && IsAgentStart(steps[i]) && IsAgentStart(steps[j])
    requires BegunBy(start, steps, i) == BegunBy(start, steps, j)
    ensures i == j
  {
    hide Run, Apply, IsAgentStart;
    RunNext(start, steps, i);
    RunNext(start, steps, j);
    IdsGrow(Run(start, steps[..i]), steps[i]);
    IdsGrow(Run(start, steps[..j]), steps[j]);
    if i < j { IdsGrowRun(start, steps, i + 1, j); }
    if j < i { IdsGrowRun(start, steps, j + 1, i); }
  }

  /** The openers are open ever since. */
  lemma {:induction false} OpenersAreOpen(steps: seq<Step>, n: nat, p: nat)
    requires Disciplined(steps) && n <= |steps| && p < |Openers(steps[..n])|
    ensures var j := Openers(steps[..n])[p];
            j < n && IsAgentStart(steps[j]) && OpenedAt(steps, ToolCall(steps[j].call.c), n) == Some(j)
    decreases n
  {
    hide Openers, Watch, Next, Disjoint, Disciplined, Allowed;
    OpenersMatch(steps[..n]);
    var j := Openers(steps[..n])[p];
    var c := steps[j].call.c;
    if n == 0 {
      OpenersBegin();
    } else {
      OpenersNext(steps, n - 1);
      if p < |Openers(steps[..n - 1])| {
        OpenersAreOpen(steps, n - 1, p);
        assert Openers(steps[..n - 1])[p] == j;
        DisciplinedTake(steps, n);
        DisjointRun(steps[..n]);
        OwnCallsOpen(steps[..n], Watch(steps[..n]), Openers(steps[..n]), p);
        OpenCalls(steps, n, c);
        DisciplinedTake(steps, n - 1);
        OwnCallsOpen(steps[..n - 1], Watch(steps[..n - 1]), Openers(steps[..n - 1]), p) by {
          OpenersMatch(steps[..n - 1]);
          DisjointRun(steps[..n - 1]);
        }
        AllowedStart(Watch(steps[..n - 1]), steps[n - 1].call, c);
      }
    }
  }

  lemma OpenersBegin()
    ensures Openers([]) == []
  {
  }

  lemma AllowedStart(m: Monitor, call: Call, c: CallId)
    requires Allowed(m, call) && m.IsOpen(c)
    ensures !Opens(call, ToolCall(c))
  {
  }

  lemma OwnCallsOpen(steps: seq<Step>, m: Monitor, openers: seq<nat>, p: nat)
    requires Match(steps, m, openers) && Disjoint(m) && p < |openers|
    ensures openers[p] < |steps| && IsAgentStart(steps[openers[p]]) && m.IsOpen(steps[openers[p]].call.c)
  {
    assert m.below[p].call in m.below[p].scope.open;
  }
}
