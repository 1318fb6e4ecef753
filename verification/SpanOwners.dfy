/** Which agent a tool belongs to, told from the calls alone, and that its observation says so. */
module SpanOwners {
  import opened Wrappers
  import opened TraceModel
  import opened Discipline
  import opened SpanGraph
  import opened SpanLedger
  import opened SpanSlots

  predicate IsAgentStart(st: Step) { st.call.ToolStart? && st.call.name == "Agent" }

  predicate EndsAgentCall(m: Monitor, st: Step) {
    st.call.ToolEnd? && st.call.c !in m.top.open && m.EndsAgent(st.call.c)
  }

  function OpenersAfter(openers: seq<nat>, m: Monitor, st: Step, n: nat): seq<nat> {
    if IsAgentStart(st) then openers + [n]
    else if EndsAgentCall(m, st) && openers != [] then openers[..|openers| - 1]
    else openers
  }

  /** The steps that began the Agent calls which are still open, the outermost first. */
  function Openers(steps: seq<Step>): seq<nat> {
    if steps == [] then [] else
    var n := |steps| - 1;
    OpenersAfter(Openers(steps[..n]), Watch(steps[..n]), steps[n], n)
  }

  ghost predicate Match(steps: seq<Step>, m: Monitor, openers: seq<nat>) {
    && |openers| == |m.below|
    && forall i :: 0 <= i < |openers| ==>
         var j := openers[i];
         j < |steps| && IsAgentStart(steps[j]) && steps[j].call.c == m.below[i].call
  }

  lemma MatchNext(before: seq<Step>, st: Step, m: Monitor, openers: seq<nat>)
    requires Match(before, m, openers)
    ensures Match(before + [st], Next(m, st.call), OpenersAfter(openers, m, st, |before|))
  {
    CallsNext(m, st);
    hide Next;
    var steps := before + [st];
    assert forall j :: 0 <= j < |before| ==> steps[j] == before[j];
  }

  /** Only the begin and the end of an Agent call change which calls are waited for. */
  lemma CallsNext(m: Monitor, st: Step)
    ensures var m' := Next(m, st.call);
            if IsAgentStart(st) then |m'.below| == |m.below| + 1 && m'.below[..|m.below|] == m.below
                                     && m'.below[|m.below|].call == st.call.c
            else if EndsAgentCall(m, st) then m'.below == m.below[..|m.below| - 1]
            else m'.below == m.below
  {
  }

  /** The openers are those of the calls that the agents below wait for. */
  lemma {:induction false} OpenersMatch(steps: seq<Step>)
    ensures Match(steps, Watch(steps), Openers(steps))
  {
    if steps != [] {
      var n := |steps| - 1;
      OpenersMatch(steps[..n]);
      MatchNext(steps[..n], steps[n], Watch(steps[..n]), Openers(steps[..n]));
      assert steps == steps[..n] + [steps[n]];
    }
  }

  /** The sub-agent that step `j` began. */
  function BegunBy(start: Time, steps: seq<Step>, j: nat): Id
    requires j < |steps|
  {
    Run(start, steps[..j + 1]).top.agent
  }

  /** The agents on the tracer's stack, the main agent first. */
  function Agents(s: State): (r: seq<Id>)
    ensures |r| == |s.below| + 1 && r[|s.below|] == s.top.agent
    ensures forall i :: 0 <= i < |s.below| ==> r[i] == s.below[i].agent
  {
    seq(|s.below|, i requires 0 <= i < |s.below| => s.below[i].agent) + [s.top.agent]
  }

  /** The agents on the stack are the main agent and those that the open Agent calls began. */
  ghost predicate Owned(start: Time, steps: seq<Step>, agents: seq<Id>, openers: seq<nat>) {
    && |agents| == |openers| + 1 && agents[0] == MAIN_AGENT
    && forall i :: 0 <= i < |openers| ==> openers[i] < |steps| && agents[i + 1] == BegunBy(start, steps, openers[i])
  }

  lemma OwnedLater(start: Time, steps: seq<Step>, agents: seq<Id>, openers: seq<nat>)
    requires steps != [] && Owned(start, steps[..|steps| - 1], agents, openers)
    ensures Owned(start, steps, agents, openers)
  {
    var before := steps[..|steps| - 1];
    forall i | 0 <= i < |openers| ensures agents[i + 1] == BegunBy(start, steps, openers[i]) {
      assert before[..openers[i] + 1] == steps[..openers[i] + 1];
    }
  }

  /** Only the begin and the end of an Agent call change the agents on the stack. */
  lemma StackStep(s: State, m: Monitor, st: Step)
    requires Follows(s, m) && Allowed(m, st.call)
    ensures var s' := Apply(s, st);
            if IsAgentStart(st) then Agents(s') == Agents(s) + [s'.top.agent]
            else if EndsAgentCall(m, st) then s.below != [] && Agents(s') == Agents(s)[..|s.below|]
            else Agents(s') == Agents(s)
  {
    match st.call
    case ToolStart(c, name, input) => StackToolStart(s, c, name, input, st.at);
    case ToolEnd(c, isError) =>
      AgentCallIsTop(s, m, c, isError);
      StackToolEnd(s, c, isError, st.at);
    case _ =>
  }

  lemma StackToolStart(s: State, c: CallId, name: string, input: Input, at: Time)
    ensures var s' := OnToolStart(s, c, name, input, at);
            Agents(s') == Agents(s) + if name == "Agent" then [s'.top.agent] else []
  {
    var s1 := RecordTool(s, c, name, input, at);
    assert Agents(s1) == Agents(s);
  }

  lemma StackEndSubagent(s: State, isError: bool, at: Time)
    ensures Agents(EndSubagent(s, isError, at)) == if s.below != [] then Agents(s)[..|s.below|] else Agents(s)
  {
  }

  lemma StackEndTool(s: State, c: CallId, isError: bool, at: Time)
    ensures Agents(EndTool(s, c, isError, at)) == Agents(s)
  {
  }

  lemma StackToolEnd(s: State, c: CallId, isError: bool, at: Time)
    ensures Agents(OnToolEnd(s, c, isError, at)) ==
              if s.HasAgentCall(c) && s.below != [] then Agents(s)[..|s.below|] else Agents(s)
  {
    hide EndSubagent, EndTool, Agents;
    StackEndSubagent(s, isError, at);
    StackEndTool(if s.HasAgentCall(c) then EndSubagent(s, isError, at) else s, c, isError, at);
  }

  lemma OwnedPush(start: Time, steps: seq<Step>, agents: seq<Id>, openers: seq<nat>, n: nat)
    requires Owned(start, steps, agents, openers) && n < |steps|
    ensures Owned(start, steps, agents + [BegunBy(start, steps, n)], openers + [n])
  {
    hide BegunBy;
  }

  lemma OwnedPop(start: Time, steps: seq<Step>, agents: seq<Id>, openers: seq<nat>)
    requires Owned(start, steps, agents, openers) && openers != []
    ensures Owned(start, steps, agents[..|openers|], openers[..|openers| - 1])
  {
    hide BegunBy;
  }

  lemma OwnedNext(start: Time, steps: seq<Step>, s: State, m: Monitor, openers: seq<nat>)
    requires steps != []
    requires var n := |steps| - 1; s == Run(start, steps[..n]) && m == Watch(steps[..n])
    requires Follows(s, m) && Allowed(m, steps[|steps| - 1].call)
    requires Owned(start, steps[..|steps| - 1], Agents(s), openers)
    ensures var n := |steps| - 1;
            Owned(start, steps, Agents(Apply(s, steps[n])), OpenersAfter(openers, m, steps[n], n))
  {
    hide Owned, Follows, Allowed, Agents, Apply, EndsAgentCall;
    var n, agents := |steps| - 1, Agents(s);
    StackStep(s, m, steps[n]);
    OwnedLater(start, steps, agents, openers);
    OwnedSize(start, steps, agents, openers);
    if IsAgentStart(steps[n]) {
      assert steps[..n + 1] == steps;
      OwnedPush(start, steps, agents, openers, n);
    } else if EndsAgentCall(m, steps[n]) {
      OwnedPop(start, steps, agents, openers);
    }
  }

  lemma OwnedSize(start: Time, steps: seq<Step>, agents: seq<Id>, openers: seq<nat>)
    requires Owned(start, steps, agents, openers)
    ensures |agents| == |openers| + 1
  {
  }

  lemma {:induction false} AgentsFollowCalls(start: Time, steps: seq<Step>)
    requires Disciplined(steps)
    ensures Owned(start, steps, Agents(Run(start, steps)), Openers(steps))
  {
    if steps != [] {
      var n := |steps| - 1;
      DisciplinedPrefix(steps);
      AccountedRun(start, steps[..n]);
      AgentsFollowCalls(start, steps[..n]);
      OwnedNext(start, steps, Run(start, steps[..n]), Watch(steps[..n]), Openers(steps[..n]));
    }
  }

  // ---- main result ----

  /** The agent that the innermost open Agent call began, or the main agent. */
  function OwnerAt(start: Time, steps: seq<Step>, k: nat): Id
    requires k <= |steps|
  {
    OpenersMatch(steps[..k]);
    var openers := Openers(steps[..k]);
    if openers == [] then MAIN_AGENT else BegunBy(start, steps, Last(openers))
  }

  /** The current agent is the owner of whatever starts next. */
  lemma TopIsOwner(start: Time, steps: seq<Step>, k: nat)
    requires Disciplined(steps) && k <= |steps|
    ensures Run(start, steps[..k]).top.agent == OwnerAt(start, steps, k)
  {
    hide Run, Openers, Disciplined;
    DisciplinedTake(steps, k);
    AgentsFollowCalls(start, steps[..k]);
    var s, openers := Run(start, steps[..k]), Openers(steps[..k]);
    if openers != [] {
      var j := Last(openers);
      assert steps[..k][..j + 1] == steps[..j + 1];
      assert Agents(s)[|openers|] == BegunBy(start, steps[..k], j);
    }
  }

  lemma {:induction false} LaunchedAt(start: Time, steps: seq<Step>, k: nat)
    requires k < |steps|
    ensures forall l :: l in LaunchOf(Run(start, steps[..k]), steps[k]) ==> l in Launches(start, steps)
  {
    hide LaunchOf, Run;
    var n := |steps| - 1;
    if k < n {
      LaunchedAt(start, steps[..n], k);
      assert steps[..n][..k] == steps[..k];
    }
  }

  /** Step `x` ends the call of step `j`, and first of all creates the sub-agent that step `j` began. */
  predicate EndsWith(start: Time, steps: seq<Step>, j: nat, x: nat) {
    && j < x < |steps| && IsAgentStart(steps[j]) && steps[x].call.ToolEnd? && steps[x].call.c == steps[j].call.c
    && var n, log := |Run(start, steps[..x]).log|, Run(start, steps[..x + 1]).log;
       n < |log| && log[n].Create? && log[n].body.kind == AgentObservation && log[n].body.id == BegunBy(start, steps, j)
  }

  lemma AgentEndEmits(s: State, m: Monitor, c: CallId, isError: bool, at: Time)
    requires Follows(s, m) && Allowed(m, ToolEnd(c, isError)) && m.EndsAgent(c)
    ensures var log := OnToolEnd(s, c, isError, at).log;
            |s.log| < |log| && log[|s.log|] == SubagentEvent(s.top, isError, at)
  {
    AgentCallIsTop(s, m, c, isError);
    var s1 := s.Emit(SubagentEvent(s.top, isError, at));
    assert s1.log <= EndSubagent(s, isError, at).log <= OnToolEnd(s, c, isError, at).log;
  }

  /** The step that takes the last opener away ends its call. */
  lemma PopEnds(start: Time, steps: seq<Step>, n: nat)
    requires Disciplined(steps) && n < |steps| && Openers(steps[..n]) != []
    requires EndsAgentCall(Watch(steps[..n]), steps[n])
    ensures EndsWith(start, steps, Last(Openers(steps[..n])), n)
  {
    hide Openers, Disciplined, Watch, Follows, FrameIds, OnlyOwed, Drawn, Allowed, Match, Run, BegunBy;
    DisciplinedTake(steps, n);
    AccountedRun(start, steps[..n]);
    OpenersMatch(steps[..n]);
    LastMatches(steps[..n], Watch(steps[..n]), Openers(steps[..n]));
    RunNext(start, steps, n);
    TopIsOwner(start, steps, n);
    AgentEndEmits(Run(start, steps[..n]), Watch(steps[..n]), steps[n].call.c, steps[n].call.isError, steps[n].at);
  }

  lemma LastMatches(steps: seq<Step>, m: Monitor, openers: seq<nat>)
    requires Match(steps, m, openers) && openers != []
    ensures m.below != [] && Last(openers) < |steps| && IsAgentStart(steps[Last(openers)])
    ensures steps[Last(openers)].call.c == Last(m.below).call
  {
  }

  lemma RunNext(start: Time, steps: seq<Step>, n: nat)
    requires n < |steps|
    ensures Run(start, steps[..n + 1]) == Apply(Run(start, steps[..n]), steps[n])
  {
    hide Apply;
    assert steps[..n + 1][..n] == steps[..n];
  }

  lemma OpenersNext(steps: seq<Step>, n: nat)
    requires n < |steps|
    ensures Openers(steps[..n + 1]) == OpenersAfter(Openers(steps[..n]), Watch(steps[..n]), steps[n], n)
  {
    hide OpenersAfter;
    assert steps[..n + 1][..n] == steps[..n];
  }

  /** An Agent call that is open somewhere in a balanced turn ends later. */
  lemma {:induction false} OpenerEnds(start: Time, steps: seq<Step>, n: nat, p: nat) returns (x: nat)
    requires Disciplined(steps) && Openers(steps) == [] && n <= |steps| && p < |Openers(steps[..n])|
    ensures n <= x && EndsWith(start, steps, Openers(steps[..n])[p], x)
    decreases |steps| - n
  {
    hide EndsWith, Disciplined, EndsAgentCall, IsAgentStart, Openers, Watch;
    assert steps[..|steps|] == steps;
    OpenersNext(steps, n);
    if p < |Openers(steps[..n + 1])| {
      x := OpenerEnds(start, steps, n + 1, p);
    } else {
      PopEnds(start, steps, n);
      x := n;
    }
  }

  /**
   In a balanced turn every tool is observed once, in a batch of the agent that the innermost Agent call open at its
   start began, or of the main agent if none is open; and the observation of that agent is created where the call ends.
   */
  lemma ToolBelongsToItsAgentCall(start: Time, steps: seq<Step>, end: Time, k: nat)
    requires Disciplined(steps) && Balanced(steps) && k < |steps| && steps[k].call.ToolStart?
    ensures var log := OnTraceEnd(Run(start, steps), end).log;
            var l := LaunchOf(Run(start, steps[..k]), steps[k])[0];
            && l in Launches(start, steps) && l.call == steps[k].call.c && l.name == steps[k].call.name
            && (exists e, b :: e in log && b in log && Observes(e, l) && BatchOf(false, b, e, OwnerAt(start, steps, k)))
    ensures Openers(steps[..k]) != [] ==> exists x :: k < x && EndsWith(start, steps, Last(Openers(steps[..k])), x)
  {
    hide EndsWith, Openers, Disciplined, Run, OnTraceEnd, Observes, BatchOf, OwnerAt;
    EveryToolObservedOnce(start, steps, end);
    LaunchedAt(start, steps, k);
    TopIsOwner(start, steps, k);
    OpenersMatch(steps);
    if Openers(steps[..k]) != [] {
      var x := OpenerEnds(start, steps, k, |Openers(steps[..k])| - 1);
      EndsAtAnEnd(start, steps, Last(Openers(steps[..k])), x);
    }
  }

  lemma EndsAtAnEnd(start: Time, steps: seq<Step>, j: nat, x: nat)
    requires EndsWith(start, steps, j, x)
    ensures x < |steps| && steps[x].call.ToolEnd?
  {
  }
}
