/**
 Which turns are disciplined.

 `Monitor` is a small machine that looks at the calls a tracer receives and never at the tracer: Agent calls
 are properly nested, the tools of a context have all ended before its next LLM start, and a context has an
 LLM start before its next batch.
 */
module Discipline {
  import opened TraceModel

  datatype Call =
    | LlmStart(step: nat)
    | LlmEnd(step: nat, provider: string)
    | ToolStart(c: CallId, name: string, input: Input)
    | ToolEnd(c: CallId, isError: bool)
    | CompactStart
    | CompactEnd(isError: bool)

  datatype Step = Step(call: Call, at: Time)

  /**
   One agent as seen from the calls: its tools that have not ended, whether it has a batch that no LLM start has
   closed yet, whether a tool of that batch has ended, and whether something already emitted names the agent as
   its parent.
   */
  datatype Scope = Scope(open: set<CallId>, batched: bool, ended: bool, referenced: bool)

  /** An agent that waits for its Agent call `call`. */
  datatype Suspended = Suspended(scope: Scope, call: CallId)

  datatype Monitor = Monitor(below: seq<Suspended>, top: Scope, steps: set<nat>, compacting: bool)
  {
    predicate IsOpen(c: CallId) { c in top.open || exists i :: 0 <= i < |below| && c in below[i].scope.open }

    /** The call whose end also ends the current sub-agent. */
    predicate EndsAgent(c: CallId) { below != [] && c == below[|below| - 1].call }

    /** Nothing that was emitted waits for a span that is still to come from a sub-agent or an outer batch. */
    predicate OwesNothing() {
      below == [] ||
      (!top.referenced && !top.ended &&
       forall i :: 0 <= i < |below| ==> !below[i].scope.ended && (i == 0 || !below[i].scope.referenced))
    }
  }

  const IDLE := Scope({}, false, false, false)

  function Begin(): Monitor { Monitor([], IDLE, {}, false) }

  predicate Allowed(m: Monitor, call: Call) {
    match call
    case LlmStart(_) => m.top.open == {}
    case ToolStart(c, _, _) => !m.IsOpen(c) && (m.top.open == {} ==> !m.top.batched)
    case ToolEnd(c, _) => m.IsOpen(c) ==> c in m.top.open || (m.EndsAgent(c) && m.top.open == {})
    case _ => true
  }

  function Close(t: Scope, c: CallId): Scope { t.(open := t.open - {c}, ended := true) }

  function Next(m: Monitor, call: Call): Monitor {
    match call
    case LlmStart(step) =>
      m.(top := m.top.(batched := false, ended := false, referenced := m.top.referenced || m.top.batched),
         steps := m.steps + {step})
    case LlmEnd(step, _) =>
      if step in m.steps then m.(top := m.top.(referenced := true), steps := m.steps - {step}) else m
    case ToolStart(c, name, _) =>
      var t := m.top.(open := m.top.open + {c}, batched := true);
      if name == "Agent" then m.(below := m.below + [Suspended(t, c)], top := IDLE) else m.(top := t)
    case ToolEnd(c, _) =>
      var k := |m.below|;
      if c in m.top.open then m.(top := Close(m.top, c))
      else if m.EndsAgent(c) then m.(below := m.below[..k - 1], top := Close(m.below[k - 1].scope, c))
      else m
    case CompactStart => m.(top := m.top.(referenced := true), compacting := true)
    case CompactEnd(_) => if m.compacting then m.(top := m.top.(referenced := true), compacting := false) else m
  }

  function Watch(steps: seq<Step>): Monitor {
    if steps == [] then Begin() else Next(Watch(steps[..|steps| - 1]), steps[|steps| - 1].call)
  }

  predicate Disciplined(steps: seq<Step>) {
    forall k :: 0 <= k < |steps| ==> Allowed(Watch(steps[..k]), steps[k].call)
  }

  /** Every tool and every sub-agent has ended. */
  predicate Balanced(steps: seq<Step>) {
    Watch(steps).below == [] && Watch(steps).top.open == {}
  }

  /** The instants of a run do not decrease. */
  predicate Timely(start: Time, steps: seq<Step>) {
    && (forall k :: 0 <= k < |steps| ==> start <= steps[k].at)
    && (forall j, k :: 0 <= j < k < |steps| ==> steps[j].at <= steps[k].at)
  }

  lemma DisciplinedPrefix(steps: seq<Step>)
    requires Disciplined(steps) && steps != []
    ensures Disciplined(steps[..|steps| - 1])
    ensures Allowed(Watch(steps[..|steps| - 1]), steps[|steps| - 1].call)
  {
    var before := steps[..|steps| - 1];
    forall k | 0 <= k < |before| ensures Allowed(Watch(before[..k]), before[k].call) {
      assert before[..k] == steps[..k];
    }
  }
}
