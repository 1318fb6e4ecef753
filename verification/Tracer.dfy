/** The tracer object, with the fields and the in-place updates of cc-acp/src/langfuse/tracer.rs. */
module Tracer {
  import opened Wrappers
  import opened TraceModel
  import M = TraceModel

  class LangfuseTracer {
    const agentObservationId: Id
    var generationData: map<nat, Started>
    var pendingTools: map<CallId, PendingTool>
    var toolsBatchSpanId: Option<Id>
    var toolsBatchStartTime: Option<Time>
    var toolsBatchEndTime: Option<Time>
    var subagentStack: seq<Frame>
    var compactSpan: Option<Started>
    /** The UUID generator. */
    var nextId: nat
    /** What has been handed to the batcher, in order. */
    var emitted: seq<Event>

    ghost function Main(): Frame
      reads this
    {
      Frame(agentObservationId, "", "", 0, toolsBatchSpanId, toolsBatchStartTime, toolsBatchEndTime, pendingTools)
    }

    ghost function Abs(): State
      reads this
    {
      var n := |subagentStack|;
      if n == 0 then State([], Main(), generationData, compactSpan, nextId, emitted)
      else State([Main()] + subagentStack[..n - 1], subagentStack[n - 1], generationData, compactSpan, nextId, emitted)
    }

    lemma AgentCalls(c: CallId)
      ensures Abs().HasAgentCall(c) <==>
                IsAgentCall(Main(), c) || exists k :: 0 <= k < |subagentStack| && IsAgentCall(subagentStack[k], c)
    {
      var s, n := Abs(), |subagentStack|;
      if n > 0 {
        assert s.below[0] == Main();
        assert forall k :: 0 <= k < n - 1 ==> s.below[k + 1] == subagentStack[k];
        assert forall k :: 0 < k < n ==> s.below[k] == subagentStack[k - 1];
        assert s.top == subagentStack[n - 1];
      }
    }

    constructor ()
      ensures Abs() == New()
    {
      agentObservationId := MAIN_AGENT;
      generationData, pendingTools := map[], map[];
      toolsBatchSpanId, toolsBatchStartTime, toolsBatchEndTime := None, None, None;
      subagentStack, compactSpan := [], None;
      nextId, emitted := 1, [];
    }

    method CurrentAgentId() returns (id: Id)
      ensures id == Abs().top.agent
    {
      id := if |subagentStack| > 0 then subagentStack[|subagentStack| - 1].agent else agentObservationId;
    }

    /** Reads the context that `current_tools_context` borrows. */
    method CurrentFrame() returns (f: Frame)
      ensures f == Abs().top
    {
      if |subagentStack| > 0 {
        f := subagentStack[|subagentStack| - 1];
      } else {
        f := Frame(agentObservationId, "", "", 0,
                   toolsBatchSpanId, toolsBatchStartTime, toolsBatchEndTime, pendingTools);
      }
    }

    /** Writes the fields of the context that `current_tools_context` borrows. */
    method SetCurrentContext(f: Frame)
      requires f.(batch := None, batchStart := None, batchEnd := None, pending := map[])
            == Abs().top.(batch := None, batchStart := None, batchEnd := None, pending := map[])
      modifies this
      ensures Abs() == old(Abs()).(top := f)
    {
      if |subagentStack| > 0 {
        subagentStack := subagentStack[..|subagentStack| - 1] + [f];
        assert Abs().below == old(Abs().below);
      } else {
        toolsBatchSpanId, toolsBatchStartTime, toolsBatchEndTime := f.batch, f.batchStart, f.batchEnd;
        pendingTools := f.pending;
      }
    }

    method BeginSubagent(input: Input, now: Time)
      modifies this
      ensures Abs() == M.BeginSubagent(old(Abs()), input, now)
    {
      var prompt := Take(input.prompt.GetOr(""), 200);
      subagentStack := subagentStack +
        [Frame(Id(AgentRole, nextId), SubagentIdentity(input), prompt, now, None, None, None, map[])];
      nextId := nextId + 1;
      assert Abs().below == old(Abs().below + [Abs().top]);
    }

    method FlushToolsBatch()
      modifies this
      ensures Abs() == M.FlushToolsBatch(old(Abs()))
    {
      var f := CurrentFrame();
      SetCurrentContext(NoTools(f));
      if f.batch.Some? && f.batchStart.Some? && f.batchEnd.Some? {
        emitted := emitted + [BatchEvent(f)];
      }
    }

    method EndSubagent(isError: bool, now: Time)
      modifies this
      ensures Abs() == M.EndSubagent(old(Abs()), isError, now)
    {
      if |subagentStack| > 0 {
        emitted := emitted + [SubagentEvent(subagentStack[|subagentStack| - 1], isError, now)];
      }
      FlushToolsBatch();
      if |subagentStack| > 0 {
        ghost var s := Abs();
        subagentStack := subagentStack[..|subagentStack| - 1];
        assert Abs() == PopFrame(s);
      }
    }

    method OnTraceStart(now: Time)
      modifies this
      ensures Abs() == M.OnTraceStart(old(Abs()), now)
    {
      emitted := emitted + [AgentRunStarted(agentObservationId, now)];
    }

    method OnTraceEnd(now: Time)
      modifies this
      ensures Abs() == M.OnTraceEnd(old(Abs()), now)
    {
      FlushToolsBatch();
      emitted := emitted + [AgentRunEnded(agentObservationId, now)];
    }

    method OnLlmStart(step: nat, now: Time)
      modifies this
      ensures Abs() == M.OnLlmStart(old(Abs()), step, now)
    {
      FlushToolsBatch();
      generationData := generationData[step := Started(Id(GenerationRole, nextId), now)];
      nextId := nextId + 1;
    }

    method OnLlmEnd(step: nat, provider: string, now: Time)
      modifies this
      ensures Abs() == M.OnLlmEnd(old(Abs()), step, provider, now)
    {
      if step !in generationData {
        return;
      }
      var generation := generationData[step];
      generationData := generationData - {step};
      var agent := CurrentAgentId();
      emitted := emitted + [GenerationEvent(generation, agent, provider, now)];
    }

    method OnToolStart(c: CallId, name: string, input: Input, now: Time)
      modifies this
      ensures Abs() == M.OnToolStart(old(Abs()), c, name, input, now)
    {
      var f := CurrentFrame();
      if f.pending == map[] {
        f := f.(batch := Some(Id(BatchRole, nextId)), batchStart := Some(now));
        nextId := nextId + 1;
      }
      var parent := f.batch.GetOr(f.agent);
      f := f.(pending := f.pending[c := PendingTool(Id(ToolRole, nextId), name, input, now, parent)]);
      nextId := nextId + 1;
      SetCurrentContext(f);
      if name == "Agent" {
        BeginSubagent(input, now);
      }
    }

    method OnToolEnd(c: CallId, isError: bool, now: Time)
      modifies this
      ensures Abs() == M.OnToolEnd(old(Abs()), c, isError, now)
    {
      var isAgent := c in pendingTools && pendingTools[c].name == "Agent";
      var i := 0;
      while i < |subagentStack| && !isAgent
        invariant 0 <= i <= |subagentStack|
        invariant isAgent <==> IsAgentCall(Main(), c) || exists k :: 0 <= k < i && IsAgentCall(subagentStack[k], c)
      {
        isAgent := IsAgentCall(subagentStack[i], c);
        i := i + 1;
      }
      assert isAgent <==> Abs().HasAgentCall(c) by { AgentCalls(c); }
      if isAgent {
        EndSubagent(isError, now);
      }
      var f := CurrentFrame();
      if c !in f.pending {
        return;
      }
      emitted := emitted + [ToolEvent(f.pending[c], isError, now)];
      SetCurrentContext(f.(pending := f.pending - {c}, batchEnd := Some(now)));
    }

    method OnCompactStart(now: Time)
      modifies this
      ensures Abs() == M.OnCompactStart(old(Abs()), now)
    {
      var id := Id(CompactRole, nextId);
      var agent := CurrentAgentId();
      nextId := nextId + 1;
      emitted := emitted + [CompactStarted(id, agent, now)];
      compactSpan := Some(Started(id, now));
    }

    method OnCompactEnd(isError: bool, now: Time)
      modifies this
      ensures Abs() == M.OnCompactEnd(old(Abs()), isError, now)
    {
      if compactSpan.None? {
        return;
      }
      var agent := CurrentAgentId();
      emitted := emitted + [CompactEnded(compactSpan.value, agent, isError, now)];
      compactSpan := None;
    }
  }
}
