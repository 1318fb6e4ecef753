/**
 The per-turn tracer (cc-acp/src/langfuse/tracer.rs).

 The tracer turns agent events into observations. It keeps one tools context for the main agent
 and one for every running sub-agent. A context holds the tools that have started but not ended,
 and the identity of the batch span that groups them. The batch span itself is emitted later, by a flush.

 This module holds the data model and one function per operation on a value of the tracer's state. Module
 Tracer is the object with the source's own fields, proved to do what these functions say; module SpanGraph
 proves what whole runs keep.
 */
module TraceModel {
  import opened Wrappers

  type CallId = string
  type Time = nat

  /** What a generated UUID was drawn for. Two draws never give the same `Id`. */
  datatype Role = AgentRole | BatchRole | ToolRole | GenerationRole | CompactRole
  datatype Id = Id(role: Role, n: nat)

  datatype Kind = AgentObservation | ToolObservation | Span | Generation

  /** What is recorded as the input of an observation, where it tells tools and sub-agents apart. */
  datatype Content = NoContent | Preview(prompt: string) | Arguments(input: Input)

  datatype Body = Body(id: Id, parent: Option<Id>, kind: Kind, name: string, content: Content,
                       start: Option<Time>, end: Option<Time>, isError: bool)

  /** What is handed to the batcher: a create or an update of one observation. */
  datatype Event = Create(body: Body) | Update(body: Body)

  /** The fields of a tool input that the tracer looks at. */
  datatype Input = Input(subagentType: Option<string>, prompt: Option<string>)

  datatype PendingTool = PendingTool(span: Id, name: string, input: Input, start: Time, parent: Id)

  /** An agent and its tools context. */
  datatype Frame = Frame(agent: Id, agentName: string, input: string, start: Time,
                         batch: Option<Id>, batchStart: Option<Time>, batchEnd: Option<Time>,
                         pending: map<CallId, PendingTool>)

  datatype Started = Started(id: Id, start: Time)

  /** `top` is the current agent, `below` the suspended ones, the main agent first. */
  datatype State = State(below: seq<Frame>, top: Frame, generations: map<nat, Started>, compact: Option<Started>,
                         nextId: nat, log: seq<Event>)
  {
    function Emit(e: Event): State { this.(log := log + [e]) }

    function Main(): Frame { if below == [] then top else below[0] }

    predicate HasAgentCall(c: CallId) {
      IsAgentCall(top, c) || exists i :: 0 <= i < |below| && IsAgentCall(below[i], c)
    }
  }

  const MAIN_AGENT := Id(AgentRole, 0)

  function NoTools(f: Frame): Frame {
    f.(batch := None, batchStart := None, batchEnd := None)
  }

  function MainFrame(): Frame {
    Frame(MAIN_AGENT, "", "", 0, None, None, None, map[])
  }

  function New(): State {
    State([], MainFrame(), map[], None, 1, [])
  }

  function Take(s: string, n: nat): (r: string)
    ensures r <= s && |r| == if |s| <= n then |s| else n
  {
    if |s| <= n then s else s[..n]
  }

  /** The `subagent_type` of an Agent call, "fork" without one. */
  function SubagentIdentity(input: Input): string {
    input.subagentType.GetOr("fork")
  }

  // ---- events ----

  function AgentRunStarted(agent: Id, now: Time): Event {
    Create(Body(agent, None, AgentObservation, "agent-run", NoContent, Some(now), None, false))
  }

  function AgentRunEnded(agent: Id, now: Time): Event {
    Update(Body(agent, None, AgentObservation, "agent-run", NoContent, None, Some(now), false))
  }

  function SubagentEvent(f: Frame, isError: bool, now: Time): Event {
    Create(Body(f.agent, None, AgentObservation, "subagent:" + f.agentName, Preview(f.input),
                Some(f.start), Some(now), isError))
  }

  function BatchEvent(f: Frame): Event
    requires f.batch.Some?
  {
    Create(Body(f.batch.value, Some(f.agent), Span, "Tools", NoContent, f.batchStart, f.batchEnd, false))
  }

  function ToolEvent(t: PendingTool, isError: bool, now: Time): Event {
    Create(Body(t.span, Some(t.parent), ToolObservation, t.name, Arguments(t.input), Some(t.start), Some(now), isError))
  }

  function GenerationEvent(g: Started, agent: Id, provider: string, now: Time): Event {
    Create(Body(g.id, Some(agent), Generation, "Chat" + provider, NoContent, Some(g.start), Some(now), false))
  }

  function CompactStarted(id: Id, agent: Id, now: Time): Event {
    Create(Body(id, Some(agent), Span, "compact", NoContent, Some(now), None, false))
  }

  function CompactEnded(c: Started, agent: Id, isError: bool, now: Time): Event {
    Update(Body(c.id, Some(agent), Span, "compact", NoContent, Some(c.start), Some(now), isError))
  }

  // ---- operations on the state value ----

  predicate Flushable(f: Frame) { f.batch.Some? && f.batchStart.Some? && f.batchEnd.Some? }

  /** All three batch fields are taken, whether or not the span can be emitted. */
  function FlushToolsBatch(s: State): State {
    var s' := s.(top := NoTools(s.top));
    if Flushable(s.top) then s'.Emit(BatchEvent(s.top)) else s'
  }

  function OnTraceStart(s: State, now: Time): State {
    s.Emit(AgentRunStarted(s.Main().agent, now))
  }

  function OnTraceEnd(s: State, now: Time): State {
    FlushToolsBatch(s).Emit(AgentRunEnded(s.Main().agent, now))
  }

  function OnLlmStart(s: State, step: nat, now: Time): State {
    var s1 := FlushToolsBatch(s);
    s1.(generations := s1.generations[step := Started(Id(GenerationRole, s1.nextId), now)], nextId := s1.nextId + 1)
  }

  function OnLlmEnd(s: State, step: nat, provider: string, now: Time): State {
    if step !in s.generations then s else
    s.(generations := s.generations - {step})
     .Emit(GenerationEvent(s.generations[step], s.top.agent, provider, now))
  }

  /** The current context after a tool has been recorded in it. */
  function RecordTool(s: State, c: CallId, name: string, input: Input, now: Time): State {
    var first := s.top.pending == map[];
    var n := if first then s.nextId + 1 else s.nextId;
    var f := if first then s.top.(batch := Some(Id(BatchRole, s.nextId)), batchStart := Some(now)) else s.top;
    var tool := PendingTool(Id(ToolRole, n), name, input, now, f.batch.GetOr(f.agent));
    s.(top := f.(pending := f.pending[c := tool]), nextId := n + 1)
  }

  function BeginSubagent(s: State, input: Input, now: Time): State {
    s.(below := s.below + [s.top],
       top := Frame(Id(AgentRole, s.nextId), SubagentIdentity(input), Take(input.prompt.GetOr(""), 200),
                    now, None, None, None, map[]),
       nextId := s.nextId + 1)
  }

  function OnToolStart(s: State, c: CallId, name: string, input: Input, now: Time): State {
    var s1 := RecordTool(s, c, name, input, now);
    if name == "Agent" then BeginSubagent(s1, input, now) else s1
  }

  function PopFrame(s: State): State {
    if s.below == [] then s else s.(below := s.below[..|s.below| - 1], top := s.below[|s.below| - 1])
  }

  function EndSubagent(s: State, isError: bool, now: Time): State {
    PopFrame(FlushToolsBatch(if s.below == [] then s else s.Emit(SubagentEvent(s.top, isError, now))))
  }

  predicate IsAgentCall(f: Frame, c: CallId) { c in f.pending && f.pending[c].name == "Agent" }

  function EndTool(s: State, c: CallId, isError: bool, now: Time): State {
    if c !in s.top.pending then s else
    s.Emit(ToolEvent(s.top.pending[c], isError, now))
     .(top := s.top.(pending := s.top.pending - {c}, batchEnd := Some(now)))
  }

  /** Ending an unknown call emits nothing; an Agent call anywhere in the stack first closes the current sub-agent. */
  function OnToolEnd(s: State, c: CallId, isError: bool, now: Time): State {
    EndTool(if s.HasAgentCall(c) then EndSubagent(s, isError, now) else s, c, isError, now)
  }

  function OnCompactStart(s: State, now: Time): State {
    var id := Id(CompactRole, s.nextId);
    s.Emit(CompactStarted(id, s.top.agent, now)).(compact := Some(Started(id, now)), nextId := s.nextId + 1)
  }

  function OnCompactEnd(s: State, isError: bool, now: Time): State {
    if s.compact.None? then s else
    s.Emit(CompactEnded(s.compact.value, s.top.agent, isError, now)).(compact := None)
  }
}
