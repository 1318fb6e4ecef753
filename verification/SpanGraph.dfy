/** What every disciplined turn of the tracer keeps: module Discipline says which turns those are. */
module SpanGraph {
  import opened Wrappers
  import opened TraceModel
  import opened Discipline

  function Apply(s: State, st: Step): State {
    match st.call
    case LlmStart(step) => OnLlmStart(s, step, st.at)
    case LlmEnd(step, provider) => OnLlmEnd(s, step, provider, st.at)
    case ToolStart(c, name, input) => OnToolStart(s, c, name, input, st.at)
    case ToolEnd(c, isError) => OnToolEnd(s, c, isError, st.at)
    case CompactStart => OnCompactStart(s, st.at)
    case CompactEnd(isError) => OnCompactEnd(s, isError, st.at)
  }

  function Run(start: Time, steps: seq<Step>): State {
    if steps == [] then OnTraceStart(New(), start) else Apply(Run(start, steps[..|steps| - 1]), steps[|steps| - 1])
  }

  // ---- references ----

  function Created(log: seq<Event>): set<Id> { set e | e in log && e.Create? :: e.body.id }

  function Parents(log: seq<Event>): set<Id> { set e | e in log && e.body.parent.Some? :: e.body.parent.value }

  /** The ids that something emitted names as its parent and that nothing emitted has created. */
  function Dangling(log: seq<Event>): set<Id> { Parents(log) - Created(log) }

  lemma Extend(log: seq<Event>, e: Event)
    ensures Created(log + [e]) == Created(log) + (if e.Create? then {e.body.id} else {})
    ensures Parents(log + [e]) == Parents(log) + (if e.body.parent.Some? then {e.body.parent.value} else {})
  {
    assert forall x :: x in log + [e] <==> x in log || x == e;
  }

  // ---- the tracer agrees with the discipline ----

  ghost predicate FrameMatches(f: Frame, t: Scope) {
    && f.pending.Keys == t.open
    && f.batch.Some? == f.batchStart.Some? == t.batched
    && f.batchEnd.Some? == t.ended
    && (t.batched <==> t.open != {} || t.ended)
    && (forall c :: c in f.pending ==> f.batch == Some(f.pending[c].parent))
  }

  /** `c` is the only Agent call pending in `f`. */
  ghost predicate WaitsFor(f: Frame, c: CallId) {
    c in f.pending && forall d :: d in f.pending ==> (f.pending[d].name == "Agent" <==> d == c)
  }

  ghost predicate Follows(s: State, m: Monitor) {
    && |s.below| == |m.below|
    && s.generations.Keys == m.steps
    && s.compact.Some? == m.compacting
    && FrameMatches(s.top, m.top)
    && (forall c :: c in s.top.pending ==> s.top.pending[c].name != "Agent")
    && (forall i :: 0 <= i < |s.below| ==>
          FrameMatches(s.below[i], m.below[i].scope) && WaitsFor(s.below[i], m.below[i].call)
          && m.below[i].call !in m.top.open)
    && (forall i, j :: 0 <= i < j < |s.below| ==> m.below[i].call !in m.below[j].scope.open)
  }

  lemma RecordMatches(s: State, t: Scope, c: CallId, name: string, input: Input, now: Time)
    requires FrameMatches(s.top, t) && c !in t.open && (t.open == {} ==> !t.batched)
    ensures FrameMatches(RecordTool(s, c, name, input, now).top, t.(open := t.open + {c}, batched := true))
  {
    assert s.top.pending == map[] <==> t.open == {};
  }

  /** Recording a tool under a new call leaves the other pending tools and the outer frames as they were. */
  lemma FollowsRecord(s: State, m: Monitor, c: CallId, name: string, input: Input, now: Time)
    requires Follows(s, m) && Allowed(m, ToolStart(c, name, input))
    ensures var s1 := RecordTool(s, c, name, input, now);
            && FrameMatches(s1.top, m.top.(open := m.top.open + {c}, batched := true))
            && c in s1.top.pending && s1.top.pending[c].name == name
            && forall d :: d in s1.top.pending && d != c ==> s1.top.pending[d].name != "Agent"
    ensures forall i :: 0 <= i < |m.below| ==> m.below[i].call != c
    ensures forall i :: 0 <= i < |m.below| ==> c !in m.below[i].scope.open
  {
    hide FrameMatches;
    RecordMatches(s, m.top, c, name, input, now);
    forall i | 0 <= i < |m.below| ensures m.below[i].call != c {
      OwnCallOpen(s.below[i], m.below[i]);
    }
  }

  lemma FollowsToolStart(s: State, m: Monitor, c: CallId, name: string, input: Input, now: Time)
    requires Follows(s, m) && Allowed(m, ToolStart(c, name, input))
    ensures Follows(OnToolStart(s, c, name, input, now), Next(m, ToolStart(c, name, input)))
  {
    FollowsRecord(s, m, c, name, input, now);
    var s1 := RecordTool(s, c, name, input, now);
    assert s1.below == s.below && s1.generations == s.generations && s1.compact == s.compact;
    hide FrameMatches, BeginSubagent, RecordTool, Allowed;
    if name == "Agent" {
      assert WaitsFor(s1.top, c);
      BeginMatches(s1, input, now);
    }
  }

  lemma OwnCallOpen(f: Frame, t: Suspended)
    requires FrameMatches(f, t.scope) && WaitsFor(f, t.call)
    ensures t.call in t.scope.open
  {
  }

  lemma BeginMatches(s: State, input: Input, now: Time)
    ensures var s' := BeginSubagent(s, input, now);
            && FrameMatches(s'.top, IDLE) && s'.top.pending == map[] && s'.below == s.below + [s.top]
            && s'.generations == s.generations && s'.compact == s.compact
  {
  }

  /** An Agent call is pending in some frame exactly when it is the one that ends the current sub-agent. */
  lemma AgentCallIsTop(s: State, m: Monitor, c: CallId, isError: bool)
    requires Follows(s, m) && Allowed(m, ToolEnd(c, isError))
    ensures s.HasAgentCall(c) <==> m.EndsAgent(c)
    ensures m.EndsAgent(c) ==> m.top.open == {}
    ensures c in m.top.open ==> !m.EndsAgent(c)
  {
    var k := |m.below| - 1;
    if m.EndsAgent(c) {
      assert WaitsFor(s.below[k], c);
      assert IsAgentCall(s.below[k], c);
      assert c in m.below[k].scope.open;
    }
    if i :| 0 <= i < |s.below| && IsAgentCall(s.below[i], c) {
      assert WaitsFor(s.below[i], m.below[i].call);
      assert c == m.below[i].call && c in m.below[i].scope.open;
    }
  }

  lemma EndMatches(s: State, t: Scope, c: CallId, isError: bool, now: Time)
    requires FrameMatches(s.top, t) && c in t.open
    ensures FrameMatches(EndTool(s, c, isError, now).top, Close(t, c))
  {
    assert s.top.pending.Keys - {c} == (s.top.pending - {c}).Keys;
  }

  lemma FollowsOwnToolEnd(s: State, m: Monitor, c: CallId, isError: bool, now: Time)
    requires Follows(s, m) && c in m.top.open
    ensures Follows(EndTool(s, c, isError, now), m.(top := Close(m.top, c)))
  {
    EndMatches(s, m.top, c, isError, now);
  }

  lemma FollowsAgentEnd(s: State, m: Monitor, c: CallId, isError: bool, now: Time)
    requires Follows(s, m) && m.EndsAgent(c)
    ensures var k := |m.below| - 1;
            Follows(EndTool(EndSubagent(s, isError, now), c, isError, now),
                    m.(below := m.below[..k], top := Close(m.below[k].scope, c)))
  {
    var k := |s.below| - 1;
    var s1 := EndSubagent(s, isError, now);
    assert WaitsFor(s.below[k], c);
    assert s1.top == s.below[k] && s1.below == s.below[..k];
    EndMatches(s1, m.below[k].scope, c, isError, now);
  }

  lemma FollowsToolEnd(s: State, m: Monitor, c: CallId, isError: bool, now: Time)
    requires Follows(s, m) && Allowed(m, ToolEnd(c, isError))
    ensures Follows(OnToolEnd(s, c, isError, now), Next(m, ToolEnd(c, isError)))
  {
    AgentCallIsTop(s, m, c, isError);
    if c in m.top.open {
      FollowsOwnToolEnd(s, m, c, isError, now);
    } else if m.EndsAgent(c) {
      FollowsAgentEnd(s, m, c, isError, now);
    }
  }

  lemma FollowsStep(s: State, m: Monitor, st: Step)
    requires Follows(s, m) && Allowed(m, st.call)
    ensures Follows(Apply(s, st), Next(m, st.call))
  {
    match st.call
    case ToolStart(c, name, input) => FollowsToolStart(s, m, c, name, input, st.at);
    case ToolEnd(c, isError) => FollowsToolEnd(s, m, c, isError, st.at);
    case _ =>
  }

  lemma TopSettled(s: State, m: Monitor)
    requires Follows(s, m)
    ensures m.top.open == {} ==> s.top.pending == map[]
    ensures s.top.batchEnd.Some? ==> Flushable(s.top)
  {
  }

  // ---- what dangles is exactly what is still owed ----

  ghost predicate Young(f: Frame, n: nat) {
    && f.agent.role == AgentRole && f.agent.n < n
    && (f.batch.Some? ==> f.batch.value.role == BatchRole && f.agent.n < f.batch.value.n < n)
  }

  ghost predicate NotYetCreated(log: seq<Event>, f: Frame) {
    && (f.agent in Created(log) <==> f.agent == MAIN_AGENT)
    && (f.batch.Some? ==> f.batch.value !in Created(log))
  }

  /** The ids of a frame are drawn before those of the frames above it, and not created yet. */
  ghost predicate FrameIds(s: State) {
    && s.Main().agent == MAIN_AGENT
    && Young(s.top, s.nextId)
    && (forall i :: 0 <= i < |s.below| ==> Young(s.below[i], s.top.agent.n) && NotYetCreated(s.log, s.below[i]))
    && (forall i, j :: 0 <= i < j < |s.below| ==> Young(s.below[i], s.below[j].agent.n))
    && NotYetCreated(s.log, s.top)
    && (forall id :: id in Created(s.log) ==> id.n < s.nextId)
  }

  ghost predicate OwedBy(f: Frame, t: Scope, id: Id) {
    (t.referenced && f.agent == id && id != MAIN_AGENT) || (t.ended && f.batch == Some(id))
  }

  ghost predicate OwedBelow(frames: seq<Frame>, scopes: seq<Suspended>, id: Id)
    requires |frames| == |scopes|
  {
    exists i :: 0 <= i < |frames| && OwedBy(frames[i], scopes[i].scope, id)
  }

  /** What dangles is exactly what the unfinished sub-agents and the unflushed batches still owe. */
  ghost predicate OnlyOwed(s: State, m: Monitor) {
    && |s.below| == |m.below|
    && forall id :: id in Dangling(s.log) <==> OwedBy(s.top, m.top, id) || OwedBelow(s.below, m.below, id)
  }

  ghost predicate Has(s: State, f: Frame) { f == s.top || f in s.below }

  /** The spans of pending tools and running generations are drawn already. */
  ghost predicate Drawn(s: State) {
    && (forall f, c :: Has(s, f) && c in f.pending ==>
          f.pending[c].span.role == ToolRole && f.pending[c].span.n < s.nextId)
    && (forall k :: k in s.generations ==>
          s.generations[k].id.role == GenerationRole && s.generations[k].id.n < s.nextId)
  }

  ghost predicate Accounted(s: State, m: Monitor) {
    Follows(s, m) && FrameIds(s) && OnlyOwed(s, m) && Drawn(s)
  }

  /** A frame below the top never owes an id of the top frame. */
  lemma OwedBelowOlder(s: State, m: Monitor, id: Id)
    requires |s.below| == |m.below| && FrameIds(s) && OwedBelow(s.below, m.below, id)
    ensures id.n < s.top.agent.n && id.role in {AgentRole, BatchRole}
  {
  }

  function Flushed(t: Scope): Scope {
    t.(batched := false, ended := false, referenced := t.referenced || t.ended)
  }

  lemma FlushKeeps(s: State, m: Monitor)
    requires FrameIds(s) && OnlyOwed(s, m)
    requires s.top.batchEnd.Some? == m.top.ended && (m.top.ended ==> s.top.batch.Some? && s.top.batchStart.Some?)
    ensures FrameIds(FlushToolsBatch(s)) && OnlyOwed(FlushToolsBatch(s), m.(top := Flushed(m.top)))
  {
    if Flushable(s.top) {
      Extend(s.log, BatchEvent(s.top));
      forall id | OwedBelow(s.below, m.below, id) ensures id.n < s.top.agent.n { OwedBelowOlder(s, m, id); }
      FlushKeepsIds(s);
      hide FrameIds, OwedBelow;
      forall id ensures id in Dangling(FlushToolsBatch(s).log) <==>
                          OwedBy(NoTools(s.top), Flushed(m.top), id) || OwedBelow(s.below, m.below, id)
      {
        FlushOwes(s, m, id);
      }
    }
  }

  lemma FlushKeepsIds(s: State)
    requires FrameIds(s)
    ensures FrameIds(FlushToolsBatch(s))
  {
    if Flushable(s.top) { Extend(s.log, BatchEvent(s.top)); }
  }

  /** The batch is no longer owed, and its agent is. */
  lemma FlushOwes(s: State, m: Monitor, id: Id)
    requires FrameIds(s) && OnlyOwed(s, m) && Flushable(s.top) && m.top.ended
    ensures id in Dangling(FlushToolsBatch(s).log) <==>
              OwedBy(NoTools(s.top), Flushed(m.top), id) || OwedBelow(s.below, m.below, id)
  {
    hide OwedBelow;
    Extend(s.log, BatchEvent(s.top));
    assert id in Dangling(s.log) <==> OwedBy(s.top, m.top, id) || OwedBelow(s.below, m.below, id);
    if OwedBelow(s.below, m.below, id) { OwedBelowOlder(s, m, id); }
  }

  /** An event whose parent is the current agent, and which creates no id of a frame. */
  lemma EmitUnderAgent(s: State, m: Monitor, e: Event)
    requires FrameIds(s) && OnlyOwed(s, m)
    requires e.body.parent == Some(s.top.agent)
    requires e.Create? ==> e.body.id.role in {GenerationRole, CompactRole} && e.body.id.n < s.nextId
    ensures FrameIds(s.Emit(e)) && OnlyOwed(s.Emit(e), m.(top := m.top.(referenced := true)))
  {
    Extend(s.log, e);
    forall id | OwedBelow(s.below, m.below, id)
      ensures id.n < s.top.agent.n && id.role in {AgentRole, BatchRole}
    {
      OwedBelowOlder(s, m, id);
    }
  }

  lemma PushOwed(frames: seq<Frame>, scopes: seq<Suspended>, f: Frame, t: Suspended, id: Id)
    requires |frames| == |scopes|
    ensures OwedBelow(frames + [f], scopes + [t], id) <==> OwedBy(f, t.scope, id) || OwedBelow(frames, scopes, id)
  {
    var k := |frames|;
    if OwedBy(f, t.scope, id) {
      assert OwedBy((frames + [f])[k], (scopes + [t])[k].scope, id);
    } else if i :| 0 <= i < k && OwedBy(frames[i], scopes[i].scope, id) {
      assert OwedBy((frames + [f])[i], (scopes + [t])[i].scope, id);
    }
  }

  lemma RecordKeeps(s: State, m: Monitor, c: CallId, name: string, input: Input, now: Time)
    requires Accounted(s, m) && Allowed(m, ToolStart(c, name, input))
    ensures FrameIds(RecordTool(s, c, name, input, now))
    ensures OnlyOwed(RecordTool(s, c, name, input, now), m.(top := m.top.(open := m.top.open + {c}, batched := true)))
  {
    assert s.top.pending == map[] <==> m.top.open == {};
  }

  lemma BeginKeeps(s: State, m: Monitor, c: CallId, input: Input, now: Time)
    requires FrameIds(s) && OnlyOwed(s, m)
    ensures FrameIds(BeginSubagent(s, input, now))
    ensures OnlyOwed(BeginSubagent(s, input, now), m.(below := m.below + [Suspended(m.top, c)], top := IDLE))
  {
    forall id {
      PushOwed(s.below, m.below, s.top, Suspended(m.top, c), id);
    }
  }

  lemma EndSubagentLog(s: State, isError: bool, now: Time)
    requires s.below != [] && (s.top.batchEnd.Some? ==> Flushable(s.top))
    ensures var log := EndSubagent(s, isError, now).log;
            && Created(log) == Created(s.log) + {s.top.agent}
                               + (if s.top.batchEnd.Some? then {s.top.batch.value} else {})
            && Parents(log) == Parents(s.log) + (if s.top.batchEnd.Some? then {s.top.agent} else {})
  {
    var s1 := s.Emit(SubagentEvent(s.top, isError, now));
    Extend(s.log, SubagentEvent(s.top, isError, now));
    if Flushable(s.top) {
      Extend(s1.log, BatchEvent(s.top));
    }
  }

  lemma EndSubagentIds(s: State, isError: bool, now: Time)
    requires FrameIds(s) && s.below != [] && (s.top.batchEnd.Some? ==> Flushable(s.top))
    ensures FrameIds(EndSubagent(s, isError, now))
  {
    var k, s' := |s.below| - 1, EndSubagent(s, isError, now);
    EndSubagentLog(s, isError, now);
    assert s'.top == s.below[k] && s'.below == s.below[..k] && s'.Main() == s.Main() && s'.nextId == s.nextId;
    assert Young(s.below[0], s.top.agent.n);
    forall i | 0 <= i <= k ensures NotYetCreated(s'.log, s.below[i]) {
      OlderNotCreated(s, s.below[i], s'.log);
    }
    hide EndSubagent, NotYetCreated;
  }

  lemma OlderNotCreated(s: State, f: Frame, log: seq<Event>)
    requires Young(f, s.top.agent.n) && NotYetCreated(s.log, f) && s.top.agent != MAIN_AGENT
    requires Young(s.top, s.nextId)
    requires forall id :: id in Created(log) ==>
               id in Created(s.log) || id == s.top.agent || Some(id) == s.top.batch
    requires Created(s.log) <= Created(log)
    ensures NotYetCreated(log, f)
  {
  }

  lemma PopOwed(frames: seq<Frame>, scopes: seq<Suspended>, id: Id)
    requires |frames| == |scopes| > 0
    ensures var k := |frames| - 1;
            OwedBelow(frames, scopes, id) <==>
              OwedBy(frames[k], scopes[k].scope, id) || OwedBelow(frames[..k], scopes[..k], id)
  {
    var k := |frames| - 1;
    assert frames == frames[..k] + [frames[k]] && scopes == scopes[..k] + [scopes[k]];
    PushOwed(frames[..k], scopes[..k], frames[k], scopes[k], id);
  }

  /** The end of a sub-agent creates the agent and its batch, so nothing of it is owed any more. */
  lemma EndSubagentSettles(s: State, m: Monitor, isError: bool, now: Time)
    requires FrameIds(s) && OnlyOwed(s, m) && s.below != []
    requires FrameMatches(s.top, m.top)
    ensures var k := |s.below| - 1;
            OnlyOwed(EndSubagent(s, isError, now), m.(below := m.below[..k], top := m.below[k].scope))
  {
    hide FrameIds, FrameMatches, OwedBelow, OwedBy, Dangling, EndSubagent;
    Uncovered(s, isError, now);
    var log := EndSubagent(s, isError, now).log;
    forall id ensures id in Dangling(log) <==> OwedBelow(s.below, m.below, id) {
      AgentOwesNoMore(s, m, isError, now, id);
    }
    forall id { PopOwed(s.below, m.below, id); }
  }

  lemma Uncovered(s: State, isError: bool, now: Time)
    requires s.below != []
    ensures var k := |s.below| - 1;
            EndSubagent(s, isError, now).top == s.below[k] && EndSubagent(s, isError, now).below == s.below[..k]
  {
  }

  lemma AgentOwesNoMore(s: State, m: Monitor, isError: bool, now: Time, id: Id)
    requires FrameIds(s) && OnlyOwed(s, m) && s.below != []
    requires FrameMatches(s.top, m.top)
    ensures id in Dangling(EndSubagent(s, isError, now).log) <==> OwedBelow(s.below, m.below, id)
  {
    hide OwedBelow, EndSubagent;
    EndSubagentLog(s, isError, now);
    assert id in Dangling(s.log) <==> OwedBy(s.top, m.top, id) || OwedBelow(s.below, m.below, id);
    if OwedBelow(s.below, m.below, id) { OwedBelowOlder(s, m, id); }
  }

  lemma EndToolOwes(s: State, m: Monitor, c: CallId, isError: bool, now: Time)
    requires FrameIds(s) && OnlyOwed(s, m) && FrameMatches(s.top, m.top)
    requires c in m.top.open
    requires s.top.pending[c].span.role == ToolRole && s.top.pending[c].span.n < s.nextId
    ensures FrameIds(EndTool(s, c, isError, now)) && OnlyOwed(EndTool(s, c, isError, now), m.(top := Close(m.top, c)))
  {
    Extend(s.log, ToolEvent(s.top.pending[c], isError, now));
    forall id | OwedBelow(s.below, m.below, id)
      ensures id.n < s.top.agent.n && id.role in {AgentRole, BatchRole}
    {
      OwedBelowOlder(s, m, id);
    }
  }

  lemma OwedToolStart(s: State, m: Monitor, c: CallId, name: string, input: Input, now: Time)
    requires Accounted(s, m) && Allowed(m, ToolStart(c, name, input))
    ensures FrameIds(OnToolStart(s, c, name, input, now))
    ensures OnlyOwed(OnToolStart(s, c, name, input, now), Next(m, ToolStart(c, name, input)))
  {
    RecordKeeps(s, m, c, name, input, now);
    if name == "Agent" {
      BeginKeeps(RecordTool(s, c, name, input, now), m.(top := m.top.(open := m.top.open + {c}, batched := true)),
                 c, input, now);
    }
  }

  lemma OwedAgentEnd(s: State, m: Monitor, c: CallId, isError: bool, now: Time)
    requires Accounted(s, m) && m.EndsAgent(c)
    ensures FrameIds(EndTool(EndSubagent(s, isError, now), c, isError, now))
    ensures var k := |m.below| - 1;
            OnlyOwed(EndTool(EndSubagent(s, isError, now), c, isError, now),
                     m.(below := m.below[..k], top := Close(m.below[k].scope, c)))
  {
    var k := |s.below| - 1;
    EndSubagentIds(s, isError, now);
    EndSubagentSettles(s, m, isError, now);
    assert Has(s, s.below[k]) && WaitsFor(s.below[k], c);
    EndToolOwes(EndSubagent(s, isError, now), m.(below := m.below[..k], top := m.below[k].scope), c, isError, now);
  }

  lemma OwedToolEnd(s: State, m: Monitor, c: CallId, isError: bool, now: Time)
    requires Accounted(s, m) && Allowed(m, ToolEnd(c, isError))
    ensures FrameIds(OnToolEnd(s, c, isError, now))
    ensures OnlyOwed(OnToolEnd(s, c, isError, now), Next(m, ToolEnd(c, isError)))
  {
    hide FrameIds, OnlyOwed, EndTool, EndSubagent;
    AgentCallIsTop(s, m, c, isError);
    if c in m.top.open {
      OwnToolDrawn(s, m, c);
      EndToolOwes(s, m, c, isError, now);
    } else if m.EndsAgent(c) {
      OwedAgentEnd(s, m, c, isError, now);
    } else {
      UnknownToolEnd(s, m, c, isError, now);
    }
  }

  lemma OwnToolDrawn(s: State, m: Monitor, c: CallId)
    requires Follows(s, m) && Drawn(s) && c in m.top.open
    ensures FrameMatches(s.top, m.top) && c in s.top.pending
    ensures s.top.pending[c].span.role == ToolRole && s.top.pending[c].span.n < s.nextId
  {
    assert Has(s, s.top);
  }

  lemma UnknownToolEnd(s: State, m: Monitor, c: CallId, isError: bool, now: Time)
    requires Follows(s, m) && c !in m.top.open && !m.EndsAgent(c) && !s.HasAgentCall(c)
    ensures OnToolEnd(s, c, isError, now) == s && Next(m, ToolEnd(c, isError)) == m
  {
  }

  lemma OwedLlmStart(s: State, m: Monitor, step: nat, now: Time)
    requires Accounted(s, m) && Allowed(m, LlmStart(step))
    ensures FrameIds(OnLlmStart(s, step, now)) && OnlyOwed(OnLlmStart(s, step, now), Next(m, LlmStart(step)))
  {
    FlushKeeps(s, m);
    assert Next(m, LlmStart(step)).top == Flushed(m.top);
  }

  lemma OwedLlmEnd(s: State, m: Monitor, step: nat, provider: string, now: Time)
    requires Accounted(s, m)
    ensures FrameIds(OnLlmEnd(s, step, provider, now))
    ensures OnlyOwed(OnLlmEnd(s, step, provider, now), Next(m, LlmEnd(step, provider)))
  {
    if step in s.generations {
      EmitUnderAgent(s, m, GenerationEvent(s.generations[step], s.top.agent, provider, now));
    }
  }

  lemma OwedCompactStart(s: State, m: Monitor, now: Time)
    requires Accounted(s, m)
    ensures FrameIds(OnCompactStart(s, now)) && OnlyOwed(OnCompactStart(s, now), Next(m, CompactStart))
  {
    var s1 := s.(nextId := s.nextId + 1);
    assert FrameIds(s1) && OnlyOwed(s1, m);
    EmitUnderAgent(s1, m, CompactStarted(Id(CompactRole, s.nextId), s.top.agent, now));
  }

  lemma OwedCompactEnd(s: State, m: Monitor, isError: bool, now: Time)
    requires Accounted(s, m)
    ensures FrameIds(OnCompactEnd(s, isError, now))
    ensures OnlyOwed(OnCompactEnd(s, isError, now), Next(m, CompactEnd(isError)))
  {
    hide FrameMatches, Drawn;
    if s.compact.Some? {
      var e := CompactEnded(s.compact.value, s.top.agent, isError, now);
      EmitUnderAgent(s, m, e);
      hide OwedBelow, OwedBy, Dangling;
      assert OnCompactEnd(s, isError, now) == s.Emit(e).(compact := None);
    }
  }

  lemma OwedStep(s: State, m: Monitor, st: Step)
    requires Accounted(s, m) && Allowed(m, st.call)
    ensures FrameIds(Apply(s, st)) && OnlyOwed(Apply(s, st), Next(m, st.call))
  {
    match st.call
    case LlmStart(step) => OwedLlmStart(s, m, step, st.at);
    case LlmEnd(step, provider) => OwedLlmEnd(s, m, step, provider, st.at);
    case CompactStart => OwedCompactStart(s, m, st.at);
    case CompactEnd(isError) => OwedCompactEnd(s, m, isError, st.at);
    case ToolStart(c, name, input) => OwedToolStart(s, m, c, name, input, st.at);
    case ToolEnd(c, isError) => OwedToolEnd(s, m, c, isError, st.at);
  }

  lemma DrawnToolStart(s: State, c: CallId, name: string, input: Input, now: Time)
    requires Drawn(s)
    ensures Drawn(OnToolStart(s, c, name, input, now))
  {
    var s1, s' := RecordTool(s, c, name, input, now), OnToolStart(s, c, name, input, now);
    assert Has(s, s.top);
    forall f | Has(s', f) ensures f == s1.top || Has(s, f) || f.pending == map[] { }
  }

  lemma DrawnToolEnd(s: State, c: CallId, isError: bool, now: Time)
    requires Drawn(s)
    ensures Drawn(OnToolEnd(s, c, isError, now))
  {
    DrawnEndSubagent(s, isError, now);
    hide Drawn, EndSubagent, EndTool;
    DrawnEndTool(if s.HasAgentCall(c) then EndSubagent(s, isError, now) else s, c, isError, now);
  }

  lemma DrawnEndSubagent(s: State, isError: bool, now: Time)
    requires Drawn(s)
    ensures Drawn(EndSubagent(s, isError, now))
  {
    var s' := EndSubagent(s, isError, now);
    assert Has(s, s.top) && s'.nextId == s.nextId && s'.generations == s.generations;
    forall f | Has(s', f) ensures Has(s, f) || f.pending == s.top.pending { }
  }

  lemma DrawnEndTool(s: State, c: CallId, isError: bool, now: Time)
    requires Drawn(s)
    ensures Drawn(EndTool(s, c, isError, now))
  {
    assert Has(s, s.top);
    forall f | Has(EndTool(s, c, isError, now), f)
      ensures Has(s, f) || (forall d :: d in f.pending ==> d in s.top.pending && f.pending[d] == s.top.pending[d])
    {
    }
  }

  lemma DrawnStep(s: State, st: Step)
    requires Drawn(s)
    ensures Drawn(Apply(s, st))
  {
    assert Has(s, s.top);
    match st.call
    case ToolStart(c, name, input) => DrawnToolStart(s, c, name, input, st.at);
    case ToolEnd(c, isError) => DrawnToolEnd(s, c, isError, st.at);
    case _ =>
      forall f | Has(Apply(s, st), f) ensures Has(s, f) || f.pending == s.top.pending { }
  }

  lemma AccountedStep(s: State, m: Monitor, st: Step)
    requires Accounted(s, m) && Allowed(m, st.call)
    ensures Accounted(Apply(s, st), Next(m, st.call))
  {
    FollowsStep(s, m, st);
    OwedStep(s, m, st);
    DrawnStep(s, st);
  }

  lemma AccountedRun(start: Time, steps: seq<Step>)
    requires Disciplined(steps)
    ensures Accounted(Run(start, steps), Watch(steps))
  {
    if steps == [] {
      var e := AgentRunStarted(MAIN_AGENT, start);
      Extend([], e);
      assert Run(start, steps).log == [] + [e];
    } else {
      DisciplinedPrefix(steps);
      AccountedRun(start, steps[..|steps| - 1]);
      AccountedStep(Run(start, steps[..|steps| - 1]), Watch(steps[..|steps| - 1]), steps[|steps| - 1]);
    }
  }

  // ---- main results ----

  /** Everything named as a parent is itself created by something emitted. */
  predicate Closed(log: seq<Event>) { Parents(log) <= Created(log) }

  lemma OwedIffNot(s: State, m: Monitor)
    requires Follows(s, m) && FrameIds(s)
    ensures (forall id :: !OwedBy(s.top, Flushed(m.top), id) && !OwedBelow(s.below, m.below, id)) <==> m.OwesNothing()
  {
    if m.below != [] && !m.OwesNothing() {
      assert forall i :: 0 < i < |s.below| ==> Young(s.below[0], s.below[i].agent.n);
      if m.top.referenced || m.top.ended {
        assert Young(s.below[0], s.top.agent.n);
        assert OwedBy(s.top, Flushed(m.top), s.top.agent);
      } else {
        var i :| 0 <= i < |m.below| && (m.below[i].scope.ended || (i != 0 && m.below[i].scope.referenced));
        var id := if m.below[i].scope.ended then s.below[i].batch.value else s.below[i].agent;
        assert OwedBy(s.below[i], m.below[i].scope, id);
        assert OwedBelow(s.below, m.below, id);
      }
    }
  }

  lemma EndsWithoutReference(s: State, end: Time)
    ensures Closed(OnTraceEnd(s, end).log) <==> forall id :: id !in Dangling(FlushToolsBatch(s).log)
  {
    hide FlushToolsBatch;
    var log, e := FlushToolsBatch(s).log, AgentRunEnded(s.Main().agent, end);
    Extend(log, e);
    var all := OnTraceEnd(s, end).log;
    assert all == log + [e];
    assert Parents(all) == Parents(log) && Created(all) == Created(log);
    assert Dangling(log) == Parents(log) - Created(log);
    NoDifference(Parents(log), Created(log));
    assert Closed(all) <==> Parents(log) <= Created(log);
  }

  lemma NoDifference(a: set<Id>, b: set<Id>)
    ensures a <= b <==> forall id :: id !in a - b
  {
    if !(a <= b) {
      var id :| id in a && id !in b;
      assert id in a - b;
    }
  }

  lemma ClosedAtEnd(s: State, m: Monitor, end: Time)
    requires Accounted(s, m)
    ensures Closed(OnTraceEnd(s, end).log) <==>
              (forall id :: !OwedBy(s.top, Flushed(m.top), id) && !OwedBelow(s.below, m.below, id))
  {
    var s1 := FlushToolsBatch(s);
    FlushKeeps(s, m);
    assert s1.top.agent == s.top.agent && s1.top.batch == None && s1.below == s.below;
    EndsWithoutReference(s, end);
    hide Follows, FrameIds, Drawn, FlushToolsBatch, OwedBelow, OnTraceEnd, Closed, Dangling;
    forall id ensures id in Dangling(s1.log) <==> OwedBy(s.top, Flushed(m.top), id) || OwedBelow(s.below, m.below, id) {
      assert OwedBy(s1.top, Flushed(m.top), id) <==> OwedBy(s.top, Flushed(m.top), id);
    }
  }

  /**
   A disciplined turn leaves no reference behind at its end exactly when the calls it received owe nothing: no
   open sub-agent has been named as a parent or has ended a tool, and no outer batch has an ended tool.
   */
  lemma ClosedIffNothingOwed(start: Time, steps: seq<Step>, end: Time)
    requires Disciplined(steps)
    ensures Closed(OnTraceEnd(Run(start, steps), end).log) <==> Watch(steps).OwesNothing()
  {
    AccountedRun(start, steps);
    ClosedAtEnd(Run(start, steps), Watch(steps), end);
    OwedIffNot(Run(start, steps), Watch(steps));
  }

  /** So a turn in which every tool and every sub-agent has ended is closed, and nothing of it is left in the tracer. */
  lemma BalancedRunIsClosed(start: Time, steps: seq<Step>, end: Time)
    requires Disciplined(steps) && Balanced(steps)
    ensures var s := OnTraceEnd(Run(start, steps), end);
            && Closed(s.log)
            && s.below == [] && s.top.pending == map[] && s.top.batch.None? && s.top.agent == MAIN_AGENT
  {
    ClosedIffNothingOwed(start, steps, end);
    AccountedRun(start, steps);
    assert FrameMatches(Run(start, steps).top, Watch(steps).top);
  }
}
