/**
 The ledger of a disciplined turn: every tool that was started, the agent that started it, and the one tool
 observation it ends in.
 */
module SpanLedger {
  import opened Wrappers
  import opened TraceModel
  import opened Discipline
  import opened SpanGraph

  /** A start of a tool: the call, the name, the id its observation will have, and the agent it was started by. */
  datatype Launch = Launch(call: CallId, name: string, span: Id, agent: Id, at: Time)

  function LaunchFor(f: Frame, c: CallId): Launch
    requires c in f.pending
  {
    Launch(c, f.pending[c].name, f.pending[c].span, f.agent, f.pending[c].start)
  }

  function LaunchOf(s: State, st: Step): seq<Launch> {
    match st.call
    case ToolStart(c, name, input) => [LaunchFor(RecordTool(s, c, name, input, st.at).top, c)]
    case _ => []
  }

  /** Every tool start of a run, in order. */
  function Launches(start: Time, steps: seq<Step>): seq<Launch> {
    if steps == [] then [] else
    var before := steps[..|steps| - 1];
    Launches(start, before) + LaunchOf(Run(start, before), steps[|steps| - 1])
  }

  // ---- what the log says about a launch ----

  /** With a steady clock `a` is no later than `b`. The wall clock can step back, and then nothing is said. */
  predicate NoLater(steady: bool, a: Time, b: Time) { steady ==> a <= b }

  predicate Encloses(steady: bool, from: Option<Time>, to: Option<Time>, e: Event) {
    && from.Some? && to.Some? && e.body.start.Some? && e.body.end.Some?
    && NoLater(steady, from.value, e.body.start.value) && NoLater(steady, e.body.end.value, to.value)
  }

  /** `e` is the tool observation of `l`. */
  predicate Observes(e: Event, l: Launch) {
    && e.Create? && e.body.kind == ToolObservation && e.body.id == l.span && e.body.name == l.name
    && e.body.start == Some(l.at) && e.body.parent.Some?
  }

  /** `b` is the emitted batch span that `e` belongs to, and `agent` is the agent of that batch. */
  predicate BatchOf(steady: bool, b: Event, e: Event, agent: Id) {
    && b.Create? && b.body.kind == Span && b.body.name == "Tools"
    && e.body.parent == Some(b.body.id) && b.body.parent == Some(agent)
    && Encloses(steady, b.body.start, b.body.end, e)
  }

  /** `e` belongs to the batch of `f`, which has not been emitted yet. */
  predicate InOpenBatch(steady: bool, f: Frame, e: Event, agent: Id) {
    f.agent == agent && f.batch.Some? && e.body.parent == f.batch && Encloses(steady, f.batchStart, f.batchEnd, e)
  }

  ghost predicate Housed(steady: bool, s: State, e: Event, agent: Id) {
    || (exists f :: Has(s, f) && InOpenBatch(steady, f, e, agent))
    || (exists b :: b in s.log && BatchOf(steady, b, e, agent))
  }

  ghost predicate Done(steady: bool, s: State, l: Launch) {
    exists e :: e in s.log && Observes(e, l) && Housed(steady, s, e, l.agent)
  }

  ghost predicate IsPending(s: State, l: Launch) {
    exists f :: Has(s, f) && l.call in f.pending && l == LaunchFor(f, l.call)
  }

  ghost predicate DistinctSpans(ls: seq<Launch>) {
    forall i, j :: 0 <= i < j < |ls| ==> ls[i].span != ls[j].span
  }

  ghost predicate DistinctCreates(log: seq<Event>) {
    forall i, j :: 0 <= i < j < |log| && log[i].Create? && log[j].Create? ==> log[i].body.id != log[j].body.id
  }

  ghost predicate OnTime(steady: bool, f: Frame, now: Time) {
    && NoLater(steady, f.start, now)
    && (f.batchStart.Some? ==> NoLater(steady, f.start, f.batchStart.value) && NoLater(steady, f.batchStart.value, now))
    && (f.batchEnd.Some? ==> NoLater(steady, f.batchEnd.value, now))
    && (forall c :: c in f.pending ==>
          f.batchStart.Some? && NoLater(steady, f.batchStart.value, f.pending[c].start)
          && NoLater(steady, f.pending[c].start, now))
  }

  ghost predicate ToolIds(s: State, ls: seq<Launch>) {
    && DistinctSpans(ls)
    && (forall l :: l in ls ==> l.span.role == ToolRole && l.span.n < s.nextId)
    && (forall f, c :: Has(s, f) && c in f.pending ==> f.pending[c].span !in Created(s.log) && LaunchFor(f, c) in ls)
  }

  ghost predicate GenerationIds(s: State) {
    && (forall k :: k in s.generations ==> s.generations[k].id !in Created(s.log))
    && (forall j, k :: j in s.generations && k in s.generations && j != k ==>
          s.generations[j].id != s.generations[k].id)
  }

  ghost predicate Ids(s: State, ls: seq<Launch>) {
    DistinctCreates(s.log) && ToolIds(s, ls) && GenerationIds(s)
  }

  predicate IsBatch(e: Event) { e.Create? && e.body.kind == Span && e.body.name == "Tools" }

  predicate IsTool(e: Event) { e.Create? && e.body.kind == ToolObservation }

  /** `a` is the observation of the agent that the batch `b` belongs to. */
  predicate AgentOf(steady: bool, a: Event, b: Event) {
    a.Create? && a.body.kind == AgentObservation && b.body.parent == Some(a.body.id)
    && Encloses(steady, a.body.start, a.body.end, b)
  }

  /** The batch `b` lies within its agent, if that agent is a sub-agent. */
  ghost predicate Hosted(steady: bool, s: State, b: Event) {
    || b.body.parent == Some(MAIN_AGENT)
    || (exists f :: Has(s, f) && b.body.parent == Some(f.agent) && Encloses(steady, Some(f.start), b.body.end, b))
    || (exists a :: a in s.log && AgentOf(steady, a, b))
  }

  /** A batch that has ended by `now`, in its agent. */
  ghost predicate Placed(steady: bool, s: State, b: Event, now: Time) {
    b.body.end.Some? && NoLater(steady, b.body.end.value, now) && Hosted(steady, s, b)
  }

  ghost predicate Balances(steady: bool, s: State, ls: seq<Launch>, now: Time) {
    && (forall l :: l in ls ==> IsPending(s, l) || Done(steady, s, l))
    && (forall e :: e in s.log && IsTool(e) ==> exists l :: l in ls && Observes(e, l))
    && (forall b :: b in s.log && IsBatch(b) ==> Placed(steady, s, b, now))
    && (forall f :: Has(s, f) ==> OnTime(steady, f, now))
  }

  // ---- what a call keeps ----

  predicate SameBatch(steady: bool, f: Frame, g: Frame) {
    && f.agent == g.agent && f.batch == g.batch && f.batchStart == g.batchStart
    && f.batchEnd.Some? && g.batchEnd.Some? && NoLater(steady, f.batchEnd.value, g.batchEnd.value)
  }

  /** The batch of `f` is still open in `s`, or it has been emitted. */
  ghost predicate Kept(steady: bool, f: Frame, s: State) {
    f.batch.Some? && f.batchStart.Some? && f.batchEnd.Some? ==>
      (exists g :: Has(s, g) && SameBatch(steady, f, g)) || BatchEvent(f) in s.log
  }

  lemma HousedKept(steady: bool, s: State, s': State, e: Event, agent: Id)
    requires Housed(steady, s, e, agent)
    requires forall b :: b in s.log ==> b in s'.log
    requires forall f :: Has(s, f) ==> Kept(steady, f, s')
    ensures Housed(steady, s', e, agent)
  {
    if f :| Has(s, f) && InOpenBatch(steady, f, e, agent) {
      if BatchEvent(f) in s'.log {
        assert BatchOf(steady, BatchEvent(f), e, agent);
      } else {
        var g :| Has(s', g) && SameBatch(steady, f, g);
        assert InOpenBatch(steady, g, e, agent);
      }
    }
  }

  lemma DoneKept(steady: bool, s: State, s': State, l: Launch)
    requires Done(steady, s, l)
    requires forall b :: b in s.log ==> b in s'.log
    requires forall f :: Has(s, f) ==> Kept(steady, f, s')
    ensures Done(steady, s', l)
  {
    var e :| e in s.log && Observes(e, l) && Housed(steady, s, e, l.agent);
    HousedKept(steady, s, s', e, l.agent);
  }

  lemma EmitDistinct(log: seq<Event>, e: Event)
    requires DistinctCreates(log) && (e.Create? ==> e.body.id !in Created(log))
    ensures DistinctCreates(log + [e])
  {
    forall i | 0 <= i < |log| && log[i].Create? && e.Create? ensures log[i].body.id != e.body.id {
      assert log[i] in log;
    }
  }

  predicate Includes(g: Frame, f: Frame) {
    g.agent == f.agent && forall c :: c in f.pending ==> c in g.pending && g.pending[c] == f.pending[c]
  }

  /** The tools pending in `f` are pending for the same agent in `s`. */
  ghost predicate Carried(f: Frame, s: State) {
    f.pending == map[] || exists g :: Has(s, g) && Includes(g, f)
  }

  /** The agent of `f` is still running in `s`, or its observation has been emitted and ends at `now`. */
  ghost predicate AgentKept(f: Frame, s: State, now: Time) {
    (exists g :: Has(s, g) && g.agent == f.agent && g.start == f.start)
    || (exists isError :: SubagentEvent(f, isError, now) in s.log)
  }

  lemma HostedKept(steady: bool, s: State, s': State, b: Event, at: Time)
    requires Hosted(steady, s, b) && b.body.end.Some? && NoLater(steady, b.body.end.value, at)
    requires forall e :: e in s.log ==> e in s'.log
    requires forall f :: Has(s, f) ==> AgentKept(f, s', at)
    ensures Hosted(steady, s', b)
  {
    if f :| Has(s, f) && b.body.parent == Some(f.agent) && Encloses(steady, Some(f.start), b.body.end, b) {
      if g :| Has(s', g) && g.agent == f.agent && g.start == f.start {
        assert Encloses(steady, Some(g.start), b.body.end, b);
      } else {
        var isError :| SubagentEvent(f, isError, at) in s'.log;
        assert AgentOf(steady, SubagentEvent(f, isError, at), b);
      }
    }
  }

  /** A step that ends no tool. */
  lemma Quiet(steady: bool, s: State, s': State, ls: seq<Launch>, now: Time, at: Time, more: seq<Event>)
    requires Balances(steady, s, ls, now) && NoLater(steady, now, at)
    requires s'.log == s.log + more
    requires forall e :: e in more ==> !IsTool(e)
    requires forall b :: b in more && IsBatch(b) ==> Placed(steady, s', b, at)
    requires forall f :: Has(s, f) ==> Kept(steady, f, s') && Carried(f, s') && AgentKept(f, s', at)
    requires forall f :: Has(s', f) ==> OnTime(steady, f, at)
    ensures Balances(steady, s', ls, at)
  {
    forall l | l in ls ensures IsPending(s', l) || Done(steady, s', l) {
      if IsPending(s, l) {
        var f :| Has(s, f) && l.call in f.pending && l == LaunchFor(f, l.call);
        var g :| Has(s', g) && Includes(g, f);
        assert l == LaunchFor(g, l.call);
      } else {
        DoneKept(steady, s, s', l);
      }
    }
    forall b | b in s'.log && IsBatch(b) ensures Placed(steady, s', b, at) {
      if b in s.log { HostedKept(steady, s, s', b, at); }
    }
  }

  lemma FlushHosted(steady: bool, s: State, s': State, now: Time)
    requires Flushable(s.top) && OnTime(steady, s.top, now)
    requires exists g :: Has(s', g) && g.agent == s.top.agent && g.start == s.top.start
    ensures Hosted(steady, s', BatchEvent(s.top)) && NoLater(steady, BatchEvent(s.top).body.end.value, now)
  {
    var g :| Has(s', g) && g.agent == s.top.agent && g.start == s.top.start;
    assert Encloses(steady, Some(g.start), BatchEvent(s.top).body.end, BatchEvent(s.top));
  }

  lemma BalancesSameFrames(steady: bool, s: State, s': State, ls: seq<Launch>, now: Time, at: Time, more: seq<Event>)
    requires Balances(steady, s, ls, now) && NoLater(steady, now, at)
    requires s'.top == s.top && s'.below == s.below && s'.log == s.log + more
    requires forall e :: e in more ==> !IsTool(e) && !IsBatch(e)
    ensures Balances(steady, s', ls, at)
  {
    forall f | Has(s, f) || Has(s', f)
      ensures Kept(steady, f, s') && Carried(f, s') && AgentKept(f, s', at) && OnTime(steady, f, at)
    {
      assert Has(s, f) && Has(s', f);
      assert f.batchEnd.Some? ==> SameBatch(steady, f, f);
    }
    Quiet(steady, s, s', ls, now, at, more);
  }

  /** A step that starts and ends no tool, and creates at most an id that no tool or generation still waits for. */
  lemma QuietIds(s: State, s': State, ls: seq<Launch>, e: Event)
    requires Drawn(s) && Ids(s, ls) && s.nextId <= s'.nextId
    requires s'.log == s.log + [e] || s'.log == s.log
    requires e.Create? ==> e.body.id !in Created(s.log) && e.body.id.role != ToolRole
    requires s'.below == s.below && s'.top.agent == s.top.agent && s'.top.pending == s.top.pending
    ensures DistinctCreates(s'.log) && ToolIds(s', ls)
    ensures e.body.id.role != GenerationRole && s'.generations == s.generations ==> GenerationIds(s')
  {
    EmitDistinct(s.log, e);
    Extend(s.log, e);
    forall f, c | Has(s', f) && c in f.pending ensures f.pending[c].span !in Created(s'.log) && LaunchFor(f, c) in ls {
      var g := if f == s'.top then s.top else f;
      assert Has(s, g) && LaunchFor(f, c) == LaunchFor(g, c);
    }
  }

  lemma IdsLlmStart(s: State, m: Monitor, ls: seq<Launch>, step: nat, at: Time)
    requires Accounted(s, m) && Ids(s, ls)
    ensures Ids(OnLlmStart(s, step, at), ls)
  {
    var e := if Flushable(s.top) then BatchEvent(s.top) else AgentRunEnded(MAIN_AGENT, at);
    QuietIds(s, OnLlmStart(s, step, at), ls, e);
    Extend(s.log, e);
    hide Follows, FrameIds, OnlyOwed, ToolIds, DistinctCreates;
    NewGeneration(s, OnLlmStart(s, step, at), step, at);
  }

  lemma NewGeneration(s: State, s': State, step: nat, at: Time)
    requires Drawn(s) && GenerationIds(s)
    requires s'.generations == s.generations[step := Started(Id(GenerationRole, s.nextId), at)]
    requires forall id :: id in Created(s'.log) ==> id in Created(s.log) || id.role != GenerationRole
    requires forall id :: id in Created(s.log) ==> id.n < s.nextId
    ensures GenerationIds(s')
  {
  }

  lemma IdsLlmEnd(s: State, m: Monitor, ls: seq<Launch>, step: nat, provider: string, at: Time)
    requires Accounted(s, m) && Ids(s, ls)
    ensures Ids(OnLlmEnd(s, step, provider, at), ls)
  {
    if step in s.generations {
      var e := GenerationEvent(s.generations[step], s.top.agent, provider, at);
      QuietIds(s, OnLlmEnd(s, step, provider, at), ls, e);
      Extend(s.log, e);
    }
  }

  lemma IdsCompactStart(s: State, m: Monitor, ls: seq<Launch>, at: Time)
    requires Accounted(s, m) && Ids(s, ls)
    ensures Ids(OnCompactStart(s, at), ls)
  {
    QuietIds(s, OnCompactStart(s, at), ls, CompactStarted(Id(CompactRole, s.nextId), s.top.agent, at));
  }

  lemma IdsCompactEnd(s: State, ls: seq<Launch>, isError: bool, at: Time)
    requires Drawn(s) && Ids(s, ls)
    ensures Ids(OnCompactEnd(s, isError, at), ls)
  {
    if s.compact.Some? {
      QuietIds(s, OnCompactEnd(s, isError, at), ls, CompactEnded(s.compact.value, s.top.agent, isError, at));
    }
  }

  lemma IdsRecord(s: State, ls: seq<Launch>, c: CallId, name: string, input: Input, at: Time)
    requires FrameIds(s) && Drawn(s) && Ids(s, ls)
    ensures var s1 := RecordTool(s, c, name, input, at); Ids(s1, ls + [LaunchFor(s1.top, c)])
  {
    var s1 := RecordTool(s, c, name, input, at);
    var l := LaunchFor(s1.top, c);
    assert s1.log == s.log && s.nextId <= l.span.n < s1.nextId;
    forall f, d | Has(s1, f) && d in f.pending
      ensures f.pending[d].span !in Created(s1.log) && LaunchFor(f, d) in ls + [l]
    {
      var g := if f == s1.top then s.top else f;
      if f != s1.top || d != c {
        assert Has(s, g) && LaunchFor(f, d) == LaunchFor(g, d);
      }
    }
    forall i | 0 <= i < |ls| ensures ls[i].span != l.span {
      assert ls[i] in ls;
    }
  }

  lemma IdsToolStart(s: State, m: Monitor, ls: seq<Launch>, c: CallId, name: string, input: Input, at: Time)
    requires Accounted(s, m) && Ids(s, ls)
    ensures Ids(OnToolStart(s, c, name, input, at), ls + LaunchOf(s, Step(ToolStart(c, name, input), at)))
  {
    var s1 := RecordTool(s, c, name, input, at);
    var l := LaunchFor(s1.top, c);
    hide Ids, RecordTool, BeginSubagent, Follows, FrameIds, OnlyOwed, Drawn;
    IdsRecord(s, ls, c, name, input, at);
    IdsBegin(s1, ls + [l], input, at);
  }

  lemma IdsBegin(s: State, ls: seq<Launch>, input: Input, at: Time)
    requires Ids(s, ls)
    ensures Ids(BeginSubagent(s, input, at), ls)
  {
    assert forall f :: Has(BeginSubagent(s, input, at), f) ==> Has(s, f) || f.pending == map[];
  }

  /** The launches of the pending tools are all different, since their spans are. */
  lemma PendingOnce(s: State, ls: seq<Launch>, f: Frame, c: CallId, g: Frame, d: CallId)
    requires FrameIds(s) && ToolIds(s, ls) && Has(s, f) && Has(s, g) && c in f.pending && d in g.pending
    requires f.pending[c].span == g.pending[d].span
    ensures c == d && f == g
  {
    assert LaunchFor(f, c) in ls && LaunchFor(g, d) in ls;
    var i :| 0 <= i < |ls| && ls[i] == LaunchFor(f, c);
    var j :| 0 <= j < |ls| && ls[j] == LaunchFor(g, d);
    assert i == j;
    if f in s.below && g in s.below {
      var p :| 0 <= p < |s.below| && s.below[p] == f;
      var q :| 0 <= q < |s.below| && s.below[q] == g;
    }
  }

  lemma IdsEndTool(s: State, ls: seq<Launch>, c: CallId, isError: bool, at: Time)
    requires FrameIds(s) && Drawn(s) && Ids(s, ls) && c in s.top.pending
    ensures Ids(EndTool(s, c, isError, at), ls)
  {
    var s', e := EndTool(s, c, isError, at), ToolEvent(s.top.pending[c], isError, at);
    assert Has(s, s.top);
    EmitDistinct(s.log, e);
    Extend(s.log, e);
    forall f, d | Has(s', f) && d in f.pending ensures f.pending[d].span !in Created(s'.log) && LaunchFor(f, d) in ls {
      var g := if f == s'.top then s.top else f;
      assert Has(s, g) && LaunchFor(f, d) == LaunchFor(g, d);
      if f.pending[d].span == e.body.id {
        PendingOnce(s, ls, s.top, c, g, d);
      }
    }
  }

  lemma DistinctEndSubagent(s: State, isError: bool, at: Time)
    requires FrameIds(s) && s.below != [] && DistinctCreates(s.log)
    ensures DistinctCreates(EndSubagent(s, isError, at).log)
  {
    var e := SubagentEvent(s.top, isError, at);
    assert Young(s.below[0], s.top.agent.n);
    EmitDistinct(s.log, e);
    Extend(s.log, e);
    if Flushable(s.top) { EmitDistinct(s.log + [e], BatchEvent(s.top)); }
  }

  lemma IdsEndSubagent(s: State, ls: seq<Launch>, isError: bool, at: Time)
    requires FrameIds(s) && Drawn(s) && Ids(s, ls) && s.below != [] && (s.top.batchEnd.Some? ==> Flushable(s.top))
    ensures Ids(EndSubagent(s, isError, at), ls) && Drawn(EndSubagent(s, isError, at))
  {
    DistinctEndSubagent(s, isError, at);
    EndSubagentLog(s, isError, at);
    var s' := EndSubagent(s, isError, at);
    assert s'.nextId == s.nextId && s'.generations == s.generations;
    forall f | Has(s', f) ensures Has(s, f) { }
  }

  lemma IdsToolEnd(s: State, m: Monitor, ls: seq<Launch>, c: CallId, isError: bool, at: Time)
    requires Accounted(s, m) && Ids(s, ls) && Allowed(m, ToolEnd(c, isError))
    ensures Ids(OnToolEnd(s, c, isError, at), ls)
  {
    AgentCallIsTop(s, m, c, isError);
    var s1 := if m.EndsAgent(c) then EndSubagent(s, isError, at) else s;
    assert OnToolEnd(s, c, isError, at) == EndTool(s1, c, isError, at);
    if m.EndsAgent(c) {
      IdsEndSubagent(s, ls, isError, at);
      EndSubagentIds(s, isError, at);
    }
    if c in s1.top.pending {
      IdsEndTool(s1, ls, c, isError, at);
    }
  }

  lemma IdsStep(s: State, m: Monitor, ls: seq<Launch>, st: Step)
    requires Accounted(s, m) && Ids(s, ls) && Allowed(m, st.call)
    ensures Ids(Apply(s, st), ls + LaunchOf(s, st))
  {
    assert ls + [] == ls;
    match st.call
    case LlmStart(step) => IdsLlmStart(s, m, ls, step, st.at);
    case LlmEnd(step, provider) => IdsLlmEnd(s, m, ls, step, provider, st.at);
    case CompactStart => IdsCompactStart(s, m, ls, st.at);
    case CompactEnd(isError) => IdsCompactEnd(s, ls, isError, st.at);
    case ToolStart(c, name, input) => IdsToolStart(s, m, ls, c, name, input, st.at);
    case ToolEnd(c, isError) => IdsToolEnd(s, m, ls, c, isError, st.at);
  }

  lemma BalancesFlush(steady: bool, s: State, ls: seq<Launch>, now: Time)
    requires Balances(steady, s, ls, now) && s.top.pending == map[]
    ensures Balances(steady, FlushToolsBatch(s), ls, now)
  {
    var s' := FlushToolsBatch(s);
    assert Has(s, s.top) && Has(s', s'.top) && OnTime(steady, s.top, now);
    if Flushable(s.top) { FlushHosted(steady, s, s', now); }
    forall f | Has(s, f) ensures Kept(steady, f, s') && Carried(f, s') && AgentKept(f, s', now) {
      if f in s.below {
        assert Has(s', f) && (f.batchEnd.Some? ==> SameBatch(steady, f, f));
      }
    }
    forall f | Has(s', f) ensures OnTime(steady, f, now) {
      assert f != s'.top ==> Has(s, f);
    }
    Quiet(steady, s, s', ls, now, now, if Flushable(s.top) then [BatchEvent(s.top)] else []);
  }

  lemma BalancesLlmStart(steady: bool, s: State, m: Monitor, ls: seq<Launch>, now: Time, step: nat, at: Time)
    requires Accounted(s, m) && Balances(steady, s, ls, now) && NoLater(steady, now, at) && Allowed(m, LlmStart(step))
    ensures Balances(steady, OnLlmStart(s, step, at), ls, at)
  {
    assert s.top.pending == map[];
    BalancesFlush(steady, s, ls, now);
    BalancesSameFrames(steady, FlushToolsBatch(s), OnLlmStart(s, step, at), ls, now, at, []);
  }

  /** A tool starts in a context that has no batch left over from its last LLM call. */
  lemma BalancesRecord(steady: bool, s: State, ls: seq<Launch>, now: Time, c: CallId, name: string, input: Input,
                       at: Time)
    requires Balances(steady, s, ls, now) && NoLater(steady, now, at) && c !in s.top.pending
    requires s.top.pending == map[] ==> s.top.batch.None?
    ensures var s1 := RecordTool(s, c, name, input, at);
            Balances(steady, s1, ls, at) && IsPending(s1, LaunchFor(s1.top, c))
  {
    var s1 := RecordTool(s, c, name, input, at);
    assert Has(s, s.top) && OnTime(steady, s.top, now) && Has(s1, s1.top);
    forall f | Has(s, f) ensures Kept(steady, f, s1) && Carried(f, s1) && AgentKept(f, s1, at) {
      if f in s.below {
        assert Has(s1, f) && (f.batchEnd.Some? ==> SameBatch(steady, f, f));
      } else {
        assert s.top.batchEnd.Some? && s.top.batch.Some? ==> SameBatch(steady, s.top, s1.top);
      }
    }
    forall f | Has(s1, f) ensures OnTime(steady, f, at) {
      assert f != s1.top ==> Has(s, f);
    }
    Quiet(steady, s, s1, ls, now, at, []);
    assert LaunchFor(s1.top, c).call == c;
  }

  lemma BalancesBegin(steady: bool, s: State, ls: seq<Launch>, input: Input, at: Time)
    requires Balances(steady, s, ls, at)
    ensures Balances(steady, BeginSubagent(s, input, at), ls, at)
  {
    var s' := BeginSubagent(s, input, at);
    forall f | Has(s, f) ensures Kept(steady, f, s') && Carried(f, s') && AgentKept(f, s', at) {
      assert Has(s', f) && (f.batchEnd.Some? ==> SameBatch(steady, f, f));
    }
    forall f | Has(s', f) ensures OnTime(steady, f, at) {
      assert f != s'.top ==> Has(s, f);
    }
    Quiet(steady, s, s', ls, at, at, []);
  }

  lemma BalancesToolStart(steady: bool, s: State, m: Monitor, ls: seq<Launch>, now: Time, c: CallId, name: string,
                          input: Input, at: Time)
    requires Accounted(s, m) && Balances(steady, s, ls, now) && NoLater(steady, now, at)
    requires Allowed(m, ToolStart(c, name, input))
    ensures var more := LaunchOf(s, Step(ToolStart(c, name, input), at));
            Balances(steady, OnToolStart(s, c, name, input, at), ls + more, at)
  {
    assert s.top.pending == map[] ==> m.top.open == {};
    var s1 := RecordTool(s, c, name, input, at);
    var l := LaunchFor(s1.top, c);
    BalancesRecord(steady, s, ls, now, c, name, input, at);
    assert Balances(steady, s1, ls + [l], at);
    if name == "Agent" {
      BalancesBegin(steady, s1, ls + [l], input, at);
    }
  }

  lemma BalancesEndSubagent(steady: bool, s: State, ls: seq<Launch>, now: Time, isError: bool, at: Time)
    requires Balances(steady, s, ls, now) && NoLater(steady, now, at) && s.below != []
    requires s.top.pending == map[] && (s.top.batchEnd.Some? ==> Flushable(s.top))
    ensures Balances(steady, EndSubagent(s, isError, at), ls, at)
  {
    var s' := EndSubagent(s, isError, at);
    var e := SubagentEvent(s.top, isError, at);
    var more := if Flushable(s.top) then [e, BatchEvent(s.top)] else [e];
    assert s'.log == s.log + more && e in more;
    assert Has(s, s.top) && OnTime(steady, s.top, now);
    if Flushable(s.top) {
      assert BatchEvent(s.top) in more && AgentOf(steady, e, BatchEvent(s.top));
    }
    forall f | Has(s, f) ensures Kept(steady, f, s') && Carried(f, s') && AgentKept(f, s', at) {
      if f in s.below {
        assert Has(s', f) && (f.batchEnd.Some? ==> SameBatch(steady, f, f));
      }
    }
    forall f | Has(s', f) ensures OnTime(steady, f, at) {
      assert Has(s, f);
    }
    Quiet(steady, s, s', ls, now, at, more);
  }

  lemma BalancesEndTool(steady: bool, s: State, ls: seq<Launch>, now: Time, c: CallId, isError: bool, at: Time)
    requires Balances(steady, s, ls, now) && NoLater(steady, now, at) && c in s.top.pending && LaunchFor(s.top, c) in ls
    requires s.top.batch == Some(s.top.pending[c].parent)
    ensures Balances(steady, EndTool(s, c, isError, at), ls, at)
  {
    var s', e := EndTool(s, c, isError, at), ToolEvent(s.top.pending[c], isError, at);
    var quiet := s'.(log := s.log);
    assert Has(s, s.top) && Has(s', s'.top) && OnTime(steady, s.top, now) && e in s'.log;
    assert Observes(e, LaunchFor(s.top, c)) && InOpenBatch(steady, s'.top, e, s.top.agent);
    forall f | Has(s, f) ensures Kept(steady, f, s') && AgentKept(f, s', at) {
      assert f.batchEnd.Some? ==> SameBatch(steady, f, if f == s.top then s'.top else f);
      assert Has(s', if f == s.top then s'.top else f);
    }
    forall l | l in ls ensures IsPending(s', l) || Done(steady, s', l) {
      if IsPending(s, l) {
        var f :| Has(s, f) && l.call in f.pending && l == LaunchFor(f, l.call);
        var g := if f == s.top then s'.top else f;
        if f == s.top && l.call == c {
          assert Housed(steady, s', e, l.agent);
        } else {
          assert Has(s', g) && l == LaunchFor(g, l.call);
        }
      } else {
        DoneKept(steady, s, s', l);
      }
    }
    forall b | b in s'.log && IsBatch(b) ensures Placed(steady, s', b, at) {
      HostedKept(steady, s, s', b, at);
    }
    forall f | Has(s', f) ensures OnTime(steady, f, at) {
      assert f == s'.top || Has(s, f);
    }
  }

  lemma BalancesToolEnd(steady: bool, s: State, m: Monitor, ls: seq<Launch>, now: Time, c: CallId, isError: bool,
                        at: Time)
    requires Accounted(s, m) && Ids(s, ls) && Balances(steady, s, ls, now) && NoLater(steady, now, at)
    requires Allowed(m, ToolEnd(c, isError))
    ensures Balances(steady, OnToolEnd(s, c, isError, at), ls, at)
  {
    hide Balances, ToolIds, FrameMatches, FrameIds, OnlyOwed, Drawn, EndTool, EndSubagent;
    AgentCallIsTop(s, m, c, isError);
    if m.EndsAgent(c) {
      BalancesAgentEnd(steady, s, m, ls, now, c, isError, at);
    } else if c in m.top.open {
      PendingFacts(s, ls, s.top, m.top, c);
      BalancesEndTool(steady, s, ls, now, c, isError, at);
    } else {
      UnknownToolEnd(s, m, c, isError, at);
      BalancesSameFrames(steady, s, s, ls, now, at, []);
    }
  }

  lemma PendingFacts(s: State, ls: seq<Launch>, f: Frame, t: Scope, c: CallId)
    requires Has(s, f) && FrameMatches(f, t) && ToolIds(s, ls) && c in t.open
    ensures c in f.pending && LaunchFor(f, c) in ls && f.batch == Some(f.pending[c].parent)
  {
  }

  lemma BalancesAgentEnd(steady: bool, s: State, m: Monitor, ls: seq<Launch>, now: Time, c: CallId, isError: bool,
                         at: Time)
    requires Follows(s, m) && ToolIds(s, ls) && Balances(steady, s, ls, now) && NoLater(steady, now, at)
    requires m.EndsAgent(c) && m.top.open == {}
    ensures Balances(steady, EndTool(EndSubagent(s, isError, at), c, isError, at), ls, at)
  {
    hide Follows, Balances, ToolIds, EndTool, EndSubagent, Flushable;
    TopSettled(s, m);
    AgentCallFacts(s, m, ls, c);
    Uncovered(s, isError, at);
    BalancesEndSubagent(steady, s, ls, now, isError, at);
    BalancesEndTool(steady, EndSubagent(s, isError, at), ls, at, c, isError, at);
  }

  /** The call that ends the current sub-agent is pending in the frame below. */
  lemma AgentCallFacts(s: State, m: Monitor, ls: seq<Launch>, c: CallId)
    requires Follows(s, m) && ToolIds(s, ls) && m.EndsAgent(c)
    ensures s.below != []
    ensures var f := s.below[|s.below| - 1];
            c in f.pending && LaunchFor(f, c) in ls && f.batch == Some(f.pending[c].parent)
  {
    hide ToolIds, FrameMatches;
    var k := |s.below| - 1;
    OwnCallOpen(s.below[k], m.below[k]);
    PendingFacts(s, ls, s.below[k], m.below[k].scope, c);
  }

  lemma BalancesLlmEnd(steady: bool, s: State, ls: seq<Launch>, now: Time, step: nat, provider: string, at: Time)
    requires Balances(steady, s, ls, now) && NoLater(steady, now, at)
    ensures Balances(steady, OnLlmEnd(s, step, provider, at), ls, at)
  {
    hide Balances;
    BalancesSameFrames(steady, s, OnLlmEnd(s, step, provider, at), ls, now, at,
      if step in s.generations then [GenerationEvent(s.generations[step], s.top.agent, provider, at)] else []);
  }

  lemma BalancesCompactStart(steady: bool, s: State, ls: seq<Launch>, now: Time, at: Time)
    requires Balances(steady, s, ls, now) && NoLater(steady, now, at)
    ensures Balances(steady, OnCompactStart(s, at), ls, at)
  {
    hide Balances;
    BalancesSameFrames(steady, s, OnCompactStart(s, at), ls, now, at,
      [CompactStarted(Id(CompactRole, s.nextId), s.top.agent, at)]);
  }

  lemma BalancesCompactEnd(steady: bool, s: State, ls: seq<Launch>, now: Time, isError: bool, at: Time)
    requires Balances(steady, s, ls, now) && NoLater(steady, now, at)
    ensures Balances(steady, OnCompactEnd(s, isError, at), ls, at)
  {
    hide Balances;
    BalancesSameFrames(steady, s, OnCompactEnd(s, isError, at), ls, now, at,
      if s.compact.Some? then [CompactEnded(s.compact.value, s.top.agent, isError, at)] else []);
  }

  lemma BalancesStep(steady: bool, s: State, m: Monitor, ls: seq<Launch>, now: Time, st: Step)
    requires Accounted(s, m) && Ids(s, ls) && Balances(steady, s, ls, now) && NoLater(steady, now, st.at)
    requires Allowed(m, st.call)
    ensures Balances(steady, Apply(s, st), ls + LaunchOf(s, st), st.at)
  {
    assert ls + [] == ls;
    match st.call
    case LlmStart(step) =>
      hide Balances, Accounted, Ids;
      BalancesLlmStart(steady, s, m, ls, now, step, st.at);
    case LlmEnd(step, provider) => BalancesLlmEnd(steady, s, ls, now, step, provider, st.at);
    case CompactStart => BalancesCompactStart(steady, s, ls, now, st.at);
    case CompactEnd(isError) => BalancesCompactEnd(steady, s, ls, now, isError, st.at);
    case ToolStart(c, name, input) => BalancesToolStart(steady, s, m, ls, now, c, name, input, st.at);
    case ToolEnd(c, isError) => BalancesToolEnd(steady, s, m, ls, now, c, isError, st.at);
  }

  lemma LedgerBegin(steady: bool, start: Time, now: Time)
    requires NoLater(steady, start, now)
    ensures Ids(OnTraceStart(New(), start), []) && Balances(steady, OnTraceStart(New(), start), [], now)
  {
    hide Ids, Balances;
    var s, e := OnTraceStart(New(), start), AgentRunStarted(MAIN_AGENT, start);
    assert s.log == [e] && s.below == [] && s.top == MainFrame();
    NoLaunches(s, e);
    NoLaunchesBalance(steady, s, e, now);
  }

  lemma NoLaunches(s: State, e: Event)
    requires s.log == [e] && s.below == [] && s.top.pending == map[] && s.generations == map[]
    ensures Ids(s, [])
  {
  }

  lemma NoLaunchesBalance(steady: bool, s: State, e: Event, now: Time)
    requires s.log == [e] && !IsTool(e) && !IsBatch(e) && s.below == [] && OnTime(steady, s.top, now)
    ensures Balances(steady, s, [], now)
  {
    hide OnTime;
    assert forall f :: Has(s, f) ==> f == s.top;
  }

  lemma BalancesLater(steady: bool, s: State, ls: seq<Launch>, now: Time, at: Time)
    requires Balances(steady, s, ls, now) && NoLater(steady, now, at)
    ensures Balances(steady, s, ls, at)
  {
    assert forall f :: Has(s, f) ==> OnTime(steady, f, now);
  }

  /** The instants of the run do not decrease, and none is later than `now`. */
  ghost predicate Steady(start: Time, steps: seq<Step>, now: Time) {
    Timely(start, steps) && start <= now && forall k :: 0 <= k < |steps| ==> steps[k].at <= now
  }

  lemma SteadyBefore(start: Time, steps: seq<Step>, now: Time)
    requires Steady(start, steps, now) && steps != []
    ensures Steady(start, steps[..|steps| - 1], steps[|steps| - 1].at) && steps[|steps| - 1].at <= now
  {
  }

  lemma LedgerRun(steady: bool, start: Time, steps: seq<Step>, now: Time)
    requires Disciplined(steps) && (steady ==> Steady(start, steps, now))
    ensures Ids(Run(start, steps), Launches(start, steps))
    ensures Balances(steady, Run(start, steps), Launches(start, steps), now)
  {
    if steps == [] {
      LedgerBegin(steady, start, now);
    } else {
      var before, last := steps[..|steps| - 1], steps[|steps| - 1];
      var s, m, ls := Run(start, before), Watch(before), Launches(start, before);
      if steady { SteadyBefore(start, steps, now); }
      DisciplinedPrefix(steps);
      hide Steady, Disciplined, Ids, Balances, Accounted, Allowed, Apply, LaunchOf;
      AccountedRun(start, before);
      LedgerRun(steady, start, before, last.at);
      IdsStep(s, m, ls, last);
      BalancesStep(steady, s, m, ls, last.at, last);
      BalancesLater(steady, Run(start, steps), Launches(start, steps), last.at, now);
    }
  }

  // ---- main results ----

  /**
   Every tool start has its observation, in a batch of the very agent that started it; every tool observation comes
   from a start; no two observations have the same id, so that each of these is the only one; and every batch belongs
   to the main agent or to a sub-agent that is observed too.
   */
  ghost predicate AllObserved(steady: bool, log: seq<Event>, ls: seq<Launch>) {
    && DistinctCreates(log) && DistinctSpans(ls)
    && (forall l :: l in ls ==> exists e, b :: e in log && b in log && Observes(e, l) && BatchOf(steady, b, e, l.agent))
    && (forall e :: e in log && IsTool(e) ==> exists l :: l in ls && Observes(e, l))
    && (forall b :: b in log && IsBatch(b) ==>
          b.body.parent == Some(MAIN_AGENT) || exists a :: a in log && AgentOf(steady, a, b))
  }

  lemma ObservedAtEnd(steady: bool, start: Time, steps: seq<Step>, end: Time)
    requires Disciplined(steps) && Balanced(steps) && (steady ==> Steady(start, steps, end))
    ensures AllObserved(steady, OnTraceEnd(Run(start, steps), end).log, Launches(start, steps))
  {
    AccountedRun(start, steps);
    LedgerRun(steady, start, steps, end);
    LedgerAtEnd(steady, Run(start, steps), Watch(steps), Launches(start, steps), end);
  }

  /**
   The ledger balances at the end of every disciplined turn in which every tool and every sub-agent has ended, whatever
   the clock did.
   */
  lemma EveryToolObservedOnce(start: Time, steps: seq<Step>, end: Time)
    requires Disciplined(steps) && Balanced(steps)
    ensures AllObserved(false, OnTraceEnd(Run(start, steps), end).log, Launches(start, steps))
  {
    ObservedAtEnd(false, start, steps, end);
  }

  /** A tool lies in time within the batch it names, and the batch of a sub-agent within the sub-agent. */
  ghost predicate NestedInTime(log: seq<Event>) {
    && (forall e, b :: e in log && b in log && IsTool(e) && b.Create? && e.body.parent == Some(b.body.id) ==>
          Encloses(true, b.body.start, b.body.end, e))
    && (forall b, a :: b in log && a in log && IsBatch(b) && a.Create? && b.body.parent == Some(a.body.id) ==>
          a.body.id == MAIN_AGENT || Encloses(true, a.body.start, a.body.end, b))
  }

  /** If the clock does not step back during the turn, the instants nest as the observations do. */
  lemma TimesNest(start: Time, steps: seq<Step>, end: Time)
    requires Disciplined(steps) && Balanced(steps) && Steady(start, steps, end)
    ensures NestedInTime(OnTraceEnd(Run(start, steps), end).log)
  {
    var log, ls := OnTraceEnd(Run(start, steps), end).log, Launches(start, steps);
    hide Disciplined, Balanced, Steady, OnTraceEnd, Launches, Run, DistinctSpans, Observes;
    ObservedAtEnd(true, start, steps, end);
    forall e, b | e in log && b in log && IsTool(e) && b.Create? && e.body.parent == Some(b.body.id)
      ensures Encloses(true, b.body.start, b.body.end, e)
    {
      ToolNests(log, ls, e, b);
    }
    forall b, a | b in log && a in log && IsBatch(b) && a.Create? && b.body.parent == Some(a.body.id)
      ensures a.body.id == MAIN_AGENT || Encloses(true, a.body.start, a.body.end, b)
    {
      if a.body.id != MAIN_AGENT {
        var a' :| a' in log && AgentOf(true, a', b);
        CreatedOnce(log, a, a');
      }
    }
  }

  lemma CreatedOnce(log: seq<Event>, e: Event, e': Event)
    requires DistinctCreates(log) && e in log && e' in log && e.Create? && e'.Create? && e.body.id == e'.body.id
    ensures e == e'
  {
    var i :| 0 <= i < |log| && log[i] == e;
    var j :| 0 <= j < |log| && log[j] == e';
    assert !(i < j) && !(j < i);
  }

  lemma ToolNests(log: seq<Event>, ls: seq<Launch>, e: Event, b: Event)
    requires AllObserved(true, log, ls) && e in log && b in log && IsTool(e) && b.Create?
    requires e.body.parent == Some(b.body.id)
    ensures Encloses(true, b.body.start, b.body.end, e)
  {
    var l :| l in ls && Observes(e, l);
    var e', b' :| e' in log && b' in log && Observes(e', l) && BatchOf(true, b', e', l.agent);
    hide AllObserved;
    assert DistinctCreates(log);
    CreatedOnce(log, e, e');
    CreatedOnce(log, b, b');
  }

  lemma LedgerAtEnd(steady: bool, s: State, m: Monitor, ls: seq<Launch>, end: Time)
    requires Accounted(s, m) && Ids(s, ls) && Balances(steady, s, ls, end) && m.below == [] && m.top.open == {}
    ensures AllObserved(steady, OnTraceEnd(s, end).log, ls)
  {
    var s1, s', e := FlushToolsBatch(s), OnTraceEnd(s, end), AgentRunEnded(s.Main().agent, end);
    assert s.top.pending == map[];
    BalancesFlush(steady, s, ls, end);
    BalancesSameFrames(steady, s1, s', ls, end, end, [e]);
    QuietIds(s, s1, ls, if Flushable(s.top) then BatchEvent(s.top) else e);
    EmitDistinct(s1.log, e);
    SettledLog(steady, s', ls, end);
  }

  /** With one frame left, no open batch and no pending tool, the invariant speaks of the log alone. */
  lemma SettledLog(steady: bool, s: State, ls: seq<Launch>, now: Time)
    requires Balances(steady, s, ls, now) && DistinctCreates(s.log) && DistinctSpans(ls)
    requires s.below == [] && s.top.pending == map[] && s.top.batch.None? && s.top.agent == MAIN_AGENT
    ensures AllObserved(steady, s.log, ls)
  {
    hide Observes, BatchOf, AgentOf, DistinctCreates, DistinctSpans;
    assert forall f :: Has(s, f) ==> f == s.top;
    forall l | l in ls
      ensures exists e, b :: e in s.log && b in s.log && Observes(e, l) && BatchOf(steady, b, e, l.agent)
    {
      var e :| e in s.log && Observes(e, l) && Housed(steady, s, e, l.agent);
      var b :| b in s.log && BatchOf(steady, b, e, l.agent);
    }
  }
}
