/**
 What the events of a disciplined turn say, told from its calls: each generation, tool, sub-agent and compaction is
 reported once, with the name, the instants and the outcome of the calls that started and ended it.
 */
module SpanReports {
  import opened Wrappers
  import opened TraceModel
  import opened Discipline
  import opened SpanGraph
  import opened SpanLedger
  import opened SpanOrder
  import opened SpanSlots
  import opened SpanOwners
  import opened SpanMemory

  // ---- the expected observations ----

  /** The LLM call started in step `k` and ended in step `x`. */
  function GenerationBody(start: Time, steps: seq<Step>, k: nat, x: nat): Body
    requires k < |steps| && x < |steps| && steps[x].call.LlmEnd?
  {
    Body(DrawnAt(start, steps, k, GenerationRole), Some(OwnerAt(start, steps, x)), Kind.Generation,
         "Chat" + steps[x].call.provider, NoContent, Some(steps[k].at), Some(steps[x].at), false)
  }

  /** The tool call started in step `k` and ended in step `x`, in the batch `batch`. */
  function ToolBody(start: Time, steps: seq<Step>, k: nat, x: nat, batch: Option<Id>): Body
    requires k < |steps| && x < |steps| && steps[k].call.ToolStart? && steps[x].call.ToolEnd?
  {
    Body(LaunchOf(Run(start, steps[..k]), steps[k])[0].span, batch, ToolObservation, steps[k].call.name,
         Arguments(steps[k].call.input), Some(steps[k].at), Some(steps[x].at), steps[x].call.isError)
  }

  /** The sub-agent begun in step `k` by an Agent call that ends in step `x`. */
  function AgentBody(start: Time, steps: seq<Step>, k: nat, x: nat): Body
    requires k < |steps| && x < |steps| && IsAgentStart(steps[k]) && steps[x].call.ToolEnd?
  {
    var input := steps[k].call.input;
    Body(BegunBy(start, steps, k), None, AgentObservation, "subagent:" + input.subagentType.GetOr("fork"),
         Preview(Take(input.prompt.GetOr(""), 200)), Some(steps[k].at), Some(steps[x].at), steps[x].call.isError)
  }

  /** The compaction started in step `k`: without an end while it runs. */
  function CompactBody(start: Time, steps: seq<Step>, k: nat, owner: Id, end: Option<Time>, isError: bool): Body
    requires k < |steps|
  {
    Body(DrawnAt(start, steps, k, CompactRole), Some(owner), Span, "compact", NoContent,
         Some(steps[k].at), end, isError)
  }

  function AgentRunBody(from: Option<Time>, to: Option<Time>): Body {
    Body(MAIN_AGENT, None, AgentObservation, "agent-run", NoContent, from, to, false)
  }

  // ---- what a step emits ----

  function Emitted(start: Time, steps: seq<Step>, x: nat): seq<Event>
    requires x < |steps|
  {
    var before, after := Run(start, steps[..x]).log, Run(start, steps[..x + 1]).log;
    if |before| <= |after| then after[|before|..] else []
  }

  lemma EmittedAt(start: Time, steps: seq<Step>, x: nat)
    requires x < |steps|
    ensures var s := Run(start, steps[..x]);
            Apply(s, steps[x]).log == s.log + Emitted(start, steps, x)
            && Run(start, steps[..x + 1]) == Apply(s, steps[x])
  {
    hide Run, Apply;
    RunNext(start, steps, x);
    LogGrows(Run(start, steps[..x]), steps[x]);
  }

  lemma EmittedIs(start: Time, steps: seq<Step>, x: nat, more: seq<Event>)
    requires x < |steps| && Apply(Run(start, steps[..x]), steps[x]).log == Run(start, steps[..x]).log + more
    ensures Emitted(start, steps, x) == more
  {
    hide Run, Apply;
    EmittedAt(start, steps, x);
  }

  /** At most one batch span. */
  predicate BatchOnly(es: seq<Event>) { |es| <= 1 && forall e :: e in es ==> IsBatch(e) }

  lemma LlmStartEmits(start: Time, steps: seq<Step>, x: nat)
    requires x < |steps| && steps[x].call.LlmStart?
    ensures BatchOnly(Emitted(start, steps, x))
  {
    hide Run;
    var s := Run(start, steps[..x]);
    EmittedIs(start, steps, x, if Flushable(s.top) then [BatchEvent(s.top)] else []);
  }

  /** The end of an LLM call reports the generation if it was started and has not ended, and nothing otherwise. */
  lemma LlmEndEmits(start: Time, steps: seq<Step>, x: nat)
    requires Disciplined(steps) && x < |steps| && steps[x].call.LlmEnd?
    ensures Emitted(start, steps, x) ==
              match OpenedAt(steps, LlmStep(steps[x].call.step), x)
              case None => []
              case Some(k) => [Create(GenerationBody(start, steps, k, x))]
  {
    hide Run, Disciplined, OwnerAt, OpenedAt;
    var s, n := Run(start, steps[..x]), steps[x].call.step;
    GenerationsRemembered(start, steps, x, n);
    TopIsOwner(start, steps, x);
    EmittedIs(start, steps, x, if n in s.generations
      then [GenerationEvent(s.generations[n], s.top.agent, steps[x].call.provider, steps[x].at)] else []);
  }

  lemma CompactStartEmits(start: Time, steps: seq<Step>, x: nat)
    requires Disciplined(steps) && x < |steps| && steps[x].call.CompactStart?
    ensures Emitted(start, steps, x) ==
              [Create(CompactBody(start, steps, x, OwnerAt(start, steps, x), None, false))]
  {
    hide Run, Disciplined, OwnerAt;
    var s := Run(start, steps[..x]);
    TopIsOwner(start, steps, x);
    EmittedIs(start, steps, x, [CompactStarted(Id(CompactRole, s.nextId), s.top.agent, steps[x].at)]);
  }

  lemma CompactEndEmits(start: Time, steps: seq<Step>, x: nat)
    requires Disciplined(steps) && x < |steps| && steps[x].call.CompactEnd?
    ensures Emitted(start, steps, x) ==
              match OpenedAt(steps, Compaction, x)
              case None => []
              case Some(k) => [Update(CompactBody(start, steps, k, OwnerAt(start, steps, x), Some(steps[x].at),
                                                  steps[x].call.isError))]
  {
    hide Run, Disciplined, OwnerAt, OpenedAt;
    var s := Run(start, steps[..x]);
    CompactRemembered(start, steps, x);
    TopIsOwner(start, steps, x);
    EmittedIs(start, steps, x, if s.compact.Some?
      then [CompactEnded(s.compact.value, s.top.agent, steps[x].call.isError, steps[x].at)] else []);
  }

  lemma ToolStartEmits(start: Time, steps: seq<Step>, x: nat)
    requires x < |steps| && steps[x].call.ToolStart?
    ensures Emitted(start, steps, x) == []
  {
    hide Run;
    var s, st := Run(start, steps[..x]), steps[x];
    assert RecordTool(s, st.call.c, st.call.name, st.call.input, st.at).log == s.log;
    BeginEmitsNothing(RecordTool(s, st.call.c, st.call.name, st.call.input, st.at), st.call.input, st.at);
    EmittedIs(start, steps, x, []);
  }

  // ---- the end of a tool ----

  /** What comes out when `c` ends: first the sub-agent it ends and that agent's batch, then the tool. */
  lemma ToolEndLog(s: State, m: Monitor, c: CallId, isError: bool, at: Time) returns (batch: seq<Event>)
    requires Follows(s, m) && Allowed(m, ToolEnd(c, isError))
    ensures BatchOnly(batch)
    ensures var log := OnToolEnd(s, c, isError, at).log;
            if c in m.top.open then c in s.top.pending && log == s.log + [ToolEvent(s.top.pending[c], isError, at)]
            else if m.EndsAgent(c) then
              s.below != [] && c in Last(s.below).pending
              && log == s.log + ([SubagentEvent(s.top, isError, at)] + batch
                                 + [ToolEvent(Last(s.below).pending[c], isError, at)])
            else log == s.log
  {
    batch := if Flushable(s.top) then [BatchEvent(s.top)] else [];
    AgentCallIsTop(s, m, c, isError);
    if c in m.top.open {
      assert FrameMatches(s.top, m.top);
    } else if m.EndsAgent(c) {
      OwnCallPending(s, m, c);
      AgentEndLog(s, c, isError, at);
    } else {
      UnknownToolEnd(s, m, c, isError, at);
    }
  }

  lemma OwnCallPending(s: State, m: Monitor, c: CallId)
    requires Follows(s, m) && m.EndsAgent(c)
    ensures s.below != [] && c in Last(s.below).pending
    ensures Last(s.below).pending[c].name == "Agent"
  {
    var k := |m.below| - 1;
    assert WaitsFor(s.below[k], m.below[k].call);
  }

  lemma AgentEndLog(s: State, c: CallId, isError: bool, at: Time)
    requires s.below != [] && c in Last(s.below).pending && s.HasAgentCall(c)
    ensures OnToolEnd(s, c, isError, at).log ==
              s.log + ([SubagentEvent(s.top, isError, at)] + (if Flushable(s.top) then [BatchEvent(s.top)] else [])
                       + [ToolEvent(Last(s.below).pending[c], isError, at)])
  {
    var s1 := EndSubagent(s, isError, at);
    var first, batch := [SubagentEvent(s.top, isError, at)], if Flushable(s.top) then [BatchEvent(s.top)] else [];
    assert s1.log == s.log + first + batch && s1.top == Last(s.below);
    assert s.log + first + batch + [ToolEvent(s1.top.pending[c], isError, at)]
        == s.log + (first + batch + [ToolEvent(s1.top.pending[c], isError, at)]);
  }

  /** The events of the end of a tool whose call was started in step `k`. */
  ghost predicate ToolReport(start: Time, steps: seq<Step>, k: nat, x: nat, es: seq<Event>)
    requires k < |steps| && x < |steps| && steps[k].call.ToolStart? && steps[x].call.ToolEnd?
  {
    && es != [] && Last(es).body.parent.Some? && Last(es).body.parent.value.role == BatchRole
    && Last(es) == Create(ToolBody(start, steps, k, x, Last(es).body.parent))
    && if IsAgentStart(steps[k])
       then |es| >= 2 && es[0] == Create(AgentBody(start, steps, k, x)) && BatchOnly(es[1..|es| - 1])
       else |es| == 1
  }

  lemma PendingParent(s: State, m: Monitor, f: Frame, c: CallId)
    requires Accounted(s, m) && Has(s, f) && c in f.pending
    ensures f.pending[c].parent.role == BatchRole
  {
    if f != s.top {
      var i :| 0 <= i < |s.below| && s.below[i] == f;
      assert FrameMatches(s.below[i], m.below[i].scope) && Young(s.below[i], s.top.agent.n);
    } else {
      assert FrameMatches(s.top, m.top);
    }
  }

  /** The current sub-agent is the one begun by the Agent call that is about to end. */
  lemma EndedAgent(start: Time, steps: seq<Step>, x: nat)
    requires Disciplined(steps) && x < |steps| && EndsAgentCall(Watch(steps[..x]), steps[x])
    ensures var k := OpenedAt(steps, ToolCall(steps[x].call.c), x);
            k.Some? && Begun(start, steps, k.value, Run(start, steps[..x]).top)
  {
    hide Disciplined, Run, Openers, OpenedAt, FrameMatches, OnlyOwed, Drawn, IsAgentStart, Watch;
    var s := Run(start, steps[..x]);
    DisciplinedTake(steps, x);
    AccountedRun(start, steps[..x]);
    OpenersMatch(steps[..x]);
    var openers := Openers(steps[..x]);
    SubagentOnTop(s, Watch(steps[..x]));
    OpenersOf(steps[..x], Watch(steps[..x]), openers);
    LastMatches(steps[..x], Watch(steps[..x]), openers);
    OpenersAreOpen(steps, x, |openers| - 1);
    TopIsOwner(start, steps, x);
    assert Has(s, s.top);
    AgentsRemembered(start, steps, x, s.top);
    var j :| Begun(start, steps, j, s.top);
    BegunOnce(start, steps, j, Last(openers));
  }

  lemma OpenersOf(steps: seq<Step>, m: Monitor, openers: seq<nat>)
    requires Match(steps, m, openers) && m.below != []
    ensures openers != []
  {
  }

  lemma SubagentOnTop(s: State, m: Monitor)
    requires FrameIds(s) && |s.below| == |m.below| && m.below != []
    ensures s.top.agent != MAIN_AGENT
  {
    assert Young(s.below[0], s.top.agent.n);
  }

  /** The end of a tool reports it, behind the sub-agent it ends, if it was started and has not ended. */
  lemma ToolEndEmits(start: Time, steps: seq<Step>, x: nat)
    requires Disciplined(steps) && x < |steps| && steps[x].call.ToolEnd?
    ensures match OpenedAt(steps, ToolCall(steps[x].call.c), x)
            case None => Emitted(start, steps, x) == []
            case Some(k) => ToolReport(start, steps, k, x, Emitted(start, steps, x))
  {
    hide Disciplined, Run, Watch, OpenedAt, FrameIds, OnlyOwed, Drawn, Emitted, LaunchOf, Allowed;
    var s, m, c, isError := Run(start, steps[..x]), Watch(steps[..x]), steps[x].call.c, steps[x].call.isError;
    DisciplinedTake(steps, x);
    AccountedRun(start, steps[..x]);
    OpenCalls(steps, x, c);
    var batch := ToolEndLog(s, m, c, isError, steps[x].at);
    if c in m.top.open {
      OwnToolEmits(start, steps, x);
    } else if m.EndsAgent(c) {
      hide Follows;
      AgentToolEmits(start, steps, x, batch);
    } else {
      DisjointRun(steps[..x]);
      assert !m.IsOpen(c) by { AgentCallIsTop(s, m, c, isError); NotOpen(m, c, isError); }
      EmittedIs(start, steps, x, []);
    }
  }

  lemma NotOpen(m: Monitor, c: CallId, isError: bool)
    requires Allowed(m, ToolEnd(c, isError)) && c !in m.top.open && !m.EndsAgent(c)
    ensures !m.IsOpen(c)
  {
  }

  lemma OwnToolEmits(start: Time, steps: seq<Step>, x: nat)
    requires Disciplined(steps) && x < |steps| && steps[x].call.ToolEnd?
    requires Accounted(Run(start, steps[..x]), Watch(steps[..x]))
    requires var s, c := Run(start, steps[..x]), steps[x].call.c;
             && c in Watch(steps[..x]).top.open && c in s.top.pending
             && Apply(s, steps[x]).log == s.log + [ToolEvent(s.top.pending[c], steps[x].call.isError, steps[x].at)]
    ensures var k := OpenedAt(steps, ToolCall(steps[x].call.c), x);
            k.Some? && ToolReport(start, steps, k.value, x, Emitted(start, steps, x))
  {
    hide Disciplined, Run, Watch, Apply, OpenedAt, Emitted, LaunchOf, FrameIds, OnlyOwed, Drawn;
    var s, c := Run(start, steps[..x]), steps[x].call.c;
    assert Has(s, s.top);
    ToolsRemembered(start, steps, x, s.top, c);
    PendingParent(s, Watch(steps[..x]), s.top, c);
    EmittedIs(start, steps, x, [ToolEvent(s.top.pending[c], steps[x].call.isError, steps[x].at)]);
  }

  lemma AgentToolEmits(start: Time, steps: seq<Step>, x: nat, batch: seq<Event>)
    requires Disciplined(steps) && x < |steps| && steps[x].call.ToolEnd? && BatchOnly(batch)
    requires Accounted(Run(start, steps[..x]), Watch(steps[..x])) && EndsAgentCall(Watch(steps[..x]), steps[x])
    requires var s, c, isError := Run(start, steps[..x]), steps[x].call.c, steps[x].call.isError;
             && s.below != [] && c in Last(s.below).pending
             && Apply(s, steps[x]).log == s.log + ([SubagentEvent(s.top, isError, steps[x].at)] + batch
                                                   + [ToolEvent(Last(s.below).pending[c], isError, steps[x].at)])
    ensures var k := OpenedAt(steps, ToolCall(steps[x].call.c), x);
            k.Some? && ToolReport(start, steps, k.value, x, Emitted(start, steps, x))
  {
    hide Disciplined, Run, Watch, Apply, OpenedAt, Emitted, LaunchOf, FrameIds, OnlyOwed, Drawn, Follows;
    var s, c, isError := Run(start, steps[..x]), steps[x].call.c, steps[x].call.isError;
    var f := Last(s.below);
    assert Has(s, f);
    OwnCallPending(s, Watch(steps[..x]), c);
    ToolsRemembered(start, steps, x, f, c);
    PendingParent(s, Watch(steps[..x]), f, c);
    EndedAgent(start, steps, x);
    var es := [SubagentEvent(s.top, isError, steps[x].at)] + batch + [ToolEvent(f.pending[c], isError, steps[x].at)];
    EmittedIs(start, steps, x, es);
    assert es[1..|es| - 1] == batch;
  }

  // ---- the log as a whole ----

  /** Every event of the log was emitted by some step, but for the first. */
  lemma {:induction false} EmittedSomewhere(start: Time, steps: seq<Step>, n: nat, e: Event)
    requires n <= |steps| && e in Run(start, steps[..n]).log
    ensures e == Create(AgentRunBody(Some(start), None)) || exists x :: 0 <= x < n && e in Emitted(start, steps, x)
  {
    hide Run, Apply, Emitted;
    if n == 0 {
      NothingRemembered(start);
    } else {
      EmittedAt(start, steps, n - 1);
      if e !in Emitted(start, steps, n - 1) { EmittedSomewhere(start, steps, n - 1, e); }
    }
  }

  /** What a step emits stays in the log. */
  lemma {:induction false} EmittedStays(start: Time, steps: seq<Step>, n: nat, x: nat)
    requires x < n <= |steps|
    ensures forall e :: e in Emitted(start, steps, x) ==> e in Run(start, steps[..n]).log
    decreases n
  {
    hide Run, Apply, Emitted;
    EmittedAt(start, steps, n - 1);
    if x < n - 1 { EmittedStays(start, steps, n - 1, x); }
  }

  function Final(start: Time, steps: seq<Step>, end: Time): seq<Event> { OnTraceEnd(Run(start, steps), end).log }

  /** The end of the turn adds at most a batch span and then the end of the agent run. */
  lemma FinalIs(start: Time, steps: seq<Step>, end: Time) returns (batch: seq<Event>)
    requires Disciplined(steps)
    ensures BatchOnly(batch)
    ensures Final(start, steps, end) == Run(start, steps).log + batch + [Update(AgentRunBody(None, Some(end)))]
  {
    AccountedRun(start, steps);
    var s := Run(start, steps);
    batch := if Flushable(s.top) then [BatchEvent(s.top)] else [];
  }

  lemma FinalDistinct(start: Time, steps: seq<Step>, end: Time)
    requires Disciplined(steps)
    ensures DistinctCreates(Final(start, steps, end))
  {
    AccountedRun(start, steps);
    LedgerRun(false, start, steps, end);
    var s, ls := Run(start, steps), Launches(start, steps);
    var e := AgentRunEnded(s.Main().agent, end);
    QuietIds(s, FlushToolsBatch(s), ls, if Flushable(s.top) then BatchEvent(s.top) else e);
    hide Balances, Accounted;
    EmitDistinct(FlushToolsBatch(s).log, e);
  }

  /** The log creates this observation, and creates no other of the same id. */
  ghost predicate CreatedOnce(log: seq<Event>, body: Body) {
    exists i :: 0 <= i < |log| && log[i] == Create(body)
                && forall j :: 0 <= j < |log| && log[j].Create? && log[j].body.id == body.id ==> j == i
  }

  lemma OnlyOne(log: seq<Event>, body: Body)
    requires DistinctCreates(log) && Create(body) in log
    ensures CreatedOnce(log, body)
  {
    var i :| 0 <= i < |log| && log[i] == Create(body);
    assert forall j :: 0 <= j < |log| && log[j].Create? && log[j].body.id == body.id ==> !(i < j) && !(j < i);
  }

  lemma EmittedOnce(start: Time, steps: seq<Step>, end: Time, x: nat, body: Body)
    requires Disciplined(steps) && x < |steps| && Create(body) in Emitted(start, steps, x)
    ensures CreatedOnce(Final(start, steps, end), body)
  {
    hide Run, Emitted, Disciplined, Final, DistinctCreates, CreatedOnce;
    var batch := FinalIs(start, steps, end);
    EmittedStays(start, steps, |steps|, x);
    assert steps[..|steps|] == steps;
    FinalDistinct(start, steps, end);
    OnlyOne(Final(start, steps, end), body);
  }

  // ---- main results ----

  /** In every disciplined turn each LLM call that ends is reported once, by the agent it ends in. */
  lemma GenerationReported(start: Time, steps: seq<Step>, end: Time, n: nat, k: nat, x: nat)
    requires Disciplined(steps) && Pair(steps, LlmStep(n), k, x)
    ensures CreatedOnce(Final(start, steps, end), GenerationBody(start, steps, k, x))
  {
    PairIff(steps, LlmStep(n), k, x);
    LlmEndEmits(start, steps, x);
    EmittedOnce(start, steps, end, x, GenerationBody(start, steps, k, x));
  }

  /** Each tool call that ends is reported once, in a batch; an Agent call, and the sub-agent it began, too. */
  lemma ToolReported(start: Time, steps: seq<Step>, end: Time, c: CallId, k: nat, x: nat)
    requires Disciplined(steps) && Pair(steps, ToolCall(c), k, x)
    ensures exists b: Id :: b.role == BatchRole
                            && CreatedOnce(Final(start, steps, end), ToolBody(start, steps, k, x, Some(b)))
    ensures IsAgentStart(steps[k]) ==> CreatedOnce(Final(start, steps, end), AgentBody(start, steps, k, x))
  {
    PairIff(steps, ToolCall(c), k, x);
    ToolEndEmits(start, steps, x);
    hide Emitted, ToolBody, AgentBody, Final, CreatedOnce, Disciplined;
    var es := Emitted(start, steps, x);
    EmittedOnce(start, steps, end, x, ToolBody(start, steps, k, x, Last(es).body.parent));
    if IsAgentStart(steps[k]) { EmittedOnce(start, steps, end, x, AgentBody(start, steps, k, x)); }
  }

  /** Each compaction is created once, under the agent it starts in. */
  lemma CompactionCreated(start: Time, steps: seq<Step>, end: Time, k: nat)
    requires Disciplined(steps) && k < |steps| && steps[k].call.CompactStart?
    ensures CreatedOnce(Final(start, steps, end),
                        CompactBody(start, steps, k, OwnerAt(start, steps, k), None, false))
  {
    CompactStartEmits(start, steps, k);
    EmittedOnce(start, steps, end, k, CompactBody(start, steps, k, OwnerAt(start, steps, k), None, false));
  }

  /** What the calls say an event should be: the report of a start and its end, of a started compaction, or a batch. */
  ghost predicate Explained(start: Time, steps: seq<Step>, e: Event) {
    || IsBatch(e)
    || (exists k :: 0 <= k < |steps| && steps[k].call.CompactStart?
                    && e == Create(CompactBody(start, steps, k, OwnerAt(start, steps, k), None, false)))
    || (exists slot, k: nat, x: nat :: Pair(steps, slot, k, x) && Reports(start, steps, slot, k, x, e))
  }

  ghost predicate Reports(start: Time, steps: seq<Step>, slot: Slot, k: nat, x: nat, e: Event)
    requires Pair(steps, slot, k, x)
  {
    match slot
    case LlmStep(_) => e == Create(GenerationBody(start, steps, k, x))
    case ToolCall(_) =>
      || e == Create(ToolBody(start, steps, k, x, e.body.parent))
      || (IsAgentStart(steps[k]) && e == Create(AgentBody(start, steps, k, x)))
    case Compaction =>
      e == Update(CompactBody(start, steps, k, OwnerAt(start, steps, x), Some(steps[x].at), steps[x].call.isError))
  }

  lemma EmittedExplained(start: Time, steps: seq<Step>, x: nat, e: Event)
    requires Disciplined(steps) && x < |steps| && e in Emitted(start, steps, x)
    ensures Explained(start, steps, e)
  {
    hide Emitted, Disciplined, OwnerAt, Run, CompactBody, ToolBody, AgentBody, GenerationBody, IsBatch, OpenedAt;
    match steps[x].call
    case LlmStart(_) => LlmStartEmits(start, steps, x);
    case LlmEnd(n, _) =>
      LlmEndEmits(start, steps, x);
      var k := OpenedAt(steps, LlmStep(n), x).value;
      PairIff(steps, LlmStep(n), k, x);
      assert Reports(start, steps, LlmStep(n), k, x, e);
    case ToolStart(_, _, _) => ToolStartEmits(start, steps, x);
    case ToolEnd(c, _) =>
      ToolEndEmits(start, steps, x);
      var k := OpenedAt(steps, ToolCall(c), x).value;
      PairIff(steps, ToolCall(c), k, x);
      ToolEventExplained(start, steps, c, k, x, Emitted(start, steps, x), e);
    case CompactStart => CompactStartEmits(start, steps, x);
    case CompactEnd(_) =>
      CompactEndEmits(start, steps, x);
      var k := OpenedAt(steps, Compaction, x).value;
      PairIff(steps, Compaction, k, x);
      assert Reports(start, steps, Compaction, k, x, e);
  }

  lemma ToolEventExplained(start: Time, steps: seq<Step>, c: CallId, k: nat, x: nat, es: seq<Event>, e: Event)
    requires Pair(steps, ToolCall(c), k, x) && ToolReport(start, steps, k, x, es) && e in es
    ensures IsBatch(e) || Reports(start, steps, ToolCall(c), k, x, e)
  {
    hide ToolBody, AgentBody, IsBatch;
    var i :| 0 <= i < |es| && es[i] == e;
    if 0 < i < |es| - 1 {
      assert e == es[1..|es| - 1][i - 1];
    }
  }

  /**
   Nothing else is reported: between the start of the agent run and its end, every event of a disciplined turn is a
   batch span, a started compaction, or the report of a start and the end that belongs to it.
   */
  lemma EveryEventExplained(start: Time, steps: seq<Step>, end: Time)
    requires Disciplined(steps)
    ensures var log := Final(start, steps, end);
            && |log| >= 2 && log[0] == Create(AgentRunBody(Some(start), None))
            && Last(log) == Update(AgentRunBody(None, Some(end)))
            && forall e :: e in log ==> e == log[0] || e == Last(log) || Explained(start, steps, e)
  {
    hide Emitted, Disciplined, Run, Explained, IsBatch, AgentRunBody;
    var batch := FinalIs(start, steps, end);
    assert steps[..|steps|] == steps;
    FirstEvent(start, steps);
    var log := Final(start, steps, end);
    forall e | e in log ensures e == log[0] || e == Last(log) || Explained(start, steps, e) {
      if e in batch {
        BatchExplained(start, steps, e);
      } else if e in Run(start, steps).log {
        EmittedSomewhere(start, steps, |steps|, e);
        if x :| 0 <= x < |steps| && e in Emitted(start, steps, x) { EmittedExplained(start, steps, x, e); }
      }
    }
  }

  lemma BatchExplained(start: Time, steps: seq<Step>, e: Event)
    requires IsBatch(e)
    ensures Explained(start, steps, e)
  {
  }

  lemma {:induction false} FirstEvent(start: Time, steps: seq<Step>)
    ensures [Create(AgentRunBody(Some(start), None))] <= Run(start, steps).log
  {
    hide Apply;
    if steps != [] {
      FirstEvent(start, steps[..|steps| - 1]);
      LogGrows(Run(start, steps[..|steps| - 1]), steps[|steps| - 1]);
    }
  }

  /** In particular every generation in the log is that of an LLM call that was started and ended. */
  lemma GenerationsComeFromCalls(start: Time, steps: seq<Step>, end: Time, e: Event)
    requires Disciplined(steps) && e in Final(start, steps, end) && e.body.kind == Kind.Generation
    ensures exists n: nat, k: nat, x: nat ::
              Pair(steps, LlmStep(n), k, x) && e == Create(GenerationBody(start, steps, k, x))
  {
    hide Disciplined, Final, OwnerAt, DrawnAt, BegunBy, LaunchOf, Pair;
    EveryEventExplained(start, steps, end);
    var slot, k: nat, x: nat :| Pair(steps, slot, k, x) && Reports(start, steps, slot, k, x, e);
    assert slot.LlmStep?;
  }

  // ---- the end of a compaction is told once ----

  lemma DrawnOnce(start: Time, steps: seq<Step>, i: nat, j: nat)
    requires i < |steps| && j < |steps| && steps[i].call.CompactStart? && steps[j].call.CompactStart?
    requires DrawnAt(start, steps, i, CompactRole) == DrawnAt(start, steps, j, CompactRole)
    ensures i == j
  {
    hide Run;
    RunNext(start, steps, i);
    RunNext(start, steps, j);
    if i < j { IdsGrowRun(start, steps, i + 1, j); }
    if j < i { IdsGrowRun(start, steps, j + 1, i); }
  }

  /** Only the end of a compaction updates anything. */
  lemma UpdateEmitted(start: Time, steps: seq<Step>, x: nat, e: Event)
    requires Disciplined(steps) && x < |steps| && e in Emitted(start, steps, x) && e.Update?
    ensures steps[x].call.CompactEnd? && |Emitted(start, steps, x)| == 1
    ensures var k := OpenedAt(steps, Compaction, x);
            k.Some? && e.body.id == DrawnAt(start, steps, k.value, CompactRole)
  {
    hide Emitted, Disciplined, OwnerAt, Run, OpenedAt, LaunchOf, DrawnAt, BegunBy;
    match steps[x].call
    case LlmStart(_) => LlmStartEmits(start, steps, x);
    case LlmEnd(_, _) => LlmEndEmits(start, steps, x);
    case ToolStart(_, _, _) => ToolStartEmits(start, steps, x);
    case ToolEnd(c, _) =>
      ToolEndEmits(start, steps, x);
      var k := OpenedAt(steps, ToolCall(c), x).value;
      PairIff(steps, ToolCall(c), k, x);
      ToolEventExplained(start, steps, c, k, x, Emitted(start, steps, x), e);
    case CompactStart => CompactStartEmits(start, steps, x);
    case CompactEnd(_) => CompactEndEmits(start, steps, x);
  }

  /** Two ends of one compaction would need a start in between. */
  lemma EndedOnce(start: Time, steps: seq<Step>, x: nat, y: nat)
    requires x < y < |steps| && steps[x].call.CompactEnd? && steps[y].call.CompactEnd?
    requires OpenedAt(steps, Compaction, x).Some? && OpenedAt(steps, Compaction, y).Some?
    ensures DrawnAt(start, steps, OpenedAt(steps, Compaction, x).value, CompactRole)
         != DrawnAt(start, steps, OpenedAt(steps, Compaction, y).value, CompactRole)
  {
    hide OpenedAt, DrawnAt;
    var j, k := OpenedAt(steps, Compaction, x).value, OpenedAt(steps, Compaction, y).value;
    OpenedIff(steps, Compaction, y, k);
    assert j < x && k >= x;
    if DrawnAt(start, steps, j, CompactRole) == DrawnAt(start, steps, k, CompactRole) { DrawnOnce(start, steps, j, k); }
  }

  ghost predicate UpdatesDiffer(log: seq<Event>) {
    forall i, j :: 0 <= i < j < |log| && log[i].Update? && log[j].Update? ==> log[i].body.id != log[j].body.id
  }

  lemma {:induction false} UpdatesDifferRun(start: Time, steps: seq<Step>, n: nat)
    requires Disciplined(steps) && n <= |steps|
    ensures UpdatesDiffer(Run(start, steps[..n]).log)
  {
    hide Run, Apply, Emitted, Disciplined, OpenedAt, DrawnAt;
    if n == 0 {
      NothingRemembered(start);
    } else {
      UpdatesDifferRun(start, steps, n - 1);
      EmittedAt(start, steps, n - 1);
      var past, more := Run(start, steps[..n - 1]).log, Emitted(start, steps, n - 1);
      forall e, f | e in past && f in more && e.Update? && f.Update? ensures e.body.id != f.body.id {
        EmittedSomewhere(start, steps, n - 1, e);
        var x :| 0 <= x < n - 1 && e in Emitted(start, steps, x);
        UpdateEmitted(start, steps, x, e);
        UpdateEmitted(start, steps, n - 1, f);
        EndedOnce(start, steps, x, n - 1);
      }
      forall f | f in more && f.Update? ensures |more| == 1 { UpdateEmitted(start, steps, n - 1, f); }
      UpdatesJoin(past, more);
    }
  }

  lemma UpdatesJoin(past: seq<Event>, more: seq<Event>)
    requires UpdatesDiffer(past)
    requires forall e, f :: e in past && f in more && e.Update? && f.Update? ==> e.body.id != f.body.id
    requires forall f :: f in more && f.Update? ==> |more| == 1
    ensures UpdatesDiffer(past + more)
  {
    var log := past + more;
    forall i, j | 0 <= i < j < |log| && log[i].Update? && log[j].Update? ensures log[i].body.id != log[j].body.id {
      if j >= |past| {
        assert log[j] in more;
        assert log[i] in past;
      }
    }
  }

  /** Each compaction that ends is updated once, with both instants and the outcome. */
  lemma CompactionUpdated(start: Time, steps: seq<Step>, end: Time, k: nat, x: nat)
    requires Disciplined(steps) && Pair(steps, Compaction, k, x)
    ensures var log := Final(start, steps, end);
            var body := CompactBody(start, steps, k, OwnerAt(start, steps, x), Some(steps[x].at),
                                    steps[x].call.isError);
            exists i :: 0 <= i < |log| && log[i] == Update(body)
                        && forall j :: 0 <= j < |log| && log[j].Update? && log[j].body.id == body.id ==> j == i
  {
    hide Run, Emitted, Disciplined, Final, OwnerAt, OpenedAt, UpdatesDiffer;
    var body := CompactBody(start, steps, k, OwnerAt(start, steps, x), Some(steps[x].at), steps[x].call.isError);
    PairIff(steps, Compaction, k, x);
    CompactEndEmits(start, steps, x);
    EmittedStays(start, steps, |steps|, x);
    assert steps[..|steps|] == steps;
    var batch := FinalIs(start, steps, end);
    UpdatesDifferRun(start, steps, |steps|);
    var log, all := Run(start, steps).log, Final(start, steps, end);
    assert Emitted(start, steps, x)[0] == Update(body) && Update(body) in Emitted(start, steps, x);
    assert Update(body) in log;
    var i :| 0 <= i < |log| && log[i] == Update(body);
    OnlyUpdate(log, batch, Update(AgentRunBody(None, Some(end))), i);
    assert all[i] == Update(body);
  }

  lemma OnlyUpdate(log: seq<Event>, batch: seq<Event>, last: Event, i: nat)
    requires UpdatesDiffer(log) && BatchOnly(batch) && i < |log| && log[i].Update? && last.body.id != log[i].body.id
    ensures var all := log + batch + [last];
            all[i] == log[i]
            && forall j :: 0 <= j < |all| && all[j].Update? && all[j].body.id == log[i].body.id ==> j == i
  {
    var all := log + batch + [last];
    assert forall j :: 0 <= j < |batch| ==> all[|log| + j] == batch[j] && batch[j] in batch;
    forall j | 0 <= j < |all| && all[j].Update? && all[j].body.id == log[i].body.id ensures j == i {
      assert j >= |log| ==> !(j - |log| < |batch|);
    }
  }
}
