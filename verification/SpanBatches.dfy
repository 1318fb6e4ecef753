/** From when to when a batch span lasts: from the start of its first tool to the last end of one of its tools. */
module SpanBatches {
  import opened Wrappers
  import opened TraceModel
  import opened Discipline
  import opened SpanGraph
  import opened SpanLedger
  import opened SpanSlots
  import opened SpanOwners
  import opened SpanMemory
  import opened SpanReports

  /** The tool whose start opened the batch: its id is drawn right after that of the batch. */
  function OpenerOf(batch: Id): Id { Id(ToolRole, batch.n + 1) }

  ghost predicate StartsWithFirst(log: seq<Event>, batch: Id, start: Option<Time>) {
    exists e :: e in log && IsTool(e) && e.body.id == OpenerOf(batch) && e.body.parent == Some(batch)
                && e.body.start == start
  }

  /** The tool of the batch that was reported last ended at `end`. */
  ghost predicate EndsWithLast(log: seq<Event>, batch: Id, end: Option<Time>) {
    exists i :: 0 <= i < |log| && IsTool(log[i]) && log[i].body.parent == Some(batch) && log[i].body.end == end
                && forall j :: i < j < |log| && IsTool(log[j]) ==> log[j].body.parent != Some(batch)
  }

  ghost predicate OpenerPending(f: Frame, batch: Id) {
    exists c :: c in f.pending && f.pending[c].span == OpenerOf(batch) && Some(f.pending[c].start) == f.batchStart
  }

  ghost predicate FrameSpans(log: seq<Event>, f: Frame) {
    f.batch.Some? ==>
      && (OpenerPending(f, f.batch.value) || StartsWithFirst(log, f.batch.value, f.batchStart))
      && (f.batchEnd.Some? ==> EndsWithLast(log, f.batch.value, f.batchEnd))
  }

  ghost predicate BatchSpans(log: seq<Event>, b: Event) {
    StartsWithFirst(log, b.body.id, b.body.start) && EndsWithLast(log, b.body.id, b.body.end)
  }

  ghost predicate Spans(s: State) {
    && (forall f :: Has(s, f) ==> FrameSpans(s.log, f))
    && (forall b :: b in s.log && IsBatch(b) ==> BatchSpans(s.log, b))
  }

  // ---- a longer log ----

  lemma StartsLater(log: seq<Event>, more: seq<Event>, batch: Id, start: Option<Time>)
    requires StartsWithFirst(log, batch, start)
    ensures StartsWithFirst(log + more, batch, start)
  {
    var e :| e in log && IsTool(e) && e.body.id == OpenerOf(batch) && e.body.parent == Some(batch)
             && e.body.start == start;
    assert e in log + more;
  }

  /** Only a tool of the batch changes which was reported last. */
  lemma EndsLater(log: seq<Event>, more: seq<Event>, batch: Id, end: Option<Time>)
    requires EndsWithLast(log, batch, end)
    requires forall e :: e in more && IsTool(e) ==> e.body.parent != Some(batch)
    ensures EndsWithLast(log + more, batch, end)
  {
    var i :| 0 <= i < |log| && IsTool(log[i]) && log[i].body.parent == Some(batch) && log[i].body.end == end
             && forall j :: i < j < |log| && IsTool(log[j]) ==> log[j].body.parent != Some(batch);
    var all := log + more;
    forall j | i < j < |all| && IsTool(all[j]) ensures all[j].body.parent != Some(batch) {
      assert if j < |log| then all[j] == log[j] else all[j] == more[j - |log|] && more[j - |log|] in more;
    }
    assert all[i] == log[i];
  }

  lemma FrameLater(log: seq<Event>, more: seq<Event>, f: Frame)
    requires FrameSpans(log, f)
    requires forall e :: e in more && IsTool(e) ==> e.body.parent != f.batch
    ensures FrameSpans(log + more, f)
  {
    hide StartsWithFirst, EndsWithLast, OpenerPending;
    if f.batch.Some? {
      if StartsWithFirst(log, f.batch.value, f.batchStart) { StartsLater(log, more, f.batch.value, f.batchStart); }
      if f.batchEnd.Some? { EndsLater(log, more, f.batch.value, f.batchEnd); }
    }
  }

  lemma BatchLater(log: seq<Event>, more: seq<Event>, b: Event)
    requires BatchSpans(log, b)
    requires forall e :: e in more && IsTool(e) ==> e.body.parent != Some(b.body.id)
    ensures BatchSpans(log + more, b)
  {
    StartsLater(log, more, b.body.id, b.body.start);
    EndsLater(log, more, b.body.id, b.body.end);
  }

  // ---- the calls ----

  /** A step that ends no tool and opens no batch. */
  lemma SpansQuiet(s: State, s': State, more: seq<Event>)
    requires Spans(s) && s'.log == s.log + more
    requires forall e :: e in more ==> !IsTool(e)
    requires forall b :: b in more && IsBatch(b) ==> BatchSpans(s.log, b)
    requires forall f :: Has(s', f) ==> Has(s, f) || f.batch.None?
    ensures Spans(s')
  {
    hide FrameSpans, BatchSpans, IsTool, IsBatch;
    forall f | Has(s', f) ensures FrameSpans(s'.log, f) {
      if Has(s, f) { FrameLater(s.log, more, f); } else { NoBatch(s'.log, f); }
    }
    forall b | b in s'.log && IsBatch(b) ensures BatchSpans(s'.log, b) {
      BatchLater(s.log, more, b);
    }
  }

  lemma NoBatch(log: seq<Event>, f: Frame)
    requires f.batch.None?
    ensures FrameSpans(log, f)
  {
  }

  /** A batch without pending tools is ready to be emitted. */
  lemma ReadyBatch(s: State)
    requires Spans(s) && s.top.pending == map[] && Flushable(s.top)
    ensures BatchSpans(s.log, BatchEvent(s.top))
  {
    assert Has(s, s.top) && FrameSpans(s.log, s.top);
  }

  lemma SpansFlush(s: State)
    requires Spans(s) && s.top.pending == map[]
    ensures Spans(FlushToolsBatch(s))
  {
    hide Spans, BatchSpans;
    if Flushable(s.top) { ReadyBatch(s); }
    var s' := FlushToolsBatch(s);
    forall f | Has(s', f) ensures Has(s, f) || f.batch.None? { }
    SpansQuiet(s, s', if Flushable(s.top) then [BatchEvent(s.top)] else []);
  }

  lemma SpansAgentEnd(s: State, isError: bool, at: Time)
    requires Spans(s) && s.below != [] && s.top.pending == map[]
    ensures Spans(EndSubagent(s, isError, at))
  {
    hide Spans, BatchSpans;
    if Flushable(s.top) { ReadyBatch(s); }
    var s' := EndSubagent(s, isError, at);
    forall f | Has(s', f) ensures Has(s, f) { }
    SpansQuiet(s, s', [SubagentEvent(s.top, isError, at)] + if Flushable(s.top) then [BatchEvent(s.top)] else []);
  }

  lemma SpansBegin(s: State, input: Input, at: Time)
    requires Spans(s)
    ensures Spans(BeginSubagent(s, input, at))
  {
    hide Spans;
    var s' := BeginSubagent(s, input, at);
    forall f | Has(s', f) ensures Has(s, f) || f.batch.None? { }
    SpansQuiet(s, s', []);
  }

  /** A tool opens a batch, or joins the one that is open. */
  lemma SpansRecord(s: State, c: CallId, name: string, input: Input, at: Time)
    requires Spans(s) && c !in s.top.pending && (s.top.pending == map[] ==> s.top.batchEnd.None?)
    ensures Spans(RecordTool(s, c, name, input, at))
  {
    var s' := RecordTool(s, c, name, input, at);
    assert Has(s, s.top) && FrameSpans(s.log, s.top);
    assert s'.log == s.log;
    RecordedFrame(s, c, name, input, at);
    hide FrameSpans, BatchSpans;
    forall f | Has(s', f) ensures FrameSpans(s'.log, f) {
      assert f != s'.top ==> Has(s, f);
    }
  }

  lemma RecordedFrame(s: State, c: CallId, name: string, input: Input, at: Time)
    requires FrameSpans(s.log, s.top) && c !in s.top.pending && (s.top.pending == map[] ==> s.top.batchEnd.None?)
    ensures FrameSpans(s.log, RecordTool(s, c, name, input, at).top)
  {
    hide StartsWithFirst, EndsWithLast;
    var f := RecordTool(s, c, name, input, at).top;
    if s.top.pending == map[] {
      assert c in f.pending && f.pending[c].span == OpenerOf(f.batch.value);
    } else if s.top.batch.Some? && OpenerPending(s.top, s.top.batch.value) {
      var d :| d in s.top.pending && s.top.pending[d].span == OpenerOf(s.top.batch.value)
               && Some(s.top.pending[d].start) == s.top.batchStart;
      assert d in f.pending && f.pending[d] == s.top.pending[d];
    }
  }

  /** The batch of the current frame is no other frame's, and has not been emitted. */
  lemma OwnBatch(s: State, f: Frame)
    requires FrameIds(s) && f in s.below && s.top.batch.Some?
    ensures f.batch != s.top.batch
  {
    var i :| 0 <= i < |s.below| && s.below[i] == f;
    assert Young(s.below[i], s.top.agent.n) && Young(s.top, s.nextId);
  }

  lemma SpansEndTool(s: State, c: CallId, isError: bool, at: Time)
    requires Spans(s) && FrameIds(s) && c in s.top.pending && s.top.batch == Some(s.top.pending[c].parent)
    ensures Spans(EndTool(s, c, isError, at))
  {
    var s', e := EndTool(s, c, isError, at), ToolEvent(s.top.pending[c], isError, at);
    assert Has(s, s.top) && FrameSpans(s.log, s.top);
    EndedFrame(s, c, isError, at);
    assert NotYetCreated(s.log, s.top);
    forall b | b in s.log && IsBatch(b) ensures Some(b.body.id) != s.top.batch {
      assert b.body.id in Created(s.log);
    }
    forall f | f in s.below ensures f.batch != s.top.batch { OwnBatch(s, f); }
    hide FrameSpans, BatchSpans, FrameIds, NotYetCreated;
    forall f | Has(s', f) ensures FrameSpans(s'.log, f) {
      if f != s'.top {
        assert Has(s, f);
        FrameLater(s.log, [e], f);
      }
    }
    forall b | b in s'.log && IsBatch(b) ensures BatchSpans(s'.log, b) {
      assert b in s.log;
      BatchLater(s.log, [e], b);
    }
  }

  lemma EndedFrame(s: State, c: CallId, isError: bool, at: Time)
    requires FrameSpans(s.log, s.top) && c in s.top.pending && s.top.batch == Some(s.top.pending[c].parent)
    ensures FrameSpans(EndTool(s, c, isError, at).log, EndTool(s, c, isError, at).top)
  {
    var s', e := EndTool(s, c, isError, at), ToolEvent(s.top.pending[c], isError, at);
    var b, f := s.top.batch.value, s'.top;
    assert s'.log[|s.log|] == e;
    assert EndsWithLast(s'.log, b, f.batchEnd);
    if StartsWithFirst(s.log, b, f.batchStart) {
      StartsLater(s.log, [e], b, f.batchStart);
    } else {
      var d :| d in s.top.pending && s.top.pending[d].span == OpenerOf(b)
               && Some(s.top.pending[d].start) == f.batchStart;
      if d == c {
        assert e in s'.log && StartsWithFirst(s'.log, b, f.batchStart);
      } else {
        assert d in f.pending && OpenerPending(f, b);
      }
    }
  }

  lemma SpansToolEnd(s: State, m: Monitor, c: CallId, isError: bool, at: Time)
    requires Spans(s) && Accounted(s, m) && Allowed(m, ToolEnd(c, isError))
    ensures Spans(OnToolEnd(s, c, isError, at))
  {
    hide Spans, FrameIds, OnlyOwed, Drawn, EndTool, EndSubagent, FrameMatches;
    AgentCallIsTop(s, m, c, isError);
    if c in m.top.open {
      BatchNamed(s.top, m.top, c);
      SpansEndTool(s, c, isError, at);
    } else if m.EndsAgent(c) {
      var k := |s.below| - 1;
      OwnCallOpen(s.below[k], m.below[k]);
      BatchNamed(s.below[k], m.below[k].scope, c);
      TopSettled(s, m);
      Uncovered(s, isError, at);
      SpansAgentEnd(s, isError, at);
      EndSubagentIds(s, isError, at);
      SpansEndTool(EndSubagent(s, isError, at), c, isError, at);
    } else {
      UnknownToolEnd(s, m, c, isError, at);
    }
  }

  lemma BatchNamed(f: Frame, t: Scope, c: CallId)
    requires FrameMatches(f, t) && c in t.open
    ensures c in f.pending && f.batch == Some(f.pending[c].parent)
  {
  }

  lemma SpansToolStart(s: State, m: Monitor, c: CallId, name: string, input: Input, at: Time)
    requires Spans(s) && Follows(s, m) && Allowed(m, ToolStart(c, name, input))
    ensures Spans(OnToolStart(s, c, name, input, at))
  {
    assert s.top.pending == map[] <==> m.top.open == {};
    hide Spans, RecordTool, BeginSubagent;
    SpansRecord(s, c, name, input, at);
    SpansBegin(RecordTool(s, c, name, input, at), input, at);
  }

  lemma SpansStep(s: State, m: Monitor, st: Step)
    requires Spans(s) && Accounted(s, m) && Allowed(m, st.call)
    ensures Spans(Apply(s, st))
  {
    hide Spans, FrameIds, OnlyOwed, Drawn;
    match st.call
    case LlmStart(_) =>
      TopSettled(s, m);
      SpansFlush(s);
      SpansQuiet(FlushToolsBatch(s), Apply(s, st), []);
    case LlmEnd(n, provider) =>
      SpansQuiet(s, Apply(s, st), if n in s.generations
        then [GenerationEvent(s.generations[n], s.top.agent, provider, st.at)] else []);
    case CompactStart => SpansQuiet(s, Apply(s, st), [CompactStarted(Id(CompactRole, s.nextId), s.top.agent, st.at)]);
    case CompactEnd(isError) =>
      SpansQuiet(s, Apply(s, st), if s.compact.Some?
        then [CompactEnded(s.compact.value, s.top.agent, isError, st.at)] else []);
    case ToolStart(c, name, input) => SpansToolStart(s, m, c, name, input, st.at);
    case ToolEnd(c, isError) => SpansToolEnd(s, m, c, isError, st.at);
  }

  lemma {:induction false} SpansRun(start: Time, steps: seq<Step>)
    requires Disciplined(steps)
    ensures Spans(Run(start, steps))
  {
    if steps == [] {
      NothingRemembered(start);
      SpansBeginning(Run(start, []), start);
    } else {
      var n := |steps| - 1;
      DisciplinedPrefix(steps);
      hide Spans, Apply, Disciplined, Accounted, Allowed;
      SpansRun(start, steps[..n]);
      AccountedRun(start, steps[..n]);
      SpansStep(Run(start, steps[..n]), Watch(steps[..n]), steps[n]);
    }
  }

  lemma SpansBeginning(s: State, start: Time)
    requires s.below == [] && s.top == MainFrame() && s.log == [AgentRunStarted(MAIN_AGENT, start)]
    ensures Spans(s)
  {
  }

  /**
   At the end of a disciplined and balanced turn every batch span starts with the tool that opened it, whose start it
   shares, and ends with the last of its tools to end, whose end it shares.
   */
  lemma BatchesSpanTheirTools(start: Time, steps: seq<Step>, end: Time)
    requires Disciplined(steps) && Balanced(steps)
    ensures var log := Final(start, steps, end);
            forall b :: b in log && IsBatch(b) ==>
              StartsWithFirst(log, b.body.id, b.body.start) && EndsWithLast(log, b.body.id, b.body.end)
  {
    hide Spans, Disciplined;
    SpansRun(start, steps);
    AccountedRun(start, steps);
    TopSettled(Run(start, steps), Watch(steps));
    var s := FlushToolsBatch(Run(start, steps));
    SpansFlush(Run(start, steps));
    SpansQuiet(s, OnTraceEnd(Run(start, steps), end), [AgentRunEnded(Run(start, steps).Main().agent, end)]);
    SpansSay(OnTraceEnd(Run(start, steps), end));
  }

  lemma SpansSay(s: State)
    requires Spans(s)
    ensures forall b :: b in s.log && IsBatch(b) ==>
              StartsWithFirst(s.log, b.body.id, b.body.start) && EndsWithLast(s.log, b.body.id, b.body.end)
  {
  }
}
