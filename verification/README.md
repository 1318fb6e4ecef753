# Verification models for cc-code

Dafny models of the small stateful engines of the repository that sit between its input and output layers, with proofs
of what they promise over all inputs, all runs and all interleavings. `dafny verify dfyconfig.toml` checks the project.

| files | what they model |
|---|---|
| `TraceModel`, `Tracer`, `Discipline` | the Langfuse tracer: its steps as functions, the object that performs them, and which turns are disciplined |
| `SpanGraph`, `SpanOrder`, `SpanLimits` | the span graph of a turn: closure, the order of parents and children, and what goes wrong without the discipline |
| `SpanLedger`, `SpanOwners` | the ledger of tools, and to whom they belong |
| `SpanSlots`, `SpanMemory`, `SpanReports`, `SpanBatches` | what every event of a turn says, told from the calls: starts and ends that belong together, what the tracer remembers of them, and what it reports |
| `BatcherModel`, `BatcherProgress`, `Batcher`, `Pipeline` | the batching actor with its bounded queue: what it keeps, what it gets done, the object; and tracer and batcher together |
| `FileTreeModel`, `FileTreeLaws`, `FileTree`, `StableSort` | the file tree and its flat list of visible rows |
| `Lru`, `ByteCacheModel`, `ByteCacheHistory`, `ByteCache` | the cache with a byte budget |
| `DiagnosticsModel`, `DiagnosticsHistory`, `Diagnostics` | the diagnostics registry |
| `Text`, `Xml`, `Notifications` | notification blocks: escaping, printing, finding, reading back |
| `Sanitizer`, `SanitizerLaws`, `Title`, `Prompt`, `PromptLayout`, `LineStream` | control sequences, terminal titles, prompt templates, line reassembly |
| `AgentPool`, `Reservation`, `TaskOutput` | the double-checked model cache, reservation of output files, the capped writer and its readers |
| `Decimal`, `MachineInts`, `AllocKeys`, `AllocTable` | allocator keys in a fixed buffer, and the table of size classes |

An object that the source updates in place is a class. Each of its methods is proved to take the object from one abstract
state to the one that a function specifies; the theorems are about these functions, over whole runs.

## Terms

- A *disciplined* turn (`Discipline`) is a predicate on the calls alone: Agent calls are properly nested, the tools of a
  context have all ended before its next LLM start, and an LLM start separates two batches of a context. It is *balanced*
  if all tools and sub-agents have ended. `SpanLimits` shows what happens without the discipline.
- Instants come from a wall clock, which may step back. A clock is *steady* during a turn if it does not; only the
  nesting in time asks for that.
- A *pair* (`SpanSlots.Pair`) is a start and the end that belongs to it: nothing of the same step, call or compaction starts
  or ends in between. `CreatedOnce(log, body)` says that a log creates this observation and no other of its id.
- `Id(role, n)` stands for a generated UUID: `n` counts the draws, so no two draws agree.
- `Spliced(rows, rows', k, was, now)` says that two lists agree but for the block `was` at `k`, which became `now`.

## Where code and documentation disagree

The models follow the code.

- `cc-acp/src/langfuse/tracer.rs:29-30` says that parent spans are enqueued before their children. Batch spans and
  sub-agents are emitted after the observations that name them. The order holds exactly in the turns in which no started
  tool ends and no sub-agent ends a generation or compacts (`OrderedIffCalm`, with `ChildBeforeParent` as the smallest
  failure); what holds in every balanced turn is closure at the end (`ClosedIffNothingOwed`).
- The sanitizer recognises the 8-bit CSI but no other 8-bit opener or terminator, and not ESC X, all of which sections 5.4
  and 5.6 of ECMA-48 define (`ControlStringVanishesIff`, `EightBitTerminatorShows`).
- The current list of a file in the diagnostics registry holds what was let through last, not what was published last
  (`CurrentIsPublishedIff`, `CurrentForgets`).
- `cc-widgets/src/byte_cache.rs:54` says that an entry over the budget is evicted at once. It is kept, and the byte counter
  goes wrong, if the sum saturates and the saturated counter less the other entries is within the budget (`EmptiedIff`,
  `SaturationBreaksCounter`, `OversizedKept`).
- `cc-agent/src/task_output.rs:241` promises at most `bytes` bytes; a file that grows during the call can give more
  (`TailWithinIff`, `TailTooLong`).
- Toggling a row twice restores tree and list. It restores the cursor exactly if the row was collapsed or enough rows
  remain without those below it (`ToggleTwice`, `CursorNotRestored`).
- A title whose space falls on the last place does not end before it: the next character takes its place
  (`CutsAPrefixIff`, `WordsRunTogether`).

## Model

| member | source | states |
|---|---|---|
| SpanGraph.ClosedIffNothingOwed | cc-acp/src/langfuse/tracer.rs:128-299 | At the end of any disciplined turn every id named as a parent by anything emitted is itself created by something emitted, if and only if the calls of the turn (not the tracer) owe nothing: no unfinished sub-agent was named or ended a tool, no outer batch has an ended tool |
| SpanGraph.BalancedRunIsClosed | cc-acp/src/langfuse/tracer.rs:726-768 | A disciplined turn whose tools and sub-agents have all ended is closed, and leaves the stack, the pending map and the batch empty |
| SpanGraph.AccountedRun | cc-acp/src/langfuse/tracer.rs:465-581 | In every reachable state of a disciplined turn the ids that dangle are exactly those that unfinished sub-agents and unflushed batches still owe, and the stack and the pending maps are those of the open calls |
| SpanGraph.FollowsStep | cc-acp/src/langfuse/tracer.rs:128-151 | Each call keeps stack depth, pending tools, batch fields, running generations and compaction in agreement with an observer that sees the calls only |
| SpanGraph.AgentCallIsTop | cc-acp/src/langfuse/tracer.rs:507-523 | In a disciplined turn an Agent call is pending somewhere in the stack exactly if it is the one whose end finishes the current sub-agent, so the frame popped is the right one |
| SpanGraph.EndSubagentSettles | cc-acp/src/langfuse/tracer.rs:206-257 | The end of a sub-agent creates the agent and its last batch, so that nothing of it dangles afterwards |
| SpanGraph.FlushKeeps | cc-acp/src/langfuse/tracer.rs:260-299 | A flush creates the batch span that ended tools have named, and only then is its agent named |
| SpanLedger.EveryToolObservedOnce | cc-acp/src/langfuse/tracer.rs:465-581 | At the end of every disciplined, balanced turn, whatever the clock did, every tool start has its observation in an emitted batch of the agent that started it, every tool observation comes from a start, no two observations have one id, and every batch belongs to the main agent or to an observed sub-agent |
| SpanLedger.TimesNest | cc-acp/src/langfuse/tracer.rs:465-581 | If the wall clock does not step back during the turn, every tool lies in time within the batch it names, and every batch of a sub-agent within that sub-agent |
| SpanLedger.LedgerRun | cc-acp/src/langfuse/tracer.rs:302-363 | In every reachable state of a disciplined turn each launched tool is either pending in its agent's frame or observed in a batch of that agent, and no id is created twice; with a steady clock all this nests in time |
| SpanOwners.ToolBelongsToItsAgentCall | cc-acp/src/langfuse/tracer.rs:465-581 | In a balanced turn every tool is observed in a batch of the agent that the innermost Agent call open at its start began, told from the calls alone, or of the main agent if none is open; and the observation of that agent is the first event of the step that ends this Agent call |
| SpanOwners.AgentsFollowCalls | cc-acp/src/langfuse/tracer.rs:178-257 | In every reachable state of a disciplined turn the agents on the stack are the main agent and those that the open Agent calls began, in their order |
| SpanOwners.OpenerEnds | cc-acp/src/langfuse/tracer.rs:502-523 | An Agent call that is open somewhere in a balanced turn ends later, and its end creates the agent it began |
| SpanOwners.OpenersMatch | cc-acp/src/langfuse/tracer.rs:178-257 | The steps counted as openers are the starts of exactly the Agent calls that are waited for |
| SpanLedger.PendingOnce | cc-acp/src/langfuse/tracer.rs:473-498 | Two pending entries with one span id are the same call in the same frame |
| SpanReports.GenerationReported | cc-acp/src/langfuse/tracer.rs:366-462 | In every disciplined turn an LLM start and the LLM end that belongs to it give exactly one generation: with the two instants in this order, the provider in the name, and the agent whose Agent call is the innermost open one at the end as its parent |
| SpanReports.GenerationsComeFromCalls | cc-acp/src/langfuse/tracer.rs:366-378 | Every generation in the log is that of such a pair of calls |
| SpanReports.ToolReported | cc-acp/src/langfuse/tracer.rs:502-581 | A tool start and its end give exactly one tool observation in a batch, with the name, the input, both instants and the outcome of the two calls; an Agent call gives exactly one observation of its sub-agent as well, named after its type and with the first 200 characters of its prompt |
| SpanReports.ToolEndEmits | cc-acp/src/langfuse/tracer.rs:502-581 | What the end of a tool emits, in order: the sub-agent it ends, at most one batch, and the tool; nothing if the call was not started or has ended |
| SpanReports.CompactionCreated | cc-acp/src/langfuse/tracer.rs:600-641 | A compaction that starts is created once, under the agent of the innermost open Agent call, without an end |
| SpanReports.CompactionUpdated | cc-acp/src/langfuse/tracer.rs:644-723 | A compaction that ends is updated once, with both instants and the outcome |
| SpanReports.EveryEventExplained | cc-acp/src/langfuse/tracer.rs:302-768 | Nothing else is emitted: the log begins with the start of the agent run, ends with its end, and every other event is a batch span, a started compaction, or the report of a start and the end that belongs to it |
| SpanBatches.BatchesSpanTheirTools | cc-acp/src/langfuse/tracer.rs:260-299 | In a balanced turn every batch span starts when the tool that opened it started, and ends when the last of its tools to end did |
| SpanMemory.GenerationsRemembered | cc-acp/src/langfuse/tracer.rs:348-363 | In every reachable state the generations held are those whose start has had no end, with the instant and the id of that start |
| SpanMemory.ToolsRemembered | cc-acp/src/langfuse/tracer.rs:473-498 | In every reachable state of a disciplined turn each pending tool is that of its latest start, which has not ended |
| SpanMemory.AgentsRemembered | cc-acp/src/langfuse/tracer.rs:178-203 | In every reachable state each frame above the main one is that of the sub-agent some Agent call began: its id, type, prompt and start |
| SpanSlots.OpenCalls | cc-acp/src/langfuse/tracer.rs:465-581 | In a disciplined turn a call is open exactly if it was started and has not ended since |
| SpanLimits.SecondBatchLosesFirst | cc-acp/src/langfuse/tracer.rs:472-477 | A tool that starts when all tools of its context have ended and no LLM start came between overwrites the batch id: whatever is called afterwards, in any order, the turn is never closed |
| SpanLimits.LostForever | cc-acp/src/langfuse/tracer.rs:260-299 | A batch id that something names and no frame holds any more dangles in every continuation |
| SpanOrder.OrderedIffCalm | cc-acp/src/langfuse/tracer.rs:26-30 | In a disciplined turn every parent is emitted before all its children if and only if no started tool ends, and no sub-agent ends a generation or starts or ends a compaction |
| SpanOrder.OrderedStep | cc-acp/src/langfuse/tracer.rs:206-299 | One call keeps the order if and only if it is calm, in every reachable state without an ended tool |
| SpanOrder.ChildBeforeParent | cc-acp/src/langfuse/tracer.rs:29-30 | One tool is enough: a disciplined and balanced turn of two calls in which the order fails |
| SpanLimits.OverlappingAgentsUnobserved | cc-acp/src/langfuse/tracer.rs:206-257 | From any state, two new Agent calls that end in the order they started emit their sub-agents in the wrong order and neither is observed; the first stays pending |
| SpanLimits.AgentCallObservedIff | cc-acp/src/langfuse/tracer.rs:502-581 | An Agent call that ends while pending anywhere is observed if and only if it is pending in the frame below the current one; the sub-agent popped is the current one in any case |
| Tracer.LangfuseTracer.constructor | cc-acp/src/langfuse/tracer.rs:99-117 | A new tracer has no sub-agent, no pending tool and nothing emitted |
| Tracer.LangfuseTracer.CurrentAgentId | cc-acp/src/langfuse/tracer.rs:120-125 | The agent on top of the stack, or the main agent |
| Tracer.LangfuseTracer.SetCurrentContext | cc-acp/src/langfuse/tracer.rs:128-151 | Writing the borrowed context changes the current agent's tools only |
| Tracer.LangfuseTracer.BeginSubagent | cc-acp/src/langfuse/tracer.rs:178-203 | The object's fields after the call are the specified state: one more frame with a fresh agent id, all else unchanged |
| Tracer.LangfuseTracer.EndSubagent | cc-acp/src/langfuse/tracer.rs:206-257 | The object after the call is the specified state: agent and batch emitted in this order, top popped |
| Tracer.LangfuseTracer.FlushToolsBatch | cc-acp/src/langfuse/tracer.rs:260-299 | All three batch fields are taken, and the span is emitted exactly if all three were set |
| Tracer.LangfuseTracer.OnTraceStart | cc-acp/src/langfuse/tracer.rs:302-345 | Emits the agent run and changes nothing else |
| Tracer.LangfuseTracer.OnTraceEnd | cc-acp/src/langfuse/tracer.rs:726-768 | Flushes the current batch and then updates the agent run |
| Tracer.LangfuseTracer.OnLlmStart | cc-acp/src/langfuse/tracer.rs:348-363 | Flushes the batch before it records the generation under its step |
| Tracer.LangfuseTracer.OnLlmEnd | cc-acp/src/langfuse/tracer.rs:366-462 | Takes the generation of the step and emits it under the current agent; an unknown step changes nothing |
| Tracer.LangfuseTracer.OnToolStart | cc-acp/src/langfuse/tracer.rs:465-499 | Records the tool in the current context, with a new batch if none is pending, and begins a sub-agent for an Agent call |
| Tracer.LangfuseTracer.OnToolEnd | cc-acp/src/langfuse/tracer.rs:502-581 | An Agent call anywhere in the stack first ends the current sub-agent; an unknown call emits nothing |
| Tracer.LangfuseTracer.OnCompactStart | cc-acp/src/langfuse/tracer.rs:600-641 | Emits the span under the current agent and remembers it |
| Tracer.LangfuseTracer.OnCompactEnd | cc-acp/src/langfuse/tracer.rs:644-723 | Updates the remembered span once |
| BatcherModel.EveryRun | langfuse-client/src/batcher.rs:53-103 | Over every interleaving of producers, ticks, flushes, withdrawn sends and the drop: accepted events are the ingested batches, the buffer and the queued adds, in order; batches have 1 to max_events events; flushes are acknowledged once, in order, after everything accepted before them was ingested; a task that returned has ingested everything |
| BatcherModel.DropLosesNothing | langfuse-client/src/batcher.rs:176-187 | After the drop the task returns with everything accepted ingested and every flush acknowledged, once it has had one turn more than there were commands, whether or not Shutdown found a place |
| BatcherModel.RefusedOnlyWhenFull | langfuse-client/src/batcher.rs:148-159 | try_add refuses an event exactly if the queue is full or the task is gone |
| BatcherModel.BlockingRefusesNothing | langfuse-client/src/batcher.rs:125-142 | Under the Block policy every event offered is accepted in the order offered, or still waits, if a freed place and the push of the longest waiting sender are one step |
| BatcherModel.StepKeeps | langfuse-client/src/batcher.rs:53-103 | Every single step keeps order, conservation, acknowledgements and the bounds |
| BatcherModel.StoppedStays | langfuse-client/src/batcher.rs:79-87 | Nothing changes any more once the task has returned |
| BatcherProgress.TickHandsOver | langfuse-client/src/batcher.rs:92-101 | In every interleaving, after a tick of a running task the buffer is empty and everything accepted is ingested or still in the queue, which the tick leaves as it was |
| BatcherProgress.NothingIsStuck | langfuse-client/src/batcher.rs:64-103 | From every reachable state: once the task has had as many turns as there are commands in the queue, every flush asked for by then is acknowledged, and after the next tick every event accepted by then is ingested, whatever producers do meanwhile |
| BatcherProgress.FullBatches | langfuse-client/src/batcher.rs:70-75 | Without ticks, flushes and the drop every batch handed over has exactly max_events events |
| BatcherProgress.FlushesAreKept | langfuse-client/src/batcher.rs:163-173 | Under the Block policy every flush is queued in the order asked for, or still waits |
| BatcherProgress.ReturnsAfterDrop | langfuse-client/src/batcher.rs:176-187 | After the drop the task returns in its turn behind the commands queued before the drop, neither earlier nor later, whether or not Shutdown found a place |
| BatcherProgress.CancelTakesOne | langfuse-client/src/batcher.rs:133-136 | A sender that gives up while it waits leaves the others in their order |
| Batcher.Batcher.constructor | langfuse-client/src/batcher.rs:36-50 | A new batcher is empty, alive and running |
| Batcher.Batcher.TryAdd | langfuse-client/src/batcher.rs:148-159 | The object after the call is the specified state, and the result says whether the event was accepted |
| Batcher.Batcher.Add | langfuse-client/src/batcher.rs:125-142 | Dispatches by policy to a send that refuses or one that waits |
| Batcher.Batcher.Flush | langfuse-client/src/batcher.rs:163-173 | Queues the flush behind everything accepted so far, or waits for a place |
| Batcher.Batcher.Drop | langfuse-client/src/batcher.rs:176-187 | Shutdown is queued if there is room, and the handle is gone in any case |
| Batcher.Batcher.FlushBuffer | langfuse-client/src/batcher.rs:106-122 | A non-empty buffer is handed over whole, and only then is it empty |
| Batcher.Batcher.Receive | langfuse-client/src/batcher.rs:67-91 | One turn of the select on the command branch, the closed channel included |
| Batcher.Batcher.Tick | langfuse-client/src/batcher.rs:92-101 | One turn of the select on the timer branch |
| Batcher.Batcher.RunLoop | langfuse-client/src/batcher.rs:53-103 | For any schedule of the two branches and of what other threads do in between, the object goes through the specified states, and nothing changes it once the loop has returned |
| Batcher.Batcher.Interfere | langfuse-client/src/batcher.rs:125-187 | Whatever producers and the drop do between two turns of the loop is a specified step |
| Pipeline.ServerReceivesClosedGraph | langfuse-client/src/batcher.rs:53-187 | Tracer and batcher together: if every add of a disciplined, balanced turn is accepted at once or after waiting, then after the drop exactly the events of the turn have been ingested, in order, and every reference among them resolves |
| Pipeline.PendingIsOffered | langfuse-client/src/batcher.rs:125-159 | If no add is refused or withdrawn, what is accepted and what waits is together what was offered, in order, in every interleaving |
| FileTreeModel.RowsAreVisibleNodes | cc-widgets/src/file_tree.rs:90-122 | The flat list is exactly the visible nodes: each row resolves to a node with the same fields, each visible node has a row, and the paths increase lexicographically, so they are distinct |
| FileTreeModel.RowsIncrease | cc-widgets/src/file_tree.rs:99-122 | Rows come in preorder |
| FileTreeModel.ReplaceSplices | cc-widgets/src/file_tree.rs:224-233 | The rows of a visible node are one contiguous block, and replacing the node replaces just this block |
| FileTreeModel.ToggleSplices | cc-widgets/src/file_tree.rs:173-202 | A toggle flips its own row and inserts or removes exactly the non-empty block of visible descendants after it |
| FileTreeModel.ToggleTwice | cc-widgets/src/file_tree.rs:173-202 | Toggling the row again restores tree and list; it restores the cursor if and only if the row was collapsed or the rows below it leave room for the cursor |
| FileTreeModel.CursorNotRestored | cc-widgets/src/file_tree.rs:125-131 | A directory with one file and the cursor on the file: collapsing and expanding moves the cursor |
| FileTreeModel.FindIsFirst | cc-widgets/src/file_tree.rs:236-249 | The search by name finds the first node in preorder, collapsed ones included, and fails only if there is none |
| FileTreeModel.ReplaceHidden | cc-widgets/src/file_tree.rs:205-212 | Replacing a node that is not visible changes no row |
| FileTreeModel.SetChildrenSplices | cc-widgets/src/file_tree.rs:205-212 | Loading children replaces the block of that directory only, no row if it is hidden, and nothing at all if it is not found |
| FileTreeModel.SortKeepsRows | cc-widgets/src/file_tree.rs:252-268 | Sorting shows the same rows up to their place, so the cursor stays in range although it is not clamped |
| FileTreeModel.SortNodesSorts | cc-widgets/src/file_tree.rs:257-268 | Every level below directories is sorted afterwards |
| FileTreeModel.SortSortedTree | cc-widgets/src/file_tree.rs:257-268 | Sorting a sorted tree changes nothing |
| FileTreeModel.BeforeOrder | cc-widgets/src/file_tree.rs:258-264 | The comparison is a strict weak order, which the stable sort needs |
| FileTreeLaws.RowShowsItsNode | cc-widgets/src/file_tree.rs:99-122 | A row shows the name, kind, state and path of its node, and its depth is that of its place in the tree |
| FileTreeLaws.ToggleAnswers | cc-widgets/src/file_tree.rs:173-202 | A toggle answers if and only if the row is a directory with a path that is not loaded or has something in it; it asks for the children if and only if they are not loaded, and then changes nothing; otherwise it says what the row shows now |
| FileTreeLaws.LazyLoad | cc-widgets/src/file_tree.rs:173-212 | The round trip of a lazy load: the toggle asks for the path of the directory, setting its children loads the same row, and the next toggle shows exactly the rows of these children, or hides them if the row was expanded already |
| FileTreeLaws.SortArranges | cc-widgets/src/file_tree.rs:252-268 | Sorting leaves no file before a directory beside it and the names ascending within each kind, at every level below directories, and moves no node, visible or not, out of its directory |
| FileTreeLaws.StringLessIff | cc-widgets/src/file_tree.rs:262 | Names are compared at their first difference, a beginning of a name coming before it |
| FileTreeLaws.SiblingsAreStable | cc-widgets/src/file_tree.rs:258-263 | Siblings that compare equal keep their order |
| FileTree.FileTreeState.constructor | cc-widgets/src/file_tree.rs:47-56 | An empty, valid state |
| FileTree.FileTreeState.FlattenNodeInto | cc-widgets/src/file_tree.rs:99-122 | The recursive loop appends exactly the rows of the node |
| FileTree.FileTreeState.RebuildFlat | cc-widgets/src/file_tree.rs:90-97 | The list is the preorder of the visible nodes afterwards |
| FileTree.FileTreeState.ClampCursor | cc-widgets/src/file_tree.rs:125-131 | The nearest position in range |
| FileTree.FileTreeState.SetRoot | cc-widgets/src/file_tree.rs:58-62 | Valid whatever the new tree and the old cursor |
| FileTree.FileTreeState.Selected | cc-widgets/src/file_tree.rs:65-67 | The row under the cursor, nothing exactly for an empty list |
| FileTree.FileTreeState.Toggle | cc-widgets/src/file_tree.rs:173-202 | State and result are the specified ones in every branch: file, unloaded, empty, no path, toggled |
| FileTree.FileTreeState.SetChildren | cc-widgets/src/file_tree.rs:205-212 | State is the specified one, unchanged if the directory is not found |
| FileTree.FileTreeState.Sort | cc-widgets/src/file_tree.rs:252-255 | Valid without a clamp |
| FileTree.FileTreeState.MoveCursor | cc-widgets/src/file_tree.rs:134-141 | Stays in range even where the 32-bit sum wraps around, and then jumps to the first row |
| FileTree.FileTreeState.Click | cc-widgets/src/file_tree.rs:144-152 | Moves the cursor exactly if the row exists |
| ByteCacheModel.EveryRun | cc-widgets/src/byte_cache.rs:49-109 | After every run the byte counter is the sum of the live sizes and within the budget, the entries are within the cap and distinct, if no value can make the sum saturate |
| ByteCacheModel.PutFits | cc-widgets/src/byte_cache.rs:55-69 | Without saturation a put leaves the longest most recent part that fits the budget and keeps the counter exact |
| ByteCacheModel.FitIsLongest | cc-widgets/src/byte_cache.rs:97-109 | What fits is a prefix of the recency list, and no longer prefix fits |
| ByteCacheModel.EmptiedIff | cc-widgets/src/byte_cache.rs:55-69 | A put leaves the cache empty if and only if the counter, saturated or not, less the other entries is over the budget |
| ByteCacheModel.OversizedEmpties | cc-widgets/src/byte_cache.rs:53-69 | A value over the budget empties the cache if the sum does not saturate |
| ByteCacheModel.OversizedKept | cc-widgets/src/byte_cache.rs:67-69 | A value of the greatest size beside one of size two and under a budget of one less is kept, with a counter that is two too small |
| ByteCacheModel.SaturationBreaksCounter | cc-widgets/src/byte_cache.rs:67-69 | When the sum saturates the counter stays exact if and only if the weight of the other entries taken off the saturated value still exceeds the budget |
| ByteCacheModel.RunStaysMostRecent | cc-widgets/src/byte_cache.rs:49-69 | After every run, whatever the sizes, the cache is a prefix of the recency list of all that was put and hit |
| ByteCacheModel.StaysMostRecent | cc-widgets/src/byte_cache.rs:49-69 | One operation keeps the cache a prefix of that list: eviction cuts its end only |
| ByteCacheModel.EvictKeeps | cc-widgets/src/byte_cache.rs:97-109 | The eviction loop keeps the invariant and ends with bytes within the budget |
| ByteCacheHistory.LeastRecentLeaveFirst | cc-widgets/src/byte_cache.rs:49-69 | After every run from an empty cache the entries stand in the order of the last operation that put or found their keys, and every key that is not stored was used before all that are; told from the operations, without the recency list |
| ByteCacheHistory.StoredIsLastPut | cc-widgets/src/byte_cache.rs:55-69 | After every run an entry holds what was put last under its key, and nothing was cleared since |
| ByteCacheHistory.PutKeepsMost | cc-widgets/src/byte_cache.rs:55-69 | A put evicts no more than it must: if an entry leaves, the cap is reached or the next entry would pass the budget |
| ByteCache.ByteBudgetCache.constructor | cc-widgets/src/byte_cache.rs:40-47 | At least one entry fits, and the cache is empty |
| ByteCache.ByteBudgetCache.Get | cc-widgets/src/byte_cache.rs:49-51 | Returns the stored value and makes the entry the most recent |
| ByteCache.ByteBudgetCache.Put | cc-widgets/src/byte_cache.rs:55-69 | State after the call is the specified one |
| ByteCache.ByteBudgetCache.EvictToBudget | cc-widgets/src/byte_cache.rs:97-109 | The loop does what the recursive specification says; its None branch is proved unreachable |
| ByteCache.ByteBudgetCache.Clear | cc-widgets/src/byte_cache.rs:77-80 | Empty, and the counter is zero |
| DiagnosticsModel.EveryRun | cc-lsp/src/diagnostics.rs:60-66 | In every run each current list is non-empty, at most 10 long, sorted by severity and without repeated keys, and so is everything the callback was given; the LRU holds at most 500 files |
| DiagnosticsModel.NoKeyTwice | cc-lsp/src/diagnostics.rs:125-165 | In every run, a key of a file that reaches the callback twice means that the file left the LRU in between |
| DiagnosticsModel.LeavesOnlyIf | cc-lsp/src/diagnostics.rs:95-129 | A file leaves the LRU if and only if all is cleared, an empty list is published for it, or it is the least recent of 500 and an untracked file is published |
| DiagnosticsModel.CurrentIsPublishedIff | cc-lsp/src/diagnostics.rs:143-151 | The current list is the sorted, capped publication if and only if none of its keys repeats or was delivered before, or all were delivered and the list was already this one |
| DiagnosticsModel.CurrentForgets | cc-lsp/src/diagnostics.rs:143-151 | One diagnostic published alone and then together with a second one is no longer in the current list |
| DiagnosticsModel.KeyIsExact | cc-lsp/src/diagnostics.rs:132-135 | The formatted key identifies severity, line, column and message exactly, whatever the message contains |
| DiagnosticsModel.FreshSpec | cc-lsp/src/diagnostics.rs:125-141 | The entries let through have new, distinct keys, keep their order and cover every unseen key |
| DiagnosticsModel.GetAllKeepsTheWorst | cc-lsp/src/diagnostics.rs:176-182 | The query returns min(30, total) entries, sorted, and leaves out nothing more severe than anything it returns |
| DiagnosticsModel.StoredInAnyOrder | cc-lsp/src/diagnostics.rs:176-182 | The entries gathered are the same multiset in whatever order the map is walked |
| DiagnosticsModel.CountsAddUp | cc-lsp/src/diagnostics.rs:49-56 | The four counters of a list add up to its length |
| DiagnosticsHistory.CurrentIsLastBrought | cc-lsp/src/diagnostics.rs:92-173 | In every run a file has a current list if and only if some publication of it held a key that was not delivered and nothing has erased the file since (clear-all, or an empty publication of it); the list is what the last such publication held of undelivered keys |
| DiagnosticsHistory.OtherFilesStay | cc-lsp/src/diagnostics.rs:92-173 | A publication leaves the lists of all other files as they were |
| DiagnosticsHistory.DeliveredIff | cc-lsp/src/diagnostics.rs:125-141 | In every run the delivered keys of a file are exactly those of its capped publications since it has been tracked without a break |
| DiagnosticsHistory.TrackedInOrder | cc-lsp/src/diagnostics.rs:125-129 | In every run the tracked files stand in the order of their last publication, and a file that left for want of room was published before all that stayed |
| DiagnosticsHistory.TrackedIffPublished | cc-lsp/src/diagnostics.rs:95-129 | A file that is not tracked becomes so if and only if a list that is not empty is published for it |
| DiagnosticsHistory.CallbackIffBrought | cc-lsp/src/diagnostics.rs:161-165 | A step calls the registered callback once, with the undelivered entries of the publication, if there are any; no other step calls it |
| DiagnosticsHistory.KeepsTheWorst | cc-lsp/src/diagnostics.rs:102-123 | Of a publication the ten most severe diagnostics are kept: sorted, nothing left out more severe, and among equals the earliest in the order published |
| DiagnosticsHistory.SeverityNumbers | cc-lsp/src/diagnostics.rs:112-115 | The numbers 1 to 4 of the protocol are the four severities from the most severe on; any other, and none, is information |
| DiagnosticsHistory.ShownFromOne | cc-lsp/src/diagnostics.rs:107-118 | Line and column count from one, all other fields are those published; only the last 32-bit position comes out as 0 |
| Diagnostics.DiagnosticsRegistry.constructor | cc-lsp/src/diagnostics.rs:76-84 | An empty registry without a callback |
| Diagnostics.DiagnosticsRegistry.OnUpdate | cc-lsp/src/diagnostics.rs:87-89 | Only the callback changes |
| Diagnostics.DiagnosticsRegistry.Deduplicate | cc-lsp/src/diagnostics.rs:125-141 | The loop lets through what the specification does and adds their keys to the delivered set |
| Diagnostics.DiagnosticsRegistry.HandlePublishDiagnostics | cc-lsp/src/diagnostics.rs:92-168 | State and callback history are the specified ones in every branch |
| Diagnostics.DiagnosticsRegistry.GetForFile | cc-lsp/src/diagnostics.rs:171-173 | The current list of the file, empty if there is none |
| Diagnostics.DiagnosticsRegistry.GetAll | cc-lsp/src/diagnostics.rs:176-182 | The specified selection for every order of the map |
| Diagnostics.DiagnosticsRegistry.Summarize | cc-lsp/src/diagnostics.rs:185-205 | The counters are those of all stored entries, their total is the stored count, and the files with errors are counted once each |
| Diagnostics.DiagnosticsRegistry.ClearAll | cc-lsp/src/diagnostics.rs:208-211 | Forgets lists and delivered keys and nothing else |
| Xml.UnescapeEscape | cc-tui-core/src/shell_notification.rs:225-234 | Unescaping what was escaped gives back every string |
| Xml.EscapeIsEncode | cc-tui-core/src/shell_notification.rs:225-229 | Three replacements one after the other are one pass that encodes each character by itself |
| Xml.ExtractPrinted | cc-tui-core/src/shell_notification.rs:214-222 | Extracting a tag printed around an escaped value gives the value back, whatever the value and the text around |
| Notifications.ScanLoop | cc-tui-core/src/shell_notification.rs:28-35 | The cursor loop terminates and finds the specified blocks in order |
| Notifications.ScanPrinted | cc-tui-core/src/shell_notification.rs:22-35 | On any document of well-formed blocks the loop yields exactly these blocks in order |
| Notifications.FirstBlockFound | cc-tui-core/src/shell_notification.rs:59-70 | Taking the candidate with the least body start picks the block that opens first, for any list of tags |
| Notifications.CompletionReadBack | cc-tui/src/app/background_shell.rs:291-321 | Every field of a completion notification is read back as it was written, and the description if and only if there is one |
| Notifications.CompletionsFound | cc-tui/src/app/background_shell.rs:291-321 | Any number of completion notifications in one message are all found, in order, whatever their fields contain |
| Sanitizer.SkipCsiSequence | cc-tui-core/src/tool_display.rs:573-582 | Consumes up to and including the final byte |
| Sanitizer.SkipOscSequence | cc-tui-core/src/tool_display.rs:584-598 | Consumes up to BEL or ESC backslash |
| Sanitizer.SkipStringControlSequence | cc-tui-core/src/tool_display.rs:600-611 | Consumes up to ESC backslash |
| Sanitizer.SkipEscapeSequence | cc-tui-core/src/tool_display.rs:549-571 | Consumes the sequence that the character after ESC starts |
| Sanitizer.SanitizeDisplayText | cc-tui-core/src/tool_display.rs:531-547 | The scanning loop computes the specified text |
| Sanitizer.MachineAgrees | cc-tui-core/src/tool_display.rs:531-611 | The nested scanners are the same as a machine with six modes that reads one character at a time |
| Sanitizer.SanitizedIsClean | cc-tui-core/src/tool_display.rs:531-547 | No control character comes out, but for newlines where they are preserved |
| Sanitizer.CleanUnchanged | cc-tui-core/src/tool_display.rs:531-547 | Clean text comes out as it is |
| Sanitizer.SanitizeIdempotent | cc-tui-core/src/tool_display.rs:522-529 | Sanitizing twice is sanitizing once |
| Sanitizer.CompleteSplits | cc-tui-core/src/tool_display.rs:531-547 | After text that ends outside of any sequence the rest is sanitized on its own |
| Sanitizer.ControlSequenceVanishes | cc-tui-core/src/tool_display.rs:573-582 | A complete control sequence of section 5.4 of ECMA-48, 7-bit or 8-bit, between two such texts contributes nothing |
| Sanitizer.ControlStringShows | cc-tui-core/src/tool_display.rs:549-571 | What each control string of section 5.6 of ECMA-48 contributes, for every opener |
| Sanitizer.ControlStringVanishesIff | cc-tui-core/src/tool_display.rs:549-611 | For every opener and both terminators, a control string contributes nothing if and only if its opener is recognised and its terminator is ESC backslash or nothing follows, or its opener is not recognised (ESC X and all 8-bit ones) and its content is made of BS, VT, FF, and CR where newlines are kept |
| Sanitizer.ContentVanishesIff | cc-tui-core/src/tool_display.rs:531-547 | Which command strings show nothing as plain text, character by character |
| Sanitizer.EightBitTerminatorShows | cc-tui-core/src/tool_display.rs:584-611 | With the 8-bit terminator a recognised string goes on and swallows the clean text behind it, and any other is shown like plain text |
| SanitizerLaws.PlainOnOneLine | cc-tui-core/src/tool_display.rs:531-547 | Text in which no sequence starts, on one line: every newline, carriage return and tab is one space, and all other control characters are left out |
| SanitizerLaws.PlainOnLines | cc-tui-core/src/tool_display.rs:531-547 | The same where newlines are kept: a tab is four spaces, and all control characters but newlines are left out |
| SanitizerLaws.BellTerminator | cc-tui-core/src/tool_display.rs:584-611 | BEL ends ESC ] and no other string; the other recognised strings go on and swallow the clean text behind it |
| SanitizerLaws.TwoCharacterEscape | cc-tui-core/src/tool_display.rs:564-569 | ESC and a character that opens nothing are both left out |
| SanitizerLaws.UnfinishedSequence | cc-tui-core/src/tool_display.rs:573-582 | A control sequence cut off by the end of the text takes all of it |
| Prompt.RenderSection | cc-acp/src/prompt/mod.rs:414-430 | The loop over the parts renders the specified text of the template, after any adaptation of its wording |
| Prompt.PlaceholderRendered | cc-acp/src/prompt/mod.rs:414-430 | A placeholder anywhere is replaced once, between the renderings of what surrounds it; the value is never looked at again, an unknown placeholder stays |
| Prompt.InertUnchanged | cc-acp/src/prompt/mod.rs:419-429 | A template that contains no known placeholder is rendered as it is |
| Prompt.SplitRejoins | cc-acp/src/prompt/mod.rs:419 | Splitting and rejoining is the identity |
| Prompt.BuildSystemPrompt | cc-acp/src/prompt/mod.rs:437-480 | Adapted static sections, boundary, and only then overrides, adapted dynamic sections, memory and language |
| Prompt.AppendDynamic | cc-acp/src/prompt/mod.rs:450-480 | What follows the boundary, appended piece by piece |
| Prompt.PrefixIsStableIff | cc-acp/src/prompt/mod.rs:432-449 | The text before the boundary is the same for all values of the variables if and only if no static section in use holds a known placeholder; overrides, memory and language never matter |
| PromptLayout.PromptLaidOut | cc-acp/src/prompt/mod.rs:432-480 | The prompt is the rendered static sections in use, a blank line between them (all of them for the main agent of the cc kernel, all but the fifth for any other), the boundary, and behind it overrides if any, dynamic sections and memory, each after a blank line, and the language text |
| LineStream.TakeCompleteLines | cc-tui/src/update.rs:173-184 | The draining loop returns the LF-terminated lines, one CR stripped, and leaves the rest, which holds no LF |
| LineStream.StreamLinesLossy | cc-tui/src/update.rs:145-167 | For every way of cutting the stream into reads the lines emitted are those of the reference split of the whole; after an error, the terminated ones read before it |
| LineStream.LinesOfCut | cc-tui/src/update.rs:155-163 | Cutting a stream anywhere does not change its lines: the second part continues the unterminated end of the first |
| LineStream.SplitJoined | cc-tui/src/update.rs:173-184 | The reference split gives back the lines that were printed with LF, each without one CR at its end |
| LineStream.AllLinesOfJoined | cc-tui/src/update.rs:145-167 | The lines of printed text are those printed, each without one CR at its end, and what follows the last LF as it is, if anything does |
| LineStream.StreamIsJoined | cc-tui/src/update.rs:145-184 | Every stream is such a text |
| AgentPool.SameEpochSameModel | cc-acp/src/session/agent_pool.rs:118-143 | In every interleaving two calls get the same instance if and only if they have the same fingerprint and commit between the same two invalidations, and after the last invalidation it is the cached one |
| AgentPool.RunKeeps | cc-acp/src/session/agent_pool.rs:118-143 | In every interleaving each instance belongs to one fingerprint only, and what was given out in the current epoch is in the cache |
| AgentPool.AloneCreatesAtMostOne | cc-acp/src/session/agent_pool.rs:118-143 | A call left alone takes the cached instance and creates none, or creates exactly one and caches it under its own fingerprint only |
| AgentPool.Pool.HasValidCache | cc-acp/src/session/agent_pool.rs:83-86 | Valid exactly if instances are stored whose own fingerprint is the asked one |
| AgentPool.Pool.StoreLlm | cc-acp/src/session/agent_pool.rs:89-92 | Stored with its fingerprint; the sub-agent cache is not touched |
| AgentPool.Pool.Invalidate | cc-acp/src/session/agent_pool.rs:100-104 | Everything cached is forgotten, which is the step of that name in every interleaving |
| AgentPool.Pool.LookUp | cc-acp/src/session/agent_pool.rs:126-132 | Under the lock: the first step of a call, which commits to the cached instance or goes on to create one |
| AgentPool.Pool.GetOrCreate | cc-acp/src/session/agent_pool.rs:118-143 | A whole call with nobody else at the pool goes through the steps of the interleaved model and returns what it commits to |
| AgentPool.Pool.WriteBack | cc-acp/src/session/agent_pool.rs:135-142 | Under the lock: the last step of a call, which commits to the entry that is already there or to the new one |
| AllocKeys.KeyBuf.PushStr | cc-tui/src/alloc_config.rs:210-214 | The text is appended and the rest of the key unchanged |
| AllocKeys.KeyBuf.Digits | cc-tui/src/alloc_config.rs:216-229 | Twenty places are enough for 64 bits, and they hold the digits, last one first |
| AllocKeys.KeyBuf.PushIndex | cc-tui/src/alloc_config.rs:216-233 | Appends the shortest decimal numeral of the index |
| AllocKeys.KeyBuf.Key | cc-tui/src/alloc_config.rs:235-239 | The text with its NUL, for which a place is always left |
| AllocKeys.PushCountKey | cc-tui/src/alloc_config.rs:300-325 | With 32-bit indices no assertion about the 64-byte buffer fails, and the key is the specified one |
| AllocKeys.PushSizeKey | cc-tui/src/alloc_config.rs:285-298 | The same for the keys of the sizes |
| AllocKeys.CountKeysDiffer | cc-tui/src/alloc_config.rs:300-325 | Different arenas, kinds or classes never share a key |
| AllocKeys.KeyTexts | cc-tui/src/alloc_config.rs:285-325 | The full texts of the four kinds of keys |
| AllocKeys.NumeralLengths | cc-tui/src/alloc_config.rs:216-229 | 10 digits for 32 bits, 20 for 64 |
| Decimal.NumeralValue | cc-tui/src/alloc_config.rs:216-233 | Reading the numeral gives the index back |
| Decimal.NumeralShortest | cc-tui/src/alloc_config.rs:216-233 | No digit string of the same value is shorter |
| AllocTable.QuerySizeClasses | cc-tui/src/alloc_config.rs:257-346 | A table comes back if and only if all counts and sizes can be read, there are bins and arenas, and some arena can be read; it is sorted by bytes and then size, has no empty class, and its bytes are those of all readable arenas and classes |
| AllocTable.ClassesAreRead | cc-tui/src/alloc_config.rs:285-325 | Which counter is read for which class: bins first, then large extents counted from zero again |
| AllocTable.TableRows | cc-tui/src/alloc_config.rs:333-343 | The rows are the classes that hold anything, each with its own size and count |
| AllocTable.ReadSizes | cc-tui/src/alloc_config.rs:285-298 | Fails if and only if some size cannot be read |
| AllocTable.ReadCounts | cc-tui/src/alloc_config.rs:304-327 | Adds exactly the readable counts of one arena to the totals of their classes |
| AllocTable.ReadArenas | cc-tui/src/alloc_config.rs:300-331 | Totals over all arenas; some arena was read if and only if some count could be |
| AllocTable.WeightedIsAllBytes | cc-tui/src/alloc_config.rs:300-346 | The sum class by class of size times total is the sum arena by arena |
| AllocTable.TableBytes | cc-tui/src/alloc_config.rs:336-343 | Leaving out the empty classes loses no byte |
| AllocTable.SumOfMultiset | cc-tui/src/alloc_config.rs:344 | Sorting does not change the sum |
| AllocTable.BeforeOrder | cc-tui/src/alloc_config.rs:344 | The comparison is a strict weak order |
| StableSort.SortSorts | cc-tui/src/alloc_config.rs:344 | The sort that file tree, diagnostics and table share sorts |
| StableSort.SortIsStable | cc-lsp/src/diagnostics.rs:119-120 | Elements that compare equal keep their order |
| Reservation.OutputDir.Reserve | cc-agent/src/task_output.rs:70-115 | Without errors the path returned was free and is then taken, and it is the first free candidate; every error branch, and termination |
| Reservation.OutputDir.CreateNew | cc-agent/src/task_output.rs:80-84 | Creates exactly the names that are not there |
| Reservation.AttemptsBounded | cc-agent/src/task_output.rs:78-113 | However the hashes collide, at most 32 plus the number of files in the directory candidates are taken |
| Reservation.FullNamesDiffer | cc-agent/src/task_output.rs:95-100 | The names of the fallback loop are distinct |
| Reservation.EveryRun | cc-agent/src/task_output.rs:70-115 | However the attempts of any number of calls interleave with each other, with files created by others and with clean-ups, two tasks never hold the same file |
| Reservation.NothingLeaks | cc-agent/src/task_output.rs:70-115 | However the attempts interleave, every file was there at the start, was created by somebody else, or is held by a task that has not cleaned up; and no file that was there is removed |
| Reservation.CandidateNames | cc-agent/src/task_output.rs:75-100 | Thirty-two short names, then the identifier, then the identifier with a number |
| Reservation.TryKeeps | cc-agent/src/task_output.rs:80-91 | An attempt takes a name only if it was free, and leaves it taken |
| Reservation.AloneStopsAt | cc-agent/src/task_output.rs:78-113 | A call left alone takes the same candidate in the interleaved model and in the loop |
| TaskOutput.OutputFile.Writer | cc-agent/src/task_output.rs:169-239 | The channel is always drained; the file grows by the specified bytes if one of five attempts to open it succeeds, else by nothing |
| TaskOutput.OutputFile.AppendAll | cc-agent/src/task_output.rs:219-238 | The receive loop, with chunks dropped over the limit and after write errors |
| TaskOutput.Channel.Drain | cc-agent/src/task_output.rs:214 | Receives to the end |
| TaskOutput.WrittenIsPrefix | cc-agent/src/task_output.rs:219-236 | Without write errors the file is the prefix of the output of length min(total, 5 GiB), after every chunk |
| TaskOutput.FileSize | cc-agent/src/task_output.rs:225-235 | With write errors the file passes the limit by at most the bytes that failed writes left behind |
| TaskOutput.FullStaysFull | cc-agent/src/task_output.rs:221-224 | Nothing is written once the limit is reached |
| TaskOutput.DeltasReassemble | cc-agent/src/task_output.rs:265-285 | However the file grows between and during the calls, the deltas put together are the file from the first offset on: no gap, no repeat |
| TaskOutput.DeltaIsNext | cc-agent/src/task_output.rs:265-285 | One delta is what comes next, empty exactly if there was nothing new when it looked |
| TaskOutput.DeltasCatchUp | cc-agent/src/task_output.rs:265-285 | A file that rests is read to its end in steps of 8 MiB |
| TaskOutput.TailWithinIff | cc-agent/src/task_output.rs:245-260 | The tail is the end of the file; it keeps to the bound if and only if the file is no longer than the bound or did not grow during the call |
| TaskOutput.TailTooLong | cc-agent/src/task_output.rs:245-260 | A file of one byte that grows to two during the call: a tail of one byte returns both |
| TaskOutput.ReaderFollowsWriter | cc-agent/src/task_output.rs:219-285 | What a reader has put together is a prefix of the output of the task, whenever it looked |
| Title.SanitizeTitle | cc-terminal/src/terminal_title.rs:176-204 | The loop computes the words of the visible text, one space apart, cut at 240 |
| Title.TitleIsNeat | cc-terminal/src/terminal_title.rs:176-204 | At most 240 characters, none disallowed, no white space but single spaces inside |
| Title.TitleUnchangedIff | cc-terminal/src/terminal_title.rs:176-204 | A title is left as it is if and only if it is already such |
| Title.TitleIdempotent | cc-terminal/src/terminal_title.rs:176-204 | Cleaning twice is cleaning once |
| Title.CutsAPrefixIff | cc-terminal/src/terminal_title.rs:189-199 | The title has as many characters as its text, at most 240, and only the last can be out of place: the cut keeps a prefix if and only if no space falls on place 240; otherwise the next character takes it and two words run together |
| Title.WordsRunTogether | cc-terminal/src/terminal_title.rs:189-199 | A word of 239 letters and one of a single letter become one word |
| Title.NextShown | cc-terminal/src/terminal_title.rs:181-201 | One more visible character adds itself, after a space exactly if white space came between and something came before |

## Left out

- Tracer: the final answer, retry metadata, token usage, the messages of generations, outputs of observations, the input of the agent run, the fields of a tool's input other than the sub-agent type and the prompt, trace and session ids, the UUIDs of the event envelopes.
- Tracer: each call is given one instant; where the source reads the clock twice in a call, both readings are the same here.
- Tracer runs with overlapping Agent calls, which the code does not support, but for what `SpanLimits` says of them.
- Batcher: whether the HTTP request succeeds (a failed batch is only logged), and the text of errors. Locks, channels and atomics are taken as atomic steps.
- BatcherModel.BlockingRefusesNothing: the order among several tasks that wait for a place is an assumption about the tokio channel: a freed place goes to the task that has waited longest, and its event is in the queue in the same step.
- BatcherModel.EveryRun: a flush whose caller went away is acknowledged all the same; what the caller sees of it is not modelled.
- File tree: the scroll offset is a field that only `Click` reads; `ensure_visible` and the icon closure are left out.
- FileTree.FileTreeState.MoveCursor: is about lists of at most 2^31 rows; beyond that the cast of the length to 32 bits makes the source's clamp panic. The wrapped sum is that of a release build.
- FileTree.FileTreeState.SetChildren: finds the node with a function, not with the recursive mutable loop of the source.
- Byte cache: `iter`, `stats` and the estimate of line bytes, which are easy. The recency list stands for the `lru` crate.
- Diagnostics: a publication is one step, although the source releases its locks between deduplication, storing and callback. The order in which a hash map is walked is a parameter.
- Notifications: trimming and the system-reminder wrapper, the localised text and tone of a block, the notification of `shell_completion_notification`, which does not escape its id. Positions count characters, not UTF-8 bytes.
- Sanitizer: `replace_first` and `edit_full_file_diff`.
- Prompt.RenderSection: the adaptation of a template's wording to the kernel is an arbitrary function.
- Prompt.BuildSystemPrompt: the sections, the listing of agents and the text of the memory and language blocks are inputs.
- LineStream: lossy UTF-8 decoding is an arbitrary function of the bytes of a line.
- AgentPool: a pool that has been dropped, where each call just creates its own model; registered skills and project tools.
- AllocTable.QuerySizeClasses: one snapshot of the counters is one function from keys to numbers; overflow of the 64-bit totals is not modelled, since no process has so many objects.
- Reservation: the SHA-256 hash is an arbitrary function, the attempt counter is unbounded (`AttemptsBounded` shows that 64 bits are enough), errors are a predicate on names that does not change during a call. The interleaved model has no errors.
- TaskOutput: delays between attempts to open the file, the failed flush at the end, and `cleanup` of a file that is not there.
- Title: `extract_thread_title`, `format_title` and the truncation by grapheme clusters, which needs Unicode tables.
