# openagent-go: verified models of its protocols

This project models the parts of openagent-go in which state changes step by step, and proves properties of them over
all inputs, all runs and all interleavings.

- **Plan engine.** A plan is a directed acyclic graph of steps. `Validation` models the validator, `Scheduling` the
  layering of unfinished steps, `Replanning` the replacement of what a failure affects. `PlanTrace` describes an
  execution as a run of snapshots, one after every write to the plan's state, and holds the theorems about runs;
  `PlanUsage` adds token accounting. `ExecState`, `BatchRun` and `Executor` are the imperative executor: every method
  of `PlanState` appends a snapshot to a ghost run, and every method that calls them is proved to continue that run
  lawfully, so the theorems hold of the executor. `PlanSessions` is the pause, retry, replan and resume loop of the
  plan endpoint. `PlanRuns` builds runs write by write and settles where the theorems end.
- **Conversations.** `Messages` defines when tool calls and results are paired, `Tools` runs calls concurrently,
  `ContextWindow` trims a request, `Requests` says how a run's requests relate to its conversation and when they are
  paired, and `AgentRuns` is the turn loop.
- **Teams.** `Teams` holds the roster and loop detection, `TeamRuns` the handoff machine.
- **Memory.** `Compaction` specifies a stored session under appends, compactions, deletions and restarts. `FileStore` and
  `SqliteStore` are the two stores, `WorkingSets` the preparation of a run's working set, `Paging` the pages of a log,
  `TeamHistory` the history endpoint that merges an agent's private partitions with the shared one, and `TeamOrders` says
  when sorting by index restores the order.
- **Event bus.** `EventBus` splits each operation into its locked steps, which may interleave freely.

Agents, models, tools, guards, routers, planners and summarisers are arbitrary: every value they could return is
considered. A region protected by a mutex is one atomic step. `Graphs` and `InDegrees` hold the graph theory, `Basics`
what several modules share.

## Results that differ from the code's own comments

Each of these has a lemma with a concrete input or an exact condition.

- A step whose agent does not exist fails without a recorded failure, so a plan can be reported done with steps undone;
  completion means every step is done iff every agent exists (`Executor.CompletedIffKnown`).
- The plan merged after feedback is not validated again. It is valid iff the replacement reuses no surviving id
  (`Replanning.MergeValidIff`), and a session's run is lawful iff no replacement does (`PlanRuns.LawfulIffFreshIds`); if
  one does, finished work can be lost and repeated (`PlanRuns.CollisionLosesDoneStep`).
- The circular-dependency report also names steps that merely depend on a cycle (`Validation.KahnLeavesCycles`).
- A gate that finishes in a batch that also fails is not paused on under automatic replanning, and what depends on it can
  start without control having been given back (`PlanRuns.GateSkipped`). Gates keep their promise in every run exactly
  without automatic replanning (`PlanRuns.GatesHoldIff`, from `PlanTrace.GatesPause`), and so in every plan session
  (`PlanSessions.GatesReturnControl`).
- After trimming, the working messages are synchronised by count. This is exact iff no system message is among the ones
  dropped (`ContextWindow.SyncExactIff`); a plan step starts with a system message, and its run can send an unpaired
  request (`Requests.SyncCanBreakPairing`). The exact condition is `Requests.RequestsPairedIff`.
- A guard that aborts a run inside a tool exchange leaves an unpaired memory (`AgentRuns.AgentRun.Run`).
- The compression boundary protects a cut directly after an assistant message with calls, not one between two results of
  one exchange (`Compaction.SafeCutIff`); the database store's look-ahead of 20 messages limits it further
  (`Compaction.LookAheadIff`).
- If the newest message alone exceeds the budget, or the adjusted cut leaves nothing, the whole session is the working set
  (`WorkingSets.WithinBudgetIff`).
- For sessions of more than 5000 messages an early cut makes the store summarise the wrong messages, and a team agent's
  cut counts its private messages although only the shared partition is compacted (`WorkingSets.PreparePartitionIff`,
  `WorkingSets.LongSessionSkips`).
- Deleting a session in the file store keeps its index counter, and a later restart can repeat indices
  (`Compaction.DeleteThenRestartDisorders`).
- The database query and the file query differ when a page is cut inside a long run of tool results
  (`SqliteStore.WindowedExactIff`).
- The merged team history relies on indices that are unique across partitions, which the file store does not provide
  (`TeamHistory.PartitionCountersDisorder`). It is always in order iff indices increase (`TeamOrders.ShownInOrderIff`),
  which with a counter for each partition holds only while all messages are in one (`TeamOrders.PartitionCountersIff`).
- A return handoff that is not already a loop can only be the second handoff of a chain (`Teams.ReturnOnlySecond`), and
  the hard stop after a second loop in a row is never reached (`TeamRuns.TeamRunner.Handoff`).
- Replaying a history longer than the queue drops its newest events, not the oldest (`EventBus.ReplayKeepsOldest`).
- A publish that straddles the removal of its topic sends on a closed channel (`EventBus.PanicsIff`).

## Model

| member | source | states |
|---|---|---|
| `Validation.Validate` | plan/validate.go:30-146 | Accepts exactly the plans with at least one step, unique non-empty ids, known agents, resolvable dependencies without self or duplicate dependencies, and no cycle; on structural problems the set of reports is exactly the set of problems there are; after them only cycle reports are possible, the circular one names exactly the steps that lead to a cycle, and the reachability pass reports each of those once more |
| `Validation.StructuralIffNoProblem` | plan/validate.go:33-85 | The catalogue of structural reports is complete: a plan is structurally sound iff none applies |
| `Validation.CheckIds` | plan/validate.go:38-51 | The first pass reports empty and repeated ids, each iff it occurs, and collects the known ids |
| `Validation.CheckStep` | plan/validate.go:54-81 | The second pass reports agent and dependency problems of a step, each iff it is there |
| `Validation.BuildDegrees` | plan/validate.go:89-96 | In-degrees are the lengths of the dependency lists and the adjacency lists are their transpose |
| `Validation.Kahn` | plan/validate.go:87-116 | The sorted list orders its steps by a rank that decreases along dependencies, and the in-degrees left count the unsorted dependencies |
| `Validation.Relax` | plan/validate.go:106-116 | One round keeps the in-degrees counting the unprocessed dependencies and the queue holding exactly the ready steps |
| `Validation.KahnLeavesCycles` | plan/validate.go:118-126 | The steps not sorted are exactly those that are on a cycle or depend on one, which are those with in-degree left |
| `Validation.KahnCompleteIffAcyclic` | plan/validate.go:118-140 | Sorting as many steps as there are is the same as the absence of cycles |
| `Graphs.StuckReachesCycle` | plan/validate.go:118-127 | Where every member of a finite set depends on another member, every member leads to a cycle |
| `Graphs.RankedIsAcyclic` | plan/validate.go:105-116 | A numbering that decreases along dependencies excludes cycles |
| `Scheduling.TopoSortPending` | plan/executor.go:731-781 | Terminates on every input; batch k holds, without repetition, exactly the pending steps whose longest pending dependency path has length k; all pending steps are scheduled iff the pending graph is acyclic |
| `Scheduling.EmptyIffAcyclic` | plan/executor.go:762-765 | The layering stops with steps left iff the pending graph has a cycle |
| `Scheduling.RemoveBatch` | plan/executor.go:769-777 | Removing a batch leaves counts of exactly the remaining dependencies |
| `Graphs.DeepIsPath` | plan/executor.go:731-781 | The recursive measure of depth is the existence of a path of that length |
| `Executor.DependencyEarlier` | plan/executor.go:159-170 | A pending dependency of a step lies in a strictly earlier batch |
| `Replanning.AffectedSteps` | plan/executor.go:784-809 | The affected set is exactly what reaches the failed step backwards along dependencies, itself included |
| `Replanning.MergeSteps` | plan/executor.go:685-692 | The merged plan is the surviving steps in order followed by the replacement |
| `Replanning.SurvivorsClosed` | plan/executor.go:685-692 | No surviving step depends on a replaced one |
| `Replanning.MergeValidIff` | plan/plan.go:310-319 | Survivors plus a separately valid replacement form a valid plan iff the replacement reuses no surviving id |
| `Replanning.MergeAcyclic` | plan/executor.go:685-703 | With disjoint ids the merged plan has no cycle |
| `PlanTrace.RunIsDependencySafe` | plan/executor.go:26-260 | In every state of every run (any interleaving, failures, retries, validated replans) each step that runs, is done or has failed has all its dependencies done |
| `PlanTrace.AffectedNotDone` | plan/executor.go:610-623 | The steps affected by one that is not done are not done, so dropping their results loses no finished work |
| `PlanTrace.DoneIsFinal` | plan/executor.go:147-153 | Over any run a done step keeps its definition and result and is never started again |
| `PlanTrace.GatesPause` | plan/executor.go:182-192 | Between a gate finishing and the start of anything that depends on it transitively, the run gives control back or replaces the plan automatically; Executor.Execute gives control back at its end and nowhere before |
| `PlanTrace.ManualGatesHold` | plan/executor.go:101-120 | In a run without automatic replacement, control is given back between every gate and the start of whatever depends on it |
| `PlanRuns.GateSkipped` | plan/executor.go:166-192 | A run of nine writes under automatic replanning: a gate succeeds, a step attempted with it fails, the plan is replaced, and a step that depends on the gate starts without control ever having been given back |
| `PlanRuns.GatesHoldIff` | plan/executor.go:122-192 | Every run meets the gate promise iff automatic replanning is off or there is no agent that could finish a step |
| `PlanRuns.LawfulIffFreshIds` | plan/plan.go:305-324 | A session that goes on after every replacement stays within the runs the theorems are about iff no replacement reuses the id of a surviving step |
| `PlanRuns.CollisionLosesDoneStep` | plan/plan.go:305-324 | A run of fifteen writes in which each replacement is valid on its own and only the first reuses a surviving id: a step that is done loses its result when a later failure is replaced, and is started a second time |
| `PlanTrace.RunIsExplained` | plan/executor.go:363-368 | Every done step's result is what its agent answered to the context of its present dependencies |
| `PlanTrace.ResultsAreEval` | plan/executor.go:430-477 | With agents a function of step and context, every done step of every run holds the value of the recursive evaluation of the present plan |
| `PlanTrace.Confluence` | plan/executor.go:203-260 | Two runs that reach the same plan with every step done agree on every result, whatever the interleaving, batch order, concurrency limit, failures and replans |
| `PlanTrace.NextKeepsInv` | plan/executor.go:264-384 | Every atomic write of an execution keeps dependency safety, unique sound plans and clean results |
| `PlanTrace.OutcomeRecorded` | plan/executor.go:336-374 | A success is recorded with summary, output and usage and without an error; a failure only changes status and error |
| `PlanUsage.SpentIsHeld` | plan/executor.go:228-231 | Over any run the usage of all successful executions equals the sum of the usages in the surviving results |
| `PlanUsage.ReplanConservesUsage` | plan/executor.go:705-708 | Deleting the affected results on a replan loses no usage |
| `ExecState.BuildStepContext` | plan/executor.go:430-477 | The context is the step's task and, in order, one entry for each dependency: its id, agent and task, the summary and error of its result, success iff it is done, and its output whole up to 2000 characters and cut after them |
| `ExecState.Limits` | plan/executor.go:39-42 | The limits for replacements, concurrent steps and retries are the configured ones, and 3, 8 and 3 where nothing positive is configured |
| `ExecState.PlanState.constructor` | rest/plan_handler.go:281-289 | A fresh state holds the plan, no results and a run of one snapshot |
| `ExecState.PlanState.Prepare` | plan/executor.go:57-62 | Steps without a result get a pending one; nothing else changes |
| `ExecState.PlanState.BeginAttempt` | plan/executor.go:287-296 | Marks one waiting step with finished dependencies as running, with the context of its dependencies |
| `ExecState.PlanState.EndAttempt` | plan/executor.go:336-374 | Records success, transient or permanent failure of one step; a successful gate becomes held |
| `ExecState.PlanState.Reset` | rest/plan_handler.go:325-330 | A step that is not done goes back to pending; nothing else changes |
| `ExecState.PlanState.ReplacePlan` | plan/executor.go:685-710 | Steps become survivors plus replacement and exactly the affected results are forgotten |
| `BatchRun.RunBatch` | plan/executor.go:203-260 | Under every interleaving of the goroutines, only the batch's results change and never do more steps run than the limit allows; without failure or cancellation all its steps are done; a failure is recorded unless the agent does not exist; the usage returned is what was spent |
| `BatchRun.StepGoroutine` | plan/executor.go:220-241 | One atomic step of one goroutine: a launched one exits iff the batch is cancelled, fails iff its agent is unknown and attempts otherwise; a failed one cancels the batch and nothing else does; it changes only its own result and never starts a step early |
| `BatchRun.Conclude` | plan/executor.go:336-383 | For whatever outcome the agent returns: success ends the step as done with its usage added, a transient failure is retried iff the limit allows, a permanent one never; the outcome is what the result records |
| `BatchRun.BatchIndependent` | plan/executor.go:769-777 | No step of a runnable batch depends, even transitively, on another |
| `BatchRun.DependenciesStable` | plan/executor.go:430-477 | While a batch runs, the contexts of its steps do not change |
| `Executor.ExecuteBatches` | plan/executor.go:145-196 | One pass never gives control back itself; without failure or cancellation it stops for a gate iff one has finished; once the context is done it starts nothing; no running step is left, usage is accounted for, and otherwise everything is done, a step failed or an agent is unknown |
| `Executor.FindGate` | plan/executor.go:182-192 | Finds a finished gate of the batch iff there is one |
| `Executor.FindFailed` | plan/executor.go:552-560 | Finds the first failed step in plan order, or none |
| `Executor.ReplanAfterFailure` | plan/executor.go:608-711 | Succeeds iff the planner answers with steps that are valid together with the survivors of the failed step; then they are put in place in one step, with exactly the affected results forgotten and no usage lost; on failure nothing has changed |
| `Executor.Execute` | plan/executor.go:26-141 | Continues the run lawfully, never runs more steps at a time than allowed, and gives control back exactly at its end; a gate pause is for a gate finished in this call and completion overlooks none if the agents exist; a failure pause names the first failed step; completion means every step is done iff every agent exists; it gives up only with the replacement count one beyond the limit, or when the planner has no valid answer for the first failed step, or when the context is done, which ends it at once; the reported usage is what the surviving results gained; each pass after the first follows exactly one plan replacement, and there are at most max(0, limit - replans so far) + 1 passes |
| `Executor.CompletedIffKnown` | plan/executor.go:89-98 | A pass without a recorded failure leaves every step done iff every step's agent exists |
| `PlanSessions.GatesReturnControl` | rest/plan_handler.go:291-316 | In a session, between a gate finishing and the start of anything that depends on it, a call of Execute has come back with a pause |
| `PlanSessions.PlanSession.UpdatePlan` | rest/plan_handler.go:191-229 | An edited plan is accepted iff it is valid, has at most 20 steps and nothing is running |
| `PlanSessions.PlanSession.ExecutePlan` | rest/plan_handler.go:237-344 | Refused iff running or without a plan; otherwise the run begins with the plan and is a sequence of calls of Execute, each ending in a recorded stop, with exactly one command obeyed between two of them and every other command read passed over as unacceptable there; all stops but the last of a session that ended by itself are pauses; abandoned only when the commands ran out or one was a cancellation; a completed session has every step done if there are agents |
| `PlanSessions.PlanSession.Await` | rest/plan_handler.go:318-342 | The session resumes with the first command that is accepted, having obeyed it and changed nothing else, and passes over refused ones |
| `PlanSessions.PlanSession.ApplyRetry` | rest/plan_handler.go:416-457 | Accepted iff the step failed or is a finished gate; a failed step goes back to pending, a gate stays done, and a refused retry changes nothing |
| `PlanSessions.PlanSession.ApplyReplan` | plan/plan.go:252-327 | Gives up iff no step has failed or the planner's answer is invalid; a replan puts the survivors of the first failed step and the answer in place, valid together, and keeps every done step with its result; it stops only at an answer that reuses the id of a survivor, and what the code goes on to do then is PlanRuns.CollisionLosesDoneStep |
| `Messages.PairedConcat` | runner.go:301-398 | After paired messages, pairing depends on what follows alone |
| `Messages.PairedIff` | runner.go:301-398 | A list is paired iff every assistant message with calls is followed by exactly one matching result a call and every tool message is one of those results |
| `Messages.SuffixPairedIff` | runner.go:227-253 | A suffix of paired messages is paired iff it does not begin with a tool result |
| `Messages.WithoutSystemPaired` | runner.go:936-944 | Leaving out the system messages keeps messages paired |
| `Tools.ExecuteTools` | runner.go:597-689 | For any tools and approver the results are the same under every completion order, in call order with matching ids; each says what its call came to; exactly the calls that may run are run, each once, and never one of an unknown tool or one the approver refused, unless it is a transfer |
| `Tools.ExecuteOne` | runner.go:695-787 | The tool is run iff it exists, and the result carries its output, error or recovered panic |
| `Tools.ResultTells` | runner.go:608-787 | The model is told that the tool is unknown, that the call was refused and why, or the output, error or panic of the tool; every call but a transfer of control is put to the approver |
| `Tools.EndsTurnIff` | runner.go:386-395 | Exactly the calls of registered, not built-in, tools with the end-of-turn flag end a turn |
| `AgentRuns.AgentRun.BuildRequest` | runner.go:213-253 | The request is the turn's prompts and the working messages, trimmed iff they exceed the window; the working messages lose as many messages as it did; from the end of a paired conversation the request is unpaired iff untrimmed and starting with a tool result, and the kept working messages are paired iff the cut lies between exchanges |
| `AgentRuns.AgentRun.AcceptResults` | runner.go:355-381 | The results join result, memory and working messages alike, in order and as they are, except that the guard may replace the content of one or abort the run at one; without a guard all of them join unchanged |
| `AgentRuns.AgentRun.Turn` | runner.go:121-398 | One request, and exactly what the turn adds: nothing if the model fails, else its answer, and behind it what the tools came to, or the note of an abnormal finish; the run goes on iff there were calls, no guard stopped it and no call ends the turn |
| `AgentRuns.AgentRun.Run` | runner.go:58-409 | The result is exactly what its turns add and the run ends as the last of them does, or between two turns by the turn limit (20 by default), the caller or the input guard; the final output is the last answer's; what is produced is persisted in order after the input, paired iff no guard aborted inside an exchange; every request is unpaired iff it is sent untrimmed while the working messages begin with a tool result, which never happens up to the first trimmed request nor without system messages in history and prefix |
| `AgentRuns.ExchangeAdded` | runner.go:306-381 | An answer with calls and the first n results is paired iff all results are there |
| `AgentRuns.InputOnce` | runner.go:142-165 | History that ends with the input just stored loses exactly that message, so that the input stands in the working messages once |
| `ContextWindow.TrimToContextWindow` | runner.go:931-987 | All system messages, then the conversation from the first user message on from which it fits the budget or only two messages are left; pairing is kept |
| `ContextWindow.TrimmedAtUnique` | runner.go:955-985 | There is exactly one place at which a conversation may be trimmed like that |
| `ContextWindow.CostCounts` | runner.go:901-919 | A message costs four tokens, its content, and name and arguments of each of its calls |
| `ContextWindow.SyncExactIff` | runner.go:240-242 | Dropping as many working messages keeps exactly what the request kept iff no system message is among the oldest ones dropped |
| `Requests.RequestPairedIff` | runner.go:219-253 | A request from the end of a paired conversation is paired iff it is trimmed or does not begin with a tool result |
| `Requests.RequestsPairedIff` | runner.go:121-398 | The same, exactly, for every request of every run |
| `Requests.PairedUntilTrimmed` | runner.go:216-253 | Up to and including the first trimmed request every request is paired and built from the whole conversation |
| `Requests.PairedWithoutSystem` | runner.go:233-242 | Without system messages among starting messages and products every request is paired |
| `Requests.SyncCanBreakPairing` | plan/executor.go:305-309 | A plan step's run, with tokenizer and window given, whose second request is trimmed to nothing and whose third is sent unpaired |
| `ContextWindow.SuffixCost` | runner.go:901-919 | Every message costs at least four tokens, so longer suffixes cost more |
| `Compaction.SafeCompressionBoundary` | memory.go:83-105 | Moves a cut directly behind an assistant message with calls to the end of the results that follow, and no other cut |
| `Compaction.SafeCutIff` | memory.go:76-105 | Both parts of a paired log are paired after the adjustment iff the cut was not asked for between two results of one exchange |
| `Compaction.CutBetweenResults` | memory.go:90-104 | A cut between two results of one exchange stays there and leaves an unpaired rest |
| `Compaction.SafeBoundaryIdempotent` | runner.go:477-485 | Adjusting a cut twice, as the runner and the store do, is adjusting it once |
| `Compaction.LookAheadIff` | memory/sqlite/memory.go:276-298 | A fetched prefix gives the same cut as the whole log iff the results behind the cut end within it |
| `Compaction.CompactKeepsRolledIff` | memory/file/memory.go:150-198 | After any compaction the summaries partition the log iff nothing was summarised or the messages summarised are the log's |
| `Compaction.CompactionStores` | memory/file/memory.go:150-199 | The summariser's reply is stored with the safe cut, made from the summary before it and the messages between the two cuts; in all other cases nothing changes, and the log never does |
| `Compaction.RollingPartition` | memory/file/memory.go:150-198 | Over any run of appends, aligned compactions, deletions and restarts the slices given to successful summaries are exactly the log below the through-index, each summary made from the one before; without deletions log and through-index only grow |
| `Compaction.IndicesExact` | memory/file/memory.go:88-99 | Without deletions the messages of a session are numbered 1, 2, 3, … over any run |
| `Compaction.IndicesIncrease` | memory/file/memory.go:88-99 | With deletions but no restart the indices still increase |
| `Compaction.AppendIncreasesIff` | memory/file/memory.go:88-99 | An append keeps the indices increasing iff the newest index is below the number handed out |
| `Compaction.DeleteThenRestartDisorders` | memory/file/memory.go:58-63 | Deletion, append, restart, append gives the later message the smaller index |
| `FileStore.FileMemory.constructor` | memory/file/memory.go:36-41 | A store over the files that are there, with no index counters yet |
| `FileStore.FileMemory.ReadAll` | memory/file/memory.go:280-312 | The stored messages in order, those without an index numbered by line |
| `FileStore.FileMemory.Append` | memory/file/memory.go:80-115 | The session's log grows by the message with the next index; other sessions are untouched |
| `FileStore.FileMemory.Recent` | memory/file/memory.go:119-141 | The page of at most n messages after skipping the newest offset, oldest first |
| `FileStore.FileMemory.Compact` | memory/file/memory.go:150-198 | Exactly the specified compaction; the summariser is asked iff there is one and something new below the safe cut |
| `FileStore.FileMemory.Compressed` | memory/file/memory.go:201-208 | Returns the stored summary of the session, if there is one |
| `FileStore.FileMemory.DeleteSession` | memory/file/memory.go:58-63 | Log and summary are gone, the index counter stays |
| `Paging.PagesCoverLog` | memory/file/memory.go:119-141 | The pages at offsets 0, n, 2n, … concatenate to the log |
| `WorkingSets.FindOverflow` | runner.go:464-475 | The messages kept are the longest suffix within the budget, or all when they fit or when not even the newest does |
| `WorkingSets.PrepareMemory` | runner.go:435-502 | Over the file store, the database store or a team agent's memory: the working set and the compacted session are the specified functions of what was counted and fetched, the overflow found and the summariser's reply; the summariser is asked iff something that is new overflows the budget |
| `WorkingSets.WithinBudgetIff` | runner.go:496-501 | The working set fits the budget iff everything fetched fits or the adjusted cut leaves something |
| `WorkingSets.FetchedWhole` | runner.go:445-462 | Sessions of at most 5000 messages are fetched whole, from the database if they do not begin with a tool result |
| `WorkingSets.NothingLostIff` | runner.go:476-501 | Of a session fetched whole the working set is a suffix, and what it leaves out is in the summary iff it was before or the summariser answered |
| `WorkingSets.WorkingPairedIff` | runner.go:476-501 | The working set of paired messages is paired iff the budget did not run out between two results of one exchange |
| `WorkingSets.CutIsLogs` | runner.go:462-484 | The cut found in the fetched end of a log is the log's own cut there |
| `WorkingSets.PrepareIsAligned` | runner.go:453-485 | For sessions fetched whole preparing the memory is one aligned compaction and keeps the partition |
| `WorkingSets.PreparePartitionIff` | rest/team_memory.go:77-86 | For any memory and length the summaries still partition the compacted log iff nothing was summarised, the cut lies beyond the number fetched, or everything was fetched and the cut lies within that log, which for a team agent is the shared partition alone |
| `WorkingSets.LongSessionSkips` | runner.go:462-485 | A session of 5002 messages, with tokenizer and budget given, in which messages 3 to 5 are summarised in place of messages 1 to 3 |
| `SqliteStore.ReverseInPlace` | memory/sqlite/memory.go:217-220 | The fetched rows end up in chronological order |
| `SqliteStore.SqliteMemory.constructor` | memory/sqlite/memory.go:40-54 | An empty store whose first row id is positive |
| `SqliteStore.SqliteMemory.Append` | memory/sqlite/memory.go:139-191 | One row with the next id is added; ids increase across all sessions |
| `SqliteStore.SqliteMemory.Count` | memory/sqlite/memory.go:128-137 | The number of the session's rows |
| `SqliteStore.SqliteMemory.SelectNewest` | memory/sqlite/memory.go:201-215 | The newest rows of the session up to the limit, newest first |
| `SqliteStore.SqliteMemory.Recent` | memory/sqlite/memory.go:193-240 | The page without what lies before the first message of the window that is not a tool result |
| `SqliteStore.WindowedExactIff` | memory/sqlite/memory.go:193-240 | For n > 0 the windowed query equals the simple one iff nothing is left after the offset or no message of the page was dropped as orphaned |
| `SqliteStore.WindowedExact` | memory/sqlite/memory.go:193-240 | It equals it at every offset if the log does not start with a tool result and has no more than n of them in a row |
| `SqliteStore.WindowedPagesCoverLog` | memory/sqlite/memory.go:193-240 | Then the windowed pages concatenate to the log |
| `SqliteStore.LongToolRunLosesPage` | memory/sqlite/memory.go:222-227 | After a call with 25 results the page of the two newest messages is empty |
| `SqliteStore.SqliteMemory.Compact` | memory/sqlite/memory.go:246-317 | The same compaction with a look-ahead of 20 messages; the summariser is asked iff there is one, the cut asked for lies beyond what is covered, and there is something new |
| `SqliteStore.LookAheadAligned` | memory/sqlite/memory.go:276-291 | The look-ahead keeps compactions aligned, so they partition the log too |
| `SqliteStore.SqliteMemory.DeleteSession` | memory/sqlite/memory.go:85-123 | The session's rows and summary are gone, other sessions are untouched, ids are not reused |
| `TeamHistory.KeysDistinct` | rest/team_memory.go:33-36 | Agents with different names have different partitions, none of them the shared one |
| `TeamHistory.TeamSession.Append` | rest/team_memory.go:40-52 | The team log grows by exactly the message, stored privately iff it is a tool result or carries calls; the shared partition stays free of tool traffic |
| `TeamHistory.OwnWorkFirst` | rest/team_memory.go:54-69 | Of at most n messages the agent's own page is kept whole and comes last, before it the newest of the narrative's page; nothing is left out iff both pages fit |
| `TeamHistory.TeamSession.Count` | rest/team_memory.go:77-81 | The sum of the two partitions' counts |
| `TeamHistory.TeamSession.ListMessages` | rest/team.go:130-183 | With distinct agents and exact partition queries the answer is the page [N-before-limit, N-before) of the single global log; in any case it is that page of what the partitions answer, in the order of the indices |
| `TeamHistory.TeamSession.AddAgent` | rest/team.go:340-351 | Accepted iff the name is new |
| `TeamHistory.TeamSession.RemoveAgent` | rest/team.go:369-392 | The agent is gone everywhere and the log is the old log of the remaining partitions |
| `TeamHistory.MergedTail` | rest/team.go:152-168 | The newest n messages of every partition, merged and sorted, end with the newest n of the global log |
| `TeamHistory.ShortRunsAreExact` | rest/team.go:152-164 | Partitions without long runs of tool results are queried exactly |
| `TeamHistory.NarrativeRunsShort` | rest/team_memory.go:40-52 | The shared partition always is |
| `TeamHistory.SortByIndex` | rest/team.go:168 | A permutation in index order |
| `TeamHistory.PartitionCountersDisorder` | memory/file/memory.go:88-99 | With the file store's numbering of each partition the merged history is out of order |
| `TeamOrders.ShownInOrderIff` | rest/team.go:166-168 | Sorting by index, which is not stable, always gives back the chronological log iff indices increase; indices may tie only between identical messages |
| `TeamOrders.PartitionCountersIff` | memory/file/memory.go:88-99 | With partitions numbered from one each, the merged history is always in order iff all its messages are in one partition |
| `Teams.DetectLoop` | team.go:657-694 | Silent below two handoffs; the ping-pong hint iff the last four handoffs alternate; the frequency hint with the true count of at least three; no hint only if neither applies |
| `Teams.FrequencyIffNotSimple` | team.go:676-691 | On a connected chain of at least two handoffs no agent is mentioned three times iff the visited agents form a simple path or a simple cycle |
| `Teams.PingPongIsFrequent` | team.go:664-674 | The ping-pong rule is subsumed by the frequency rule |
| `Teams.NoHintIffSimple` | team.go:657-694 | No hint iff the visited agents form a simple path or a simple cycle |
| `Teams.UndetectedFits` | team.go:657-694 | An undetected chain is no longer than the team is large |
| `Teams.IsReturnHandoff` | team.go:702-709 | True iff the target has handed off to the source before |
| `Teams.ReturnOnlySecond` | team.go:574-586 | On an undetected chain only the second handoff can be a return |
| `Teams.Team.WithAgent` | team.go:135-140 | Keeps the agents and their order consistent iff the name is new |
| `Teams.Team.AddAgent` | team.go:194-218 | Refuses an existing name; otherwise adds it last, and keeps a consistent team consistent |
| `Teams.Team.RemoveAgent` | team.go:229-256 | Removes the agent and its first place in the order, keeping a consistent team consistent |
| `Teams.DuplicateNameDangles` | team.go:135-140 | A name configured twice and removed once stays listed without an agent behind it |
| `TeamRuns.CapMessages` | team.go:455-475 | The newest 128 messages without leading tool results and exchanges, and nothing else is dropped; paired input stays paired |
| `TeamRuns.TeamRunner.TakeTurn` | team.go:408-475 | One more agent run; its messages are kept up to the cap unless it failed |
| `TeamRuns.TeamRunner.Act` | team.go:477-549 | Without a handoff the output is the answer; an unknown target ends the run; otherwise only the first handoff counts, and it is vetoed or joins the chain with the output before its message; only a veto or a loop forces the next answer |
| `TeamRuns.TeamRunner.Handoff` | team.go:528-592 | Vetoed, refused as a loop iff the visited agents form no simple path or cycle, or taken; the forced-final flag follows; only the second handoff of a chain (or an agent addressing itself first) is a return |
| `TeamRuns.TeamRunner.Turn` | team.go:399-592 | One agent run and exactly what follows it; every turn that does not end the run lengthens the chain or forces a final answer |
| `TeamRuns.TeamRunner.Run` | team.go:377-594 | At most max(0, min(maxHandoffs + 1, k + 2)) agent runs for k agents; the handoff limit is reported only with that many handoffs made, and every other end is that of the last agent run, whose output is the answer; the chain is always a connected path of team members that ends at the current agent; the prefix for the next agent is paired and capped |
| `EventBus.RunsAreSafe` | eventbus/bus.go:65-261 | In every state of every interleaving of the locked steps the invariant holds, and without a publish that straddles a topic removal no step panics |
| `EventBus.Delivery` | eventbus/bus.go:186-261 | Received and queued events are a subsequence of one unbroken stretch of the topic's events, and exactly that stretch iff nothing was dropped on a full queue |
| `EventBus.PublishReaches` | eventbus/bus.go:253-260 | A publish puts the event at the end of the queue of every listed subscriber with fewer than 64 events waiting, counts one drop for every other listed one, and leaves the rest alone |
| `EventBus.NothingMissedIff` | eventbus/bus.go:186-261 | In every interleaving a subscriber has received or will find queued all it is due iff the history to be replayed fitted its queue and fewer than 64 events waited at every publish |
| `EventBus.DueFromHistory` | eventbus/bus.go:186-225 | That stretch begins with the history at the time of subscribing, or with the next publish for a live subscription |
| `EventBus.DueStartFixed` | eventbus/bus.go:186-261 | Its beginning stays where it is while the topic's events only grow at the end, so there is no gap or duplicate at the handover |
| `EventBus.HistoryIsNewest` | eventbus/bus.go:243-251 | A topic's history is the newest maxHistory published events |
| `EventBus.PanicsIff` | eventbus/bus.go:96-134 | Closing a channel never panics; a publish does iff a subscriber still listed had its channel closed by the removal of the topic, which is then out of the map |
| `EventBus.AfterSweepEveryPublishPanics` | eventbus/bus.go:106-114 | Such a subscriber never leaves the list, so every later publish to the topic panics |
| `EventBus.StraddlePanics` | eventbus/bus.go:156-163 | A publish that looked up its topic before the removal can go on to panic |
| `EventBus.ReplayKeepsOldest` | eventbus/bus.go:212-221 | Replay is complete iff the history fits the queue of 64; otherwise the oldest 64 are kept and the newest dropped |
| `EventBus.Bus.constructor` | eventbus/bus.go:49-57 | An empty bus; a negative history limit counts as none |
| `EventBus.Bus.ResolveTopic` | eventbus/bus.go:156-173 | The session's registered topic, created if there was none |
| `EventBus.Bus.PublishStep` | eventbus/bus.go:239-261 | Panics iff a listed channel is closed; otherwise every listed subscriber with room has the event at the end of its queue, every full one counts a drop, and the topic remembers the event |
| `EventBus.Bus.SubscribeStep` | eventbus/bus.go:201-225 | Exactly the specified subscription, with or without replay |
| `EventBus.Bus.DetachStep` | eventbus/bus.go:227-237 | Exactly the removal of the subscription from its topic's list |
| `EventBus.Bus.UnregisterStep` | eventbus/bus.go:96-104 | Exactly the removal of the session's topic from the map, if there is one |
| `EventBus.Bus.SweepStep` | eventbus/bus.go:106-114 | Closes exactly the listed channels whose flag was not yet set |
| `EventBus.Bus.RemoveTopic` | eventbus/bus.go:96-115 | Unregisters the topic, closes its listed subscribers that are not closed already and leaves all others as they are; without a topic nothing happens |
| `EventBus.Bus.ReceiveStep` | eventbus/bus.go:36-42 | A reader gets the oldest queued event, also after the channel was closed, and nothing else changes |
| `EventBus.Bus.Unsubscribe` | eventbus/bus.go:119-134 | Closes and detaches an open subscription; on a closed one it does nothing |

## Left out

- HTTP, SSE, ACP, MCP, the command line, the front end, sandboxing, shell and file tools: plumbing around the modelled core.
- Model providers, embedders, summaries, guard and router policies: arbitrary values in the model.
- Search, recall, vectors, JSON encoding, locking of files and I/O errors: a session is a sequence of messages with indices.
- Replacing slashes in session ids by underscores, by which two sessions can share a file: keys are taken as they are.
- Tokenizer internals: one non-negative cost a string; reasoning text, multimodal parts and message names are dropped.
- Prompt texts, error wording, observers, hooks, timestamps, durations, back-off and the joining of final outputs.
- Custom prompt builders: the request is always the system prompts followed by the working messages.
- `Executor.Execute`: the plan result's list of outputs is not modelled, and the definition is the state's own (the source keeps two equal copies).
- `PlanSessions.PlanSession.ExecutePlan`: two executions started at the same moment, and commands sent while a resumed execution is running, are not modelled; commands are taken one at a time while paused. A planner error counts as an invalid answer.
- `PlanSessions.PlanSession.ApplyReplan`: a replacement that reuses surviving ids ends the modelled session, as the executor's guarantees are about sound plans; runs that go on with the invalid plan are modelled write by write in `PlanRuns`.
- `BatchRun.RunBatch`: step timeouts appear only as failures of the agent, and the results map is written one entry at a time.
- `WorkingSets.PrepareMemory`: nothing else appends to the session between the count, the query and the compaction.
- `TeamRuns.TeamRunner.Run`: the roster is fixed during a run, and a forced-final run records no handoff, as holds for in-process agents; external agents that ignore the flag are not bounded by this argument.
- `TeamHistory.TeamSession.ListMessages`: exactness is stated for agents with distinct names and exact partition queries; duplicate template names would list a partition twice.
- `EventBus.RunsAreSafe`: a panic ends the run; recovering from it is not modelled, and closing all channels of a removed topic is one step.
- `Tools.ExecuteTools`: a call that its tool approves itself counts as allowed by the approver.
- Token usage of single agent runs, model retries, streaming events, skills and sub-agents.
- Session metadata, agent options, cloning and the model registry: only easy members.
