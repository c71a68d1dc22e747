# DevSquad in Dafny

A Dafny 4.11 model of DevSquad, a service in which agents work on a task stage by stage and humans approve
plans and deliverables, with proofs about it. `dafny verify dfyconfig.toml` checks everything.

The database rows are the only checkpoint of a task. Every change is one transaction under the task's row
lock, while stage snapshots are read outside any transaction and runners commit much later from the copy
they claimed. From the task's event ledger a browser rebuilds its timeline over an unreliable path. The
model follows these parts:

| files | part |
|---|---|
| `Options`, `Domain`, `Ledger` | optional values; statuses, readiness, derivation, decisions; rows and SQL statements |
| `Pipeline`, `Validation`, `Layout` | the dependency graph: layered sort, validation, and the dashboard's columns by memoised search |
| `Transactions` | every transaction as a function of the rows; an error means rollback |
| `StageRules`, `StageViews`, `TaskRules`, `TaskSteps`, `TaskActions` | the invariant of a stage and of a task, and that every transaction keeps it |
| `Protocol`, `ProtocolSteps`, `ProtocolClaims` | the transition system: passes with stale snapshots, claims, runners, crashes, decisions, actions |
| `Safety`, `Retry`, `Budget` | what holds in every reachable state and along every run |
| `Store`, `Services` | the services as classes that change rows statement by statement, proved equal to the transactions |
| `Runner` | one agent run: budget check, model call, usage record, tools, iteration limit |
| `Delivery`, `Paging`, `EventStore`, `ClientSync`, `ClientFate`, `Connection`, `EndToEnd` | from commit over bus, hub and REST pages to the browser's sorted timeline |
| `Globs`, `Workspace` | write-path conflicts, and the git workspace as maps from path to content |
| `LimitedOutput` | the head/tail buffer over incrementally decoded UTF-8 |

How the model reads. A run is any sequence of steps; a step that is not enabled, or whose transaction rolls
back, changes nothing, so every interleaving, crash and late runner is a run. A row's identifier is its
position in its table. Claims are kept forever and may report, commit or fail at any time, which includes
every runner that outlives a cancel, a crash or a restart. `settled`, `current`, `ros` and `lagging` in a
world, `since` and `sent` of a subscription, and `pipe`, `lossy`, `refused` and `skipped` of a client only
record history for the statements.

Where a promise holds only under a condition, or the code and its comments disagree:

- The browser's timeline can end short of the ledger although nothing fails visibly. Four runs show how, and for
  each the exact condition is proved:
  - gap detection is off while lastSeq is 0, so the first live event of an empty bucket may skip numbers
    (`ClientFate.FirstEventMayHideAGap`; `FirstEventIsCoveredIff`, `FirstEventNeedsALoad`);
  - it is off while the page is away, and coming back with the query cached loads nothing
    (`ClientFate.ReturnMayHideAGap`; `ReturnIsSafeIff`, which counts what a server drops that has yet to handle the
    unsubscribe);
  - a socket that reopens while the query's first load is under way starts no new load
    (`ClientFate.ReopenMayHideAGap`; `ReopenIsSafeIff`);
  - a subscribe whose task cannot be read is refused on a socket that stays open, and nothing subscribes again
    (`EndToEnd.RefusalMayHideEverything`; `EndToEnd.EventsReachTheBrowserIff`, `RefusedIsSilent`).
- For every run `ClientSync.QuietIsCompleteIff` and `TimelineIsLedgerIff`, and with the server
  `EndToEnd.EventsReachTheBrowserIff`, say exactly when the timeline is complete. That a served subscribe suffices
  (`ClientSync.TimelineIsLedger`, `EndToEnd.EventsReachTheBrowser`) is proved for one mount in which every commit is
  published, failed loads are started again, and neither a failed gap fetch nor a socket that reopens on a bucket
  with events finds the first load under way.
- An unknown dependency or a cycle does not go to the last column of the dashboard as the comment in
  `web/lib/domain/pipeline.ts` says: unknown ones are ignored (`Layout.UnknownIsIgnored` is an
  example), and a cycle is cut where the search meets it, so that its stages are spread over several columns
  (`Layout.CycleIsCut`). `Layout.LayoutStages` holds of all inputs with unique keys: every stage that waits for no
  cycle is in the column of its level, whatever cycles there are besides.
- `Levels` reports repeated ids and, when a stage waits for it, an unknown dependency as a cycle; the validation
  before it rejects both, so that afterwards the report means a cycle.

## Model

| member | source | states |
|---|---|---|
| Domain.IsReady | internal/domain/state.go:46-60 | the loops answer yes exactly when every dependency key names an approved stage |
| Domain.DeriveStatus | internal/domain/state.go:61-85 | the accumulating loop computes the status that the precedence review, all approved, runnable, blocked prescribes |
| Pipeline.Levels | internal/pipeline/pipeline.go:86-115 | for unique ids an answer lists the dependency layers in order, each sorted, non-empty and exactly its layer, together all stages; there is an answer exactly when some number of rounds finishes every stage, and with known dependencies exactly when the graph has no cycle; repeated ids get no answer |
| Pipeline.NextLevel | internal/pipeline/pipeline.go:90-104 | one round finds only stages not yet done, and for unique ids exactly the stages not done whose dependencies all are |
| Pipeline.StuckLevelHasCycle | internal/pipeline/pipeline.go:105-107 | a round that adds nothing while a stage is unfinished proves an actual cycle, by pigeonhole on a chain longer than the pipeline |
| Pipeline.LayeredHasNoCycle | internal/pipeline/pipeline.go:86-115 | a graph that the rounds finish has no cycle |
| Pipeline.LevelIsLongestChain | internal/pipeline/pipeline.go:86-115 | a stage of level k heads a dependency chain of k + 1 stages and none longer |
| Pipeline.LayersAreDisjoint | internal/pipeline/pipeline.go:110-112 | no stage is in two levels |
| Validation.ParsePipeline | internal/pipeline/pipeline.go:42-84 | accepted exactly when version, limits, budget and PR mode are in range, every stage is well formed, every dependency is another declared stage named once, and the graph is acyclic; an accepted pipeline meets everything the protocol theorems assume, with defaults filled in |
| Validation.CheckStages | internal/pipeline/pipeline.go:54-73 | the first loop accepts exactly unique, well-formed names and approval kinds without repeats, and leaves `seen` equal to the declared ids |
| Validation.CheckDependencies | internal/pipeline/pipeline.go:74-82 | the inner loop accepts exactly dependencies that are declared, not the stage itself, and not repeated |
| Layout.LayoutStages | web/lib/domain/pipeline.ts:9-34 | terminates on every input; every stage lands in exactly one column, no column is empty; for unique ids and any dependencies, every stage that waits for no cycle is in the column of its level in the pipeline without unknown dependencies and in no other, and the columns are exactly those levels if and only if no stage waits for a cycle; on a valid pipeline these are the levels of `Levels` |
| Layout.Search.Depth | web/lib/domain/pipeline.ts:14-25 | the memoised search with its `visiting` set equals the functional search on every input, cyclic ones included, and restores `visiting` |
| Layout.SearchIsRight | web/lib/domain/pipeline.ts:14-25 | whatever cycles there are, a search from any stage keeps the memo right about every stage that waits for none, and returns the level of such a stage |
| Layout.SomeDependencyIsNext | web/lib/domain/pipeline.ts:21-21 | a stage above level 0 depends on a stage exactly one level below: its level is one more than the largest among its dependencies |
| Layout.FoundedIff | web/lib/domain/pipeline.ts:18-21 | some round of the topological sort takes a stage exactly when its dependency chains are bounded, that is, when it waits for no cycle |
| Layout.ColumnsAreLevels | web/lib/domain/pipeline.ts:27-33 | in a layered pipeline, columns with every stage in its place are exactly the layers of the topological sort |
| Layout.PutAddsOne | web/lib/domain/pipeline.ts:31-31 | pushing a stage on a column, holes included, adds exactly that stage |
| Layout.UnknownIsIgnored | web/lib/domain/pipeline.ts:7-7 | against the comment: a stage with an unknown dependency goes to the first column |
| Layout.CycleIsCut | web/lib/domain/pipeline.ts:7-7 | against the comment: two stages that wait for each other go to two columns, the one the search began with last |
| StoreModel.Store.Begin | internal/store/store.go:41-51 | the transaction starts from the current rows with no hook registered |
| StoreModel.Store.Close | internal/store/store.go:46-61 | an error puts every row back and publishes nothing; success keeps the rows and publishes exactly the hooks' events in order |
| StoreModel.Store.ChangeStatus | internal/store/store.go:141-152 | fails without effect unless the version read under the lock is still the row's; otherwise sets the status and bumps the version of row and copy |
| StoreModel.Store.EmitEvent | internal/event/emitter.go:26-67 | the event gets the next sequence number, a usage event also a usage row, and exactly one hook is registered |
| StoreModel.Store.ClaimRow | internal/store/sqlc/queries.sql.go:14-35 | the claim matches on attempt and status only and counts attempt and version up, or matches no row |
| StoreModel.Store.UpdateRow | internal/store/sqlc/queries.sql.go:498-536 | the update matches on attempt, status and version, else the caller is stale and nothing changes |
| StoreModel.Store.InsertApproval | internal/store/migrations/00002_orchestrator.sql:18-19 | the insert is refused exactly when a pending approval of the stage, or one of the same kind and number, exists |
| StoreModel.Store.DecideRow | internal/store/sqlc/queries.sql.go:226-252 | the decided row carries the verdict and the texts of the decision, and the next version |
| StoreModel.Store.TokensUsed | internal/store/sqlc/queries.sql.go:486-496 | the sum of all usage rows |
| StoreModel.Store.LatestDeliverable | internal/store/sqlc/queries.sql.go:287-296 | the newest deliverable of the stage, if any |
| Services.Orchestrator.Start | internal/orchestrator/orchestrator.go:219-237 | refines the start transaction: rows, published events, and full rollback on error |
| Services.Orchestrator.Claim | internal/orchestrator/orchestrator.go:238-275 | refines the claim transaction made from a stage copy read earlier, and returns the copy with attempt and version counted up from the copy |
| Services.Orchestrator.Progress | internal/orchestrator/orchestrator.go:276-298 | refines the progress transaction: one event for the current attempt, or stale |
| Services.Orchestrator.Commit | internal/orchestrator/orchestrator.go:299-354 | refines the commit transaction: stage row, deliverable, approval request or completion, derived status, events published after commit only |
| Services.Orchestrator.Block | internal/orchestrator/publish.go:144-160 | refines the block transaction |
| Services.Orchestrator.Fail | internal/orchestrator/orchestrator.go:385-418 | refines the fail transaction, for the task or for one attempt |
| Services.Orchestrator.DeriveTask | internal/orchestrator/orchestrator.go:355-384 | refines the derive transaction, and publishes exactly what it appends to the log |
| Services.Orchestrator.AdvanceStage | internal/orchestrator/orchestrator.go:125-180 | one iteration of the stage loop refines the protocol step: skip, claim and register the runner with the inputs seen, or end the pass on a plain query error; exactly the events appended are published |
| Services.ApprovalService.UpdateApproval | internal/app/approval.go:51-145 | refines the decide transaction, with every refusal in the code's order |
| Services.TaskService.UpdateTask | internal/app/task.go:201-267 | refines pause, resume and cancel, including the budget refusal and the reopening of blocked stages |
| Services.TaskService.Unblock | internal/app/task.go:222-240 | the loop returns every blocked stage, and no other, to the phase it was blocked in |
| Services.TaskService.SetBudget | internal/app/task.go:270-289 | refines the budget change |
| Services.TaskService.CheckLocked | internal/app/budget.go:29-49 | refines the locked re-check: exhausted or not, and the task paused once |
| StageRules.ClaimKeepsStage | internal/orchestrator/orchestrator.go:238-275 | a claim keeps the stage invariant (numbering, gates, retry counters, feedback, ledger counts) |
| StageRules.CommitKeepsStage | internal/orchestrator/orchestrator.go:299-354 | a commit keeps the stage invariant, gated or not, plan or deliverable |
| StageRules.BlockKeepsStage | internal/orchestrator/publish.go:144-160 | parking a failed publication keeps the stage invariant |
| StageRules.DecideKeepsStage | internal/domain/state.go:104-137 | a decision keeps the stage invariant: a rejection counts up and blocks at the limit, an approval or edit grants |
| StageRules.ReopenKeepsStage | internal/app/task.go:227-239 | reopening a blocked stage keeps the stage invariant with one more reopening counted for its kind |
| TaskSteps.StartKeeps | internal/orchestrator/orchestrator.go:219-237 | start keeps the task invariant, and rows only grow |
| TaskSteps.ClaimKeeps | internal/orchestrator/orchestrator.go:238-275 | a claim keeps the task invariant, and rows only grow |
| TaskSteps.ProgressKeeps | internal/orchestrator/orchestrator.go:276-298 | a progress event keeps the task invariant, and rows only grow |
| TaskSteps.CommitKeeps | internal/orchestrator/orchestrator.go:299-354 | a commit keeps the task invariant, ends any lag of the status, and rows only grow |
| TaskSteps.BlockKeeps | internal/orchestrator/publish.go:144-160 | a block keeps the task invariant, and rows only grow |
| TaskSteps.FailKeeps | internal/orchestrator/orchestrator.go:385-418 | a failure keeps the task invariant and closes the log |
| TaskSteps.DeriveKeeps | internal/orchestrator/orchestrator.go:355-384 | deriving keeps the task invariant and makes the status agree with the stages |
| TaskActions.DecideKeeps | internal/app/approval.go:61-143 | a decision keeps the task invariant, and rows only grow |
| TaskActions.ControlKeeps | internal/app/task.go:204-262 | pause, resume and cancel keep the task invariant |
| TaskActions.SetBudgetKeeps | internal/app/task.go:274-284 | a budget change keeps the task invariant |
| TaskActions.BudgetKeeps | internal/app/budget.go:29-45 | the budget check keeps the task invariant |
| TaskRules.NeverStuck | internal/domain/state.go:61-85 | in a valid pipeline whose stages started only after their dependencies, some stage is in review, runnable or blocked, or all are approved |
| ProtocolClaims.StepKeeps | internal/orchestrator/orchestrator.go:82-180 | every protocol step, however stale its snapshot or late its runner, keeps the invariant of rows, snapshots, claims and runners |
| ProtocolClaims.AlwaysInv | internal/orchestrator/orchestrator.go:82-218 | the invariant holds after every run from a new task |
| ProtocolClaims.InvAlongRun | internal/orchestrator/orchestrator.go:82-218 | it keeps holding along any further run, during which rows only grow |
| Safety.ApprovalsAreNumbered | internal/orchestrator/orchestrator.go:338-346 | approvals of a kind are numbered 0, 1, 2, … without gap, all but the last rejected, and the counter is the number rejected |
| Safety.ReviewIffPending | internal/domain/state.go:108-110 | a stage is in review of a kind exactly when it has a pending approval of that kind with the counter's number; never two pending |
| Safety.PendingMeansReview | internal/domain/state.go:104-110 | a pending approval belongs to a stage in review of its kind, is its newest, and carries the current number |
| Safety.IndexesAreFree | internal/store/migrations/00002_orchestrator.sql:18-19 | before a working stage asks for its next approval, neither unique index stands in the way |
| Safety.CommitSucceedsIff | internal/orchestrator/orchestrator.go:299-354 | a commit succeeds exactly when the task is live and the stage row is still the copy the runner claimed; otherwise it is stale, never a unique violation |
| Safety.PendingIsDecidable | internal/app/approval.go:57-95 | an approval read while pending can, as long as it is pending and the task live, be decided after any further run with every valid decision |
| Safety.ExecutionsUseApprovedPlans | internal/orchestrator/orchestrator.go:125-178 | with the plan gate on, every execution was given a text that a human approved, or edited |
| Safety.ApprovedMeansGranted | internal/orchestrator/orchestrator.go:308-327 | with the deliverable gate on, an approved stage's last deliverable approval is approved or edited, and an edit is the stage's summary |
| Safety.PlansAndApprovalsAreFinal | internal/orchestrator/orchestrator.go:308-327 | a stage past its plan never plans again and keeps the plan; an approved row never changes |
| Safety.InputsAreFinal | internal/orchestrator/orchestrator.go:166-170 | the results a runner was given are the results its dependencies have after any further run |
| Safety.SettlingIsFenced | internal/store/sqlc/queries.sql.go:498-500 | a commit or block that succeeds overwrites exactly the row its own claim produced from a current snapshot, and is the claim's first result |
| Safety.OneResultPerAttempt | internal/store/sqlc/queries.sql.go:14-16 | each attempt number of a stage yields at most one result |
| Safety.LiveRunnerCanCommit | internal/orchestrator/orchestrator.go:181-218 | on a live task, the registered runner of a stage claimed from a current snapshot can always commit |
| Safety.TerminalIsFinal | internal/orchestrator/orchestrator.go:305-307 | nothing changes the rows of a terminal task: late results add no deliverable, approval or event |
| Safety.LedgerShape | internal/event/emitter.go:26-67 | events are numbered 1 to event_seq without gap; usage rows repeat usage events; one stage.started and stage.completed per stage; exactly one closing event, last, exactly when terminal; each approval, decision and deliverable announced once |
| Safety.StatusAgrees | internal/orchestrator/orchestrator.go:364-384 | completed, waiting_approval and blocked agree with the stages after every transaction; running may lag only after a resume from a pause |
| Safety.SomethingCanHappen | internal/domain/state.go:72-84 | the final fall-through of the derivation is unreachable |
| Safety.DependenciesFirst | internal/orchestrator/orchestrator.go:247-255 | no stage leaves pending before everything it depends on, along any chain, is approved |
| Retry.RetryBound | internal/domain/state.go:112-124 | after n reopenings for a kind the counter is at most maxRetries - 1 + n while open (equal once n > 0) and exactly maxRetries + n while blocked for it |
| Retry.StepPays | internal/domain/state.go:104-137 | outside a resume every step that commits, blocks or decides lowers the measure at least as much as it adds work; no other step raises it |
| Retry.WorkIsBounded | internal/orchestrator/orchestrator.go:299-354 | between resumes any run makes at most as many commits, blocks and decisions as the measure at its start |
| Retry.NewTaskWork | internal/orchestrator/orchestrator.go:299-354 | a new task sees at most 4 * maxRetries + 4 of them for each stage before its first resume |
| Budget.OvershootBound | internal/app/budget.go:18-50 | while the budget is not lowered, k concurrent runners with calls of at most C tokens never bring recorded usage above budget - 1 + k * C, through unlocked reads, re-check, call and late report |
| Budget.ExhaustedPauses | internal/app/budget.go:29-45 | the locked check of an exhausted task pauses it if it was going, and touches nothing else |
| Budget.ExhaustedStaysStopped | internal/app/task.go:213-221 | an exhausted paused task stays paused or ends failed or cancelled, and refuses every resume, until the budget changes |
| Budget.StepUntouched | internal/event/emitter.go:52-60 | only a usage report records usage, and only a budget change changes the budget |
| Runner.Run | internal/stage/runner.go:50-157 | whatever check, model and tools answer: at most `limit` calls (one for a plan), no tool for a plan, every turn's cost recorded, ends at the first turn without tools, marked as limited exactly when there was none, the files written are those of all successful writes in order, the deliverable is the last file written with its header, put there only if it was missing, and the file is then the same text |
| Runner.OneTurn | internal/stage/runner.go:81-141 | an iteration breaks off, goes on after tools ran, or ends the loop because the model only talked or the limit was reached |
| Runner.Ask | internal/stage/runner.go:82-95 | check, announcement, call, usage record, in that order; the model is called at most once |
| Runner.RunTools | internal/stage/runner.go:104-133 | without an error the calls leave exactly their announcements and answers, in order and each with its own outcome, and the paths of the successful writes |
| Runner.Submit | internal/stage/runner.go:142-156 | the deliverable is the last file written, exactly as read if it starts with the header line and else with the header before it, in which case the file is overwritten with the same text; fails exactly when the file cannot be read or the overwrite fails |
| Runner.CallsAreBudgeted | internal/stage/runner.go:81-95 | in every trace the run can leave, a model call directly follows a passed check and its announcement, and its usage record comes next |
| EventStore.TaskEvents.InsertSorted | web/lib/stores/eventStore.ts:34-45 | binary search and splice equal insertion into the sorted timeline; false exactly when the number was present |
| EventStore.TaskEvents.ApplyDerivedTo | web/lib/stores/eventStore.ts:47-66 | one event updates the three maps as specified |
| EventStore.TaskEvents.RebuildDerived | web/lib/stores/eventStore.ts:68-73 | the maps become the fold over the whole timeline |
| EventStore.TaskEvents.Merge | web/lib/stores/eventStore.ts:90-99 | the loop merges all incoming events; the maps are already right unless a late event was noted |
| EventStore.Store.AppendMany | web/lib/stores/eventStore.ts:80-102 | the bucket is the merged timeline with lastSeq and maps rebuilt from it; a new object replaces it, no earlier snapshot is written, and nothing changes if nothing is new |
| EventStore.Store.Replace | web/lib/stores/eventStore.ts:104-111 | the bucket is that of the given events alone |
| EventStore.DeliveryOrderIsIrrelevant | web/lib/stores/eventStore.ts:80-102 | any order, batching and duplication of the same events gives the same timeline, lastSeq and derived maps |
| EventStore.AppendedIsUnion | web/lib/stores/eventStore.ts:92-93 | the merged timeline is sorted and holds exactly the old and the new events |
| EventStore.ResultsArePaired | web/lib/stores/eventStore.ts:52-65 | every call has its pair; a result belongs to call c exactly when c is the latest earlier call of its key and no result of that key lies between; pending are exactly the open calls |
| EventStore.ThinkingIsLatest | web/lib/stores/eventStore.ts:48-51 | the thinking map holds each agent's latest summary |
| Paging.FetchEvents | internal/app/task.go:290-305 | refuses a negative cursor, then an unknown task; otherwise the clamped page, with a cursor exactly when it is full |
| Paging.QueryOfGapless | internal/store/sqlc/queries.sql.go:328-336 | on a gapless ledger the query returns the next events without omission |
| Paging.PageIsSlice | internal/app/task.go:299-304 | a page is the next slice of the ledger, its cursor where it ends; without cursor it reached the end |
| Paging.SyncTaskEvents | web/lib/queries/eventSync.ts:5-17 | merges the pages in order until a page without cursor or the bound, throws on a cursor that does not advance or a failed fetch, whatever the pages are |
| Paging.SyncIsComplete | web/lib/queries/eventSync.ts:5-17 | against the server, however the ledger grows between pages: no throw unless a fetch fails, and everything after the cursor up to the bound or the end last read was merged |
| Delivery.Bus.Publish | internal/event/bus.go:39-52 | each matching subscriber gets the event at the end of its queue, or is cut off exactly when the queue is full; others are untouched |
| Delivery.Bus.Subscribe | internal/event/bus.go:26-32 | a new subscriber with an empty queue of the bus capacity, at least 1 |
| Delivery.Bus.Remove | internal/event/bus.go:33-38 | removes and closes a subscriber once |
| Delivery.Replay | internal/ws/hub.go:136-165 | terminates; without a failed read it sends exactly the events from + 1 to the number read with the task, once and in order, then the acknowledgement with their count; a failed read ends it after a prefix |
| Delivery.NothingIsLost | internal/ws/hub.go:98-165 | on an open connection every acknowledged event of a subscribed task above its start has been sent since, or is in the queue, in a hook, or in the rest of the replay |
| Delivery.QuietMeansSent | internal/ws/hub.go:98-165 | when nothing is under way, every such event was sent, and only ledger events were |
| Delivery.ReplayAdvances | internal/ws/hub.go:144-163 | every replay batch sends something and shortens the rest, since the ledger has no gap |
| Delivery.AlwaysInv | internal/ws/hub.go:98-173 | the delivery invariant holds after every interleaving of connections, commits, hooks in any order, overflow, subscribe, unsubscribe, replay and live steps |
| ClientSync.MissingIsComing | web/lib/ws/connection.ts:147-154 | in every run, on a mounted, served page without an unpublished commit since the subscribe, each number the timeline lacks is in the remaining range of a fetch, on its way on the socket, or given up at or below the number last subscribed from |
| ClientSync.TimelineIsLedger | web/lib/queries/eventSync.ts:5-17 | in one mount that gives up no number, once the served page has no fetch left and nothing is on its way, the timeline is the ledger |
| ClientSync.TimelineIsLedgerIff | web/lib/queries/eventSync.ts:5-17 | in every run, on a mounted page without an unpublished commit since the subscribe, once all fetches have ended and nothing is on its way, the timeline is the ledger exactly when all numbers given up have come and the subscribe was served or nothing is newer than lastSeq |
| ClientSync.MissingIsExplained | web/lib/ws/connection.ts:147-154 | in every run each number missing below lastSeq is in the remaining range of a fetch, or since the last load was issued an arrival jumped over it unseen or the fetch for it failed |
| ClientSync.QuietIsCompleteIff | web/lib/queries/eventSync.ts:5-17 | in every run, once all fetches have ended, the timeline is the ledger up to lastSeq exactly when all numbers given up that way have come |
| ClientSync.StepKeeps | web/lib/ws/useTaskSocket.ts:29-50 | every step keeps the invariant without any guard: late and out-of-order arrivals, leaving and entering the page, dropped events, refused subscribes, fresh and joined loads, pages, retries and failures |
| ClientSync.MergeSlice | web/lib/stores/eventStore.ts:80-102 | merging a slice of the ledger adds exactly its numbers and moves lastSeq to the larger end |
| ClientFate.FateOfMissing | web/lib/queries/eventSync.ts:5-17 | along any run without a new load or a failure, when all fetches have ended, a missing number is there or still on its way exactly when it was in a page still to come, or on its way and neither dropped, refused nor cut off |
| ClientFate.FirstEventIsCoveredIff | web/lib/stores/eventStore.ts:130-133 | when all fetches have ended, what the first event of an empty bucket skipped is there or on its way exactly when for each of its numbers some load was unanswered, continuing, or answered late enough to hold it, or it was on its way and not lost |
| ClientFate.FirstEventNeedsALoad | web/lib/stores/eventStore.ts:130-133 | if none of it was on its way: exactly when some load was unanswered, continuing, or answered when the ledger had reached the number before the first event |
| ClientFate.LaterEventIsCovered | web/lib/ws/connection.ts:150-153 | after the first event, on the mounted page, whatever an arrival skips is covered by the gap fetch |
| ClientFate.FirstEventMayHideAGap | web/lib/stores/eventStore.ts:130-133 | a concrete run: the load answers before two commits, only the second is published and arrives first; no gap is detected and event 1 never comes although all fetches succeeded |
| ClientFate.ReturnIsSafeIff | web/lib/queries/tasks.ts:62-69 | after coming back without a load, when all fetches have ended and nothing is on its way, the timeline is the ledger up to lastSeq exactly when every number skipped since the last load was there, in a page still to come, or on its way and not lost, drops after the return included |
| ClientFate.ReturnMayHideAGap | web/lib/ws/connection.ts:81-84 | a concrete run with every commit published and the socket open throughout: an event arrives after leaving without gap detection, the server drops the one before it, and the return subscribes from the later number and loads nothing |
| ClientFate.ReopenIsSafeIff | web/lib/ws/useTaskSocket.ts:37-44 | after the socket reopens while the first load of a page with events is under way, the timeline ends as the ledger up to lastSeq exactly when every number skipped since that load was there, in a page still to come, or in a hook that ran late and was not lost |
| ClientFate.ReopenMayHideAGap | web/lib/ws/useTaskSocket.ts:37-44 | a concrete run in one mount with every commit published: the first load is answered early and delayed, event 2 arrives first, the socket reopens and joins that load, and event 1 never comes |
| ClientFate.StayIsSafeIff | web/lib/ws/connection.ts:147-154 | the common core: along any stay on a page with events without a new load or a failure, the timeline ends complete up to lastSeq exactly when each skipped number was there, in a page still to come, or on its way and not lost |
| Connection.WsConnection.OnOpen | web/lib/ws/connection.ts:102-111 | every subscription is requested exactly once, from its last number if there is one |
| Connection.WsConnection.Handle | web/lib/ws/connection.ts:147-155 | the gap is looked for before delivery, for subscribed tasks only, with the number known then; the event is always delivered |
| Connection.WsConnection.Subscribe | web/lib/ws/connection.ts:76-79 | remembers the task, and asks the server if the socket is open |
| Connection.WsConnection.Unsubscribe | web/lib/ws/connection.ts:81-84 | forgets the task, and tells the server if the socket is open |
| EndToEnd.ProtocolLedgerIsGapless | internal/event/emitter.go:31-49 | in every reachable state the ledger a replay or page reads has no gap and ends at event_seq |
| EndToEnd.SocketOwesTheRest | internal/ws/hub.go:98-165 | in every joint run, on a mounted page whose commands are handled and whose task the server has subscribed, everything the browser lacks above the number it subscribed from is on the wire, in the queue, in a hook or in the replay |
| EndToEnd.StepKeeps | web/lib/ws/useTaskSocket.ts:20-51 | every step of server, wire, command channel and browser, refused subscribes included, keeps them related: same ledger, whatever is under way is expected, whatever is expected is under way, and with no command left the page is subscribed exactly if it was not refused |
| EndToEnd.EverySendMayArrive | internal/ws/hub.go:98-165 | in every joint run the next event on the wire is in the ledger and an arrival that the browser's model allows |
| EndToEnd.RunProjects | web/lib/ws/connection.ts:134-155 | every joint run is a run of the browser's model, so that all theorems about it apply |
| EndToEnd.EventsReachTheBrowser | internal/ws/hub.go:98-165 | from commit to timeline: in one mount that gives up no number, when the subscribe was served, all fetches have ended and nothing is on its way, the browser's timeline is the server's ledger |
| EndToEnd.EventsReachTheBrowserIff | internal/ws/hub.go:98-165 | in every joint run, on a mounted page over an open connection without an unpublished commit since the subscribe, once all fetches have ended and nothing is on its way, the browser's timeline is the server's ledger exactly when all numbers given up have come and the server has the task subscribed or nothing is newer than lastSeq |
| EndToEnd.RefusedIsSilent | internal/ws/hub.go:135-140 | after a refused subscribe the server sends nothing of the task until the page or the connection changes |
| EndToEnd.RefusalMayHideEverything | internal/ws/hub.go:136-140 | a concrete run: the task cannot be read when the subscribe arrives; an acknowledged, published event never reaches the page, which stays mounted on an open connection with no fetch failed |
| EndToEnd.SendsAreSent | internal/ws/hub.go:102-107 | what the joint machine puts on the wire is exactly what the server's subscription records as sent |
| Globs.CheckWriteConflicts | internal/agentdef/conflicts.go:14-34 | accepts exactly when every pattern is valid and no two stages' patterns clash |
| Globs.LiteralRoot | internal/agentdef/conflicts.go:35-45 | the segments before the first one with a special character, joined |
| Globs.ClashIffPrefix | internal/agentdef/conflicts.go:25-26 | the string comparisons clash exactly when a root is empty or one root's segment list is a prefix of the other's |
| Globs.PrefixIsSegmentPrefix | internal/agentdef/conflicts.go:26-26 | a string prefix ending at a separator is a proper prefix of the segment list, and conversely |
| Globs.MatchStartsWithRoot | internal/pathguard/path.go:60-60 | every name that a pattern matches segment by segment starts with the pattern's literal root |
| Globs.SegmentMatchersAreSound | internal/pathguard/path.go:60-60 | every matcher that admits no more than segment-wise matching does has the property the ownership results rest on |
| Globs.NoCommonName | internal/agentdef/conflicts.go:12-13 | patterns that do not clash match no common name, for every matcher whose matches start with the literal root |
| Globs.OwnersAreDisjoint | internal/workspace/git.go:83-93 | after an accepted check no path is owned by two stages, for every such matcher |
| Globs.IsOwned | internal/workspace/git.go:83-93 | owned exactly when not protected and matched by some pattern |
| Workspace.Manager.Files | internal/workspace/git.go:94-133 | exactly the owned names of HEAD and of the work tree, and which of them HEAD tracks |
| Workspace.Manager.Reset | internal/workspace/git.go:134-161 | owned names go back to HEAD in index and work tree, owned untracked files disappear, nothing else changes |
| Workspace.Manager.Accept | internal/workspace/git.go:162-183 | once per key: the owned names are staged as in the work tree, the index is committed and the ref set |
| Workspace.Manager.BranchCommit | internal/workspace/git.go:189-248 | the base tree with the changed, owned names taken from the source; no branch exactly when there are none |
| Workspace.CheckedIsSeparate | internal/agentdef/conflicts.go:14-34 | the stages of an accepted definition are separate writers |
| Workspace.AlwaysOk | internal/workspace/git.go:134-183 | in every run of writes, resets and acceptances the index is HEAD, HEAD has each accepted owner's content, and the base elsewhere |
| Workspace.ResetRestoresBase | internal/workspace/git.go:134-161 | resetting a stage not accepted gives its paths the base commit's content however many attempts crashed, and changes no other stage's path |
| Workspace.BranchIsOverlay | internal/workspace/git.go:185-224 | a branch equals its source inside the patterns and the base outside |
| Workspace.SingleBranchIsHead | internal/orchestrator/publish.go:65-70 | without patterns the branch is HEAD's tree |
| Workspace.RolesComposeToSingle | internal/orchestrator/publish.go:64-77 | the accepted stages' role branches, laid over the base in any order, give exactly the single branch |
| LimitedOutput.Buffer.Write | internal/tools/sandbox.go:137-156 | however the stream is chunked, head, tail, total and pending are functions of all bytes written; head and tail hold at most 10000 runes, pending at most 3 bytes |
| LimitedOutput.Buffer.String | internal/tools/sandbox.go:157-163 | the output is "decode everything, keep both ends" of the stream |
| LimitedOutput.Pieces | internal/tools/sandbox.go:138-144 | decoding in two pieces gives the same runes and the same rest as decoding at once |
| LimitedOutput.MarkerIffDropped | internal/tools/sandbox.go:158-161 | the marker stands exactly when a rune was dropped |
| LimitedOutput.ShortOutputIsExact | internal/tools/sandbox.go:157-163 | a valid stream of at most 20000 runes comes out byte for byte |
| LimitedOutput.RoundTrip | internal/tools/sandbox.go:140-144 | encoding the decoded runes and the rest gives back every valid UTF-8 stream |
| LimitedOutput.RestIsShort | internal/tools/sandbox.go:140-142 | at most three bytes ever wait for the rest of their rune |

## Left out

- Domain.IsReady: keys are compared as they are; that they are unique comes from validation.
- Services.TaskService.UpdateTask: the action "start" is not modelled here, since the API never routes it to this service; the orchestrator starts tasks.
- Services.Orchestrator.AdvanceStage: loading the definition, accepting approved files and a missing stage in the pipeline snapshot only end a pass early; a pass of the model may stop at any point, so they add no behaviour.
- Services.ApprovalService.UpdateApproval: the decision arrives already in lower case, and the response object is not built.
- Delivery.NothingIsLost: stated for events whose commit was acknowledged; a lost acknowledgement skips the hooks, and such events reach the client only by replay or fetch.
- EndToEnd.SocketOwesTheRest: accepting a socket and subscribing it to the bus are one step; a hook that runs between them reaches nobody, like one that runs just before, and an event committed in between is brought by the replay of the subscribe, which is read later.
- ClientSync.TimelineIsLedger: one task in one browser tab; the query library is not part of this model: a load of a query without data is joined and any other is cancelled and started again by an invalidation, a cancelled load still merges what it fetched, an inactive query is only marked, a mount joins a load under way, a load is retried or fails for good, and an idle query without page may be forgotten.
- Globs.OwnersAreDisjoint: the glob library is not part of this model; pattern validity, protected paths and matching are arbitrary, and of matching only what Globs.RootSound says is required, which Globs.SegmentMatchersAreSound proves of every segment-wise matcher.
- Workspace.Manager.Accept: runs to its end; trees have no path that is a directory of another; symbolic links, file modes, dates and the git process are not modelled.
- Workspace.Manager.Reset: names are handled in any order instead of sorted.
- Runner.Run: prompts, message history, durations and event summaries are not modelled; what a check, a model or a tool answers is arbitrary.
- Budget.OvershootBound: each call costs a natural number of tokens, the sum of the four token counts.
- Connection.WsConnection.OnOpen: heartbeat, back-off and jitter are timers and not modelled.
- LimitedOutput.Buffer.Write: runes and bytes are numbers; slices have no capacity.
- Integers are unbounded; no counter of the code comes near its width in practice, and nothing wraps around in the model.
- Positions of stage rows, and of the stages in a pipeline, stand for the order of stage keys, in which the rows are listed (internal/store/sqlc/queries.sql.go:382-384); the latest deliverable by time is the one inserted last.
- The summary channel of the socket, ping, malformed commands and unknown operations: they change no subscription of a task.
- The unlocked first reads of the budget check fail or succeed; a failed read ends the attempt like any other error.
- `prune` and `clear` of the event store are never on the delivery path.
- Pull requests, push, notifications, prompts, model adapters, login, HTTP routing, migrations other than the two unique indexes, metrics and React components are plumbing over libraries.
- Task creation beyond the initial rows, identifiers, clocks, YAML and JSON decoding: identifiers are unique, and every server event parses on the client.
- Which runner the operating system lets run first, and that anything runs at all: statements are about safety and about the finite number of steps, not about fairness.
