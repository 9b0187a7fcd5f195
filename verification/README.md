# AI Core task log: a Dafny model

This project models the durable task event log of the AI Core service and everything that depends on
it: the SQLite store seen as whole transactions, the workflow that drives a task through many of them,
crash recovery, the idempotent create commands, the in-memory wake-up channel, the live event stream, the
paged replay, keyset listing, and the browser's reducers and event subscription. Four secondary parts
with arithmetic and loops follow: the bounded query planner, the one-pass statistics, the history windows
and the linear resampler; and the text layout of stored timestamps, on which the listing order rests.

`dafny verify dfyconfig.toml` verifies everything.

## How the model is laid out

- `Basics`, `Task`, `EventLog`, `ClientView`, `ViewMeaning`, `Ordering`: entities, the status machine, the grammar
  of a log, the browser's per-task reducer and what its view says of a log, and row order.
- `Database`: the tables as one value and each transaction as a function from database to database or
  error. A transaction that faults at any statement or at its commit changes nothing, so a fault is one flag
  per transaction. Rows that belong to a task are grouped under it; `rows` holds the primary keys in use.
- `Worker`: one run of the workflow as the steps between which other work may happen. Every step takes
  its outside choices (does the store fault, the clock, the next generated id, the runtime's next move) as a
  value. The runtime is completely general: it may emit any events in any order, return or give up.
- `TaskInvariant`, `WorkerInvariant`, `Creation`, `System`: what every committed task satisfies, what holds
  of a worker between its steps, the create commands, and the whole process as a labelled transition system:
  workers, commands, crashes and recoveries in any interleaving. `System.RunsAreSound` is the induction.
- `Guarantees`, `CallRecords`, `ExactlyOnce`, `Recovery`, `RunGuarantees`, `Settling`, `Reporting`: the results over runs.
  `Scenarios` holds runs from an empty database that show what can go wrong.
- `DurableStore`, `MockRuntime`, `Workflow`, `Restart`, `CommandService`: the same code as it is written,
  objects updated in place and loops, each method proved against the step functions. A method returns, as
  ghosts, the choices it met.
- `Notifier`, `Streaming`, `StreamEnding`, `Replay`, `Subscription`, `SessionReducer`, `SessionEvents`, `PageLoading`,
  `PageConfluence`, `Keyset`: delivery to clients.
- `QueryPlan`, `Statistics`, `History`, `Resample`, `Timestamps`: the secondary parts.

## Facts about the code worth knowing

- `task.completed` is appended in a transaction of its own after the status change, so a completed task's log
  may lack it. `Reporting.FateOfTheReport` says exactly when, over all runs: while a worker still stands before
  the report, or because the report's own transaction faulted, or because a crash came before it.
  `Scenarios.FaultLosesReport` and `Scenarios.CrashLosesReport` are runs that lose it, and
  `Reporting.LostReportStaysLost` says that nothing repairs it. A stream of such a task never ends by its own
  terminal check.
- Both writers of the task row overwrite the counter column. `TaskInvariant.RereadIsNeeded` shows that a step
  that did not re-read the counter inside its transaction could only roll back once an event had come between.
- The create-task read before the transaction ignores expiry: on an expired key it still answers with the old
  task where the transaction would create a new one (`ExactlyOnce.PreCheckAgreesWhileLive`;
  `Scenarios.ExpiredKeyAnswersPart` reaches such a database).
- The page-full test of the replay is right only because the API's largest page is what the store returns at
  most (`Replay.LastPageTest` gives the exact condition).
- The session reducer's active task is in progress unless a created task that is already over is installed
  (`SessionReducer.NextKeeps` gives the exact condition for every action).
- Loading the same history rows in other pages or another order always gives the same task and message orders, but
  not always the same session: a load leaves the active task as it is known, and which task is active changes from
  load to load. `PageConfluence.PagesCommuteExactly` gives the exact condition and
  `PageConfluence.SwappedPagesDiffer` two pages that differ.
- A user message whose task has no views is passed over by the planner's history, but its length may still end
  the window (`History.Planned`).

## Modelling choices

- Times are integers (nanoseconds); the clock is arbitrary at every step. Of a task's times only created, started and
  completed are kept. Floating-point numbers are exact reals; not-a-number and infinities are a separate case.
- Request hashes are opaque texts that identify requests; page tokens are values whose encoding is taken to round-trip.
- Generated ids are texts without `#`, as the generator's prefix-and-hex layout makes them; nothing else is assumed of
  them, not even freshness: a collision is an error of the insert.
- Message and chart payloads keep what a client or a later step reads: text, title, chart and execution ids.
- `localeCompare` on ids and creation times is a total order on texts and on times.
- The unique indexes of the schema that the behaviour depends on are modelled: one tool call per source call id in a task,
  one assistant message per task, one task in progress per session, one event per sequence number.
- `Worker.saved` records which charts a run has persisted; no step reads it.

## Model

| member | source | states |
|---|---|---|
| TaskLifecycle.AnalysisTask.Transition | services/ai-core/internal/domain/task/task.go:52-66 | a permitted step sets status, first start (kept once set), completion and one version more, column by column; a refused one changes nothing |
| TaskLifecycle.AnalysisTask.Fail | services/ai-core/internal/domain/task/task.go:68-77 | failing is the step to failed plus the error, or nothing |
| EventLog.ScanPrefix | services/ai-core/internal/application/workflows/run_analysis.go:69-127 | every prefix of a log that obeys the grammar obeys it |
| EventLog.PhaseKnowsStatus | services/ai-core/internal/application/workflows/run_analysis.go:164-190 | the status a log tells last is the phase its reader has reached |
| EventLog.TerminalEventIsLast | services/ai-core/internal/application/workflows/run_analysis.go:252-291 | in a log that obeys the grammar nothing follows a terminal event |
| EventLog.GrammarMeansProtocol | services/ai-core/internal/application/workflows/run_analysis.go:192-291 | the grammar read by positions: each kind of event only in its status, status changes along allowed steps, a terminal event last and directly after the change it reports |
| EventLog.LogStartsWithCreation | services/ai-core/internal/application/commands/service.go:159-165 | a log starts with task.created and has it nowhere else |
| ClientView.ReduceStaysPrefix | apps/grafana-plugin/frontend/src/workbench/reducer.ts:8-52 | whatever event of a gapless log arrives next, the view stays the fold of a prefix |
| ClientView.DeliveryIsPrefixFold | apps/grafana-plugin/frontend/src/workbench/reducer.ts:8-52 | for any deliveries from one gapless log, repeated, reordered or lost, the view equals the in-order fold of the prefix it has counted |
| ClientView.CoveringDeliveryCatchesUp | apps/grafana-plugin/frontend/src/workbench/reducer.ts:12-18 | deliveries that contain the log in order, however padded, bring the view at least that far |
| ViewMeaning.FoldMeans | apps/grafana-plugin/frontend/src/workbench/reducer.ts:20-52 | said of the log alone: the text is the last completed reply and all pieces after it, status and error are those reported last, and a chart is there exactly if created, with its last title and the execution reported last since |
| ViewMeaning.DeliveryMeans | apps/grafana-plugin/frontend/src/workbench/reducer.ts:8-52 | whatever is delivered, in any order, with repeats and losses, the view says that of the prefix it has counted |
| TaskInvariant.TransitionOutcome | services/ai-core/internal/application/workflows/run_analysis.go:164-190 | a status step commits exactly if it is allowed and the copy is current, and then moves row, counter and log together |
| TaskInvariant.FailOutcome | services/ai-core/internal/application/workflows/run_analysis.go:252-291 | failing commits exactly if the copy is current and not terminal, and then row, status event and task.failed land together |
| TaskInvariant.TransitionRecorded | services/ai-core/internal/application/workflows/run_analysis.go:164-190 | a committed status step leaves row and copy advanced, column by column, with the error as it was and one event more |
| TaskInvariant.FailureRecorded | services/ai-core/internal/application/workflows/run_analysis.go:252-291 | a committed failure leaves row and copy failed at that time with that error, and two events more |
| TaskInvariant.MovedDataKeeps | services/ai-core/internal/application/workflows/run_analysis.go:164-190 | a status step keeps every invariant of the task, and was made on an open log |
| TaskInvariant.FailedDataKeeps | services/ai-core/internal/application/workflows/run_analysis.go:252-291 | failing keeps every invariant of the task |
| TaskInvariant.RereadIsNeeded | services/ai-core/internal/application/workflows/run_analysis.go:168-181 | without the re-read of the counter a step whose copy's counter is behind cannot commit |
| TaskInvariant.AppendSucceeds | services/ai-core/internal/adapters/outbound/storage/sqlite/store.go:733-749 | with a right counter an append never collides and numbers the event next |
| TaskInvariant.ReportedChangeKeeps | services/ai-core/internal/application/workflows/run_analysis.go:192-250 | a table change with the event that reports it keeps log, tables and client view in agreement |
| TaskInvariant.StartKeeps | services/ai-core/internal/application/workflows/run_analysis.go:340-362 | starting a tool call with its event keeps the task's invariants |
| TaskInvariant.CloseKeeps | services/ai-core/internal/application/workflows/run_analysis.go:363-429 | closing a started call by either kind of event keeps the task's invariants |
| TaskInvariant.MessageKeeps | services/ai-core/internal/application/workflows/run_analysis.go:198-209 | saving the assistant's message with its event keeps the task's invariants |
| TaskInvariant.ChartKeeps | services/ai-core/internal/application/workflows/run_analysis.go:211-227 | saving a chart with its event keeps the task's invariants |
| TaskInvariant.ExecutionKeeps | services/ai-core/internal/application/workflows/run_analysis.go:228-247 | saving an execution and readying its chart with the event keeps the task's invariants |
| WorkerInvariant.SinkOk | services/ai-core/internal/application/workflows/run_analysis.go:325-395 | whatever the runtime emits, the sink keeps the task sound, touches no other task, and its open calls remain exactly the started calls |
| WorkerInvariant.TransitionStepOk | services/ai-core/internal/application/workflows/run_analysis.go:104-125 | each status step of a run, faulted, refused, stale or committed, keeps the task and the worker sound |
| WorkerInvariant.MessageStepOk | services/ai-core/internal/application/workflows/run_analysis.go:193-209 | persisting the message keeps task and worker sound |
| WorkerInvariant.ChartStepOk | services/ai-core/internal/application/workflows/run_analysis.go:211-227 | persisting a chart keeps task and worker sound |
| WorkerInvariant.ExecutionStepOk | services/ai-core/internal/application/workflows/run_analysis.go:228-247 | persisting an execution keeps task and worker sound, with one proposal more on record |
| WorkerInvariant.CloseStepOk | services/ai-core/internal/application/workflows/run_analysis.go:397-429 | closing the next open call in cleanup keeps task and worker sound |
| WorkerInvariant.FailStepOk | services/ai-core/internal/application/workflows/run_analysis.go:88-102 | the deferred failure keeps task and worker sound, also after tool cleanup failed |
| WorkerInvariant.StepIsOk | services/ai-core/internal/application/workflows/run_analysis.go:69-127 | every step of every worker touches only its own task, and that only while holding the current version, and keeps all invariants |
| Creation.FreeKeyOutcome | services/ai-core/internal/application/commands/service.go:130-174 | on a free or expired key a well-formed attempt commits exactly if its rows can go in |
| Creation.CreateTaskOutcome | services/ai-core/internal/application/commands/service.go:130-174 | a committed create either found a live key and changed nothing, or inserted task, message, event, touch and completed key together |
| Creation.CreateTaskKeeps | services/ai-core/internal/application/commands/service.go:130-190 | a committed create leaves no key merely reserved, keeps other keys and tasks, and exactly the caller whose transaction inserted the task starts the run |
| Creation.CreateSessionKeeps | services/ai-core/internal/application/commands/service.go:53-82 | a committed session create leaves its key naming a session of that owner, and every other key and task as it was |
| Creation.CreationIsRecorded | services/ai-core/internal/application/commands/service.go:130-174 | what a caller that starts a run has created, table by table: the task with ids, tenant, session, message, planned views and times as given, one message key, the touched session, and the key naming the task for a day |
| Creation.SessionIsRecorded | services/ai-core/internal/application/commands/service.go:53-82 | a committed session create answers with the live key's session and changes nothing, or inserts the session asked for and its key for a day |
| Creation.AnswerIsTheCallers | services/ai-core/internal/application/commands/service.go:130-174 | every answer is a task of the caller's tenant in a session the caller owns |
| System.RunsAreSound | services/ai-core/internal/application/workflows/run_analysis.go:35-127 | over any run of workers, commands, faults, crashes and recoveries all invariants hold and histories only grow |
| System.RecoverOutcome | services/ai-core/internal/application/workflows/run_analysis.go:44-65 | recovering a task never fails on its own account: each transaction closes its first open call or, with none open, fails it |
| System.BystanderKeeps | services/ai-core/internal/application/workflows/run_analysis.go:76-108 | a worker's step leaves every other worker's knowledge true |
| Guarantees.SequenceOverRuns | services/ai-core/internal/adapters/outbound/storage/sqlite/store.go:458-474 | in every reachable state each task's counter is its number of events, numbered 1..n, and its version counts its status changes |
| Guarantees.LogGrammarOverRuns | services/ai-core/internal/application/workflows/run_analysis.go:69-127 | in every reachable state each log obeys the protocol, ends at the stored status, and ends with task.failed and the stored error if the task failed |
| Guarantees.ClosedEndsTerminal | services/ai-core/internal/application/workflows/run_analysis.go:252-291 | a log is closed exactly if its last event is terminal, and that event names its status |
| Guarantees.HistoriesOnlyGrow | services/ai-core/internal/adapters/outbound/storage/sqlite/store.go:458-474 | over any continuation logs are only extended, one status per version; terminal statuses stay, closed logs never change, and a task keeps its planned views, its first start and, once ended, its end and error |
| Guarantees.PairingCounts | services/ai-core/internal/application/workflows/run_analysis.go:325-429 | how often a log opens, completes and fails a call is what the call's status says |
| Guarantees.ToolPairingOverRuns | services/ai-core/internal/application/workflows/run_analysis.go:325-429 | in every reachable state each recorded call was opened once and closed at most once, by one kind of event, and its row's version, error, completion time and duration follow its status |
| CallRecords.EmittedStartIsRecorded | services/ai-core/internal/application/workflows/run_analysis.go:340-362 | an accepted start puts the call on record under its names at the clock of that step, and touches no other call |
| CallRecords.EmittedCompletionIsRecorded | services/ai-core/internal/application/workflows/run_analysis.go:363-385 | an accepted completion ends that call at the clock of that step, without error, its length in whole milliseconds and none if the clock ran back |
| CallRecords.CleanupIsRecorded | services/ai-core/internal/application/workflows/run_analysis.go:397-429 | each closing of cleanup fails the first open call in key order at the clock of that step with the run's error |
| CallRecords.RecoveryIsRecorded | services/ai-core/internal/application/workflows/run_analysis.go:45-61 | each closing of recovery fails the first filed call at the clock of that transaction as interrupted |
| Guarantees.OneHolderOverRuns | services/ai-core/internal/application/workflows/run_analysis.go:76-108 | of all live runs of a task at most one is past its first transition, and it holds the current version |
| Guarantees.StaleWriterRollsBack | services/ai-core/internal/application/workflows/run_analysis.go:164-190 | a run with a stale copy changes nothing: its transition and its deferred failure both roll back |
| Guarantees.ClientShowsTheTables | apps/grafana-plugin/frontend/src/workbench/reducer.ts:20-52 | a client that has counted as far as the stored counter shows exactly the stored status, error, charts, executions and reply |
| Guarantees.CompletedRunIsRebuilt | services/ai-core/internal/application/workflows/run_analysis.go:192-250 | when a run is about to report completion, folding its log shows its whole result, one chart with its execution per proposal |
| Guarantees.CompletionClosesTheLog | services/ai-core/internal/application/workflows/run_analysis.go:126 | the report, if the store takes it, closes the log on that very view |
| Guarantees.ExecutionsFindTheirCharts | apps/grafana-plugin/frontend/src/workbench/reducer.ts:41-47 | in no reachable log does an execution arrive for a chart the client does not know or that already has one |
| ExactlyOnce.AttemptOutcome | services/ai-core/internal/adapters/outbound/storage/sqlite/store.go:662-715 | an attempt on a live key changes nothing: with another hash it conflicts, otherwise it is answered with the named task; a commit on a free key claims it |
| ExactlyOnce.ExactlyOneRun | services/ai-core/internal/application/commands/service.go:84-190 | in any interleaving, while nothing expires, exactly one attempt on a key starts a run if any commits, and every committed attempt is answered with the same task |
| ExactlyOnce.NoReservationLeft | services/ai-core/internal/adapters/outbound/storage/sqlite/store.go:662-715 | at every transaction boundary of every run no key is merely reserved: each names an existing session or a task whose log has begun |
| ExactlyOnce.PreCheckSettlesKnownKeys | services/ai-core/internal/application/commands/service.go:102-110 | the early read settles exactly the attempts on known keys |
| ExactlyOnce.PreCheckAgreesWhileLive | services/ai-core/internal/application/commands/service.go:102-110 | while a key is live the early answer is the transaction's; once expired the transaction commits exactly if its rows can go in, and then with another task than the early read names |
| Recovery.KeyIsInjective | services/ai-core/internal/application/workflows/run_analysis.go:50-55 | recovery's keys of different calls differ |
| Recovery.RecoveriesStayOnTheWay | services/ai-core/internal/application/workflows/run_analysis.go:35-67 | however often recovery is cut short and begun again, each task is untouched, part of the way along its one sequence of closings, or recovered |
| Recovery.RecoveryEnds | services/ai-core/internal/application/workflows/run_analysis.go:35-67 | a recovery that gets through leaves no task in progress; each it recovered has every call closed in filing order and then the failure; the rest are untouched |
| Recovery.InterruptionLeavesNoTrace | services/ai-core/internal/application/workflows/run_analysis.go:35-67 | any two ways of recovering one database end with the same log, status and error for every task |
| Recovery.RecoverMakesProgress | services/ai-core/internal/application/workflows/run_analysis.go:44-65 | each recovery transaction lowers open calls plus unfinished tasks by one |
| Recovery.RecoveryTakesItsWork | services/ai-core/internal/application/workflows/run_analysis.go:35-67 | an uninterrupted recovery may serve after exactly as many transactions as there are open calls and unfinished tasks, whatever the clock |
| RunGuarantees.RunIsSound | services/ai-core/internal/application/workflows/run_analysis.go:69-127 | a whole run from a sound database leaves a sound one in which histories have only grown |
| RunGuarantees.SuccessfulRun | services/ai-core/internal/application/workflows/run_analysis.go:112-126 | of a run driven alone, as one call of the workflow is: if it succeeds its log is closed and any client that reads it shows the whole result |
| RunGuarantees.FaultFreeRunSettles | services/ai-core/internal/application/workflows/run_analysis.go:84-102 | of a run driven alone: without store faults it leaves its task terminal and reported, and every call of a failed run closed |
| RunGuarantees.CauseIsRecorded | services/ai-core/internal/application/workflows/run_analysis.go:84-127 | without store faults the error a failed task records is the one that broke the run: the runtime's own, or that its reply is blank or a proposal invalid |
| RunGuarantees.ReportIsLostByFault | services/ai-core/internal/application/workflows/run_analysis.go:126 | the report's own step closes the log exactly if it does not fault, and leaves the status completed either way |
| RunGuarantees.FinishedTasksAreFrozen | services/ai-core/internal/application/workflows/run_analysis.go:35-67 | a finished task no run holds never changes again, so recovery does not repair a lost report |
| Settling.StepHolds | services/ai-core/internal/application/workflows/run_analysis.go:76-108 | no step of anyone takes a task out of the hand of the worker that holds it, nor does its own if the store does not fault |
| Settling.FaultFreeWorkerSettles | services/ai-core/internal/application/workflows/run_analysis.go:84-127 | whatever else runs in between: a worker past its first transition whose own transactions do not fault leaves, once finished, its task terminal and reported, with every call of a failed run closed |
| Settling.FaultFreeRunClosesEachCall | services/ai-core/internal/application/workflows/run_analysis.go:325-429 | whatever else runs in between: without store faults, and with a runtime that closes what it starts, every call of a finished run was opened once and closed exactly once |
| Settling.WiredRunClosesEachCall | services/ai-core/internal/application/workflows/run_analysis.go:69-127 | the workflow with the runtime that is wired in needs no such premise: what a fault-free call of it promises implies that every call was closed exactly once |
| Reporting.StepIsFated | services/ai-core/internal/application/workflows/run_analysis.go:104-126 | of all steps of a run only the report's own, without a fault, makes a completed task's log closed, and a worker stands before the report exactly from the step that completes the task |
| Reporting.FateOfTheReport | services/ai-core/internal/application/workflows/run_analysis.go:123-126 | in every run, of every task: its log has task.completed exactly if the report was made; a completed task's report is made, pending or lost to a fault or a crash, and never two of these |
| Reporting.ReportIsMissingExactly | services/ai-core/internal/application/workflows/run_analysis.go:123-126 | a completed task's log is open exactly if a worker still stands before the report, or its transaction faulted, or a crash came first |
| Reporting.LostReportStaysLost | services/ai-core/internal/application/workflows/run_analysis.go:35-67 | nothing that follows, recovery included, repairs a lost report |
| Reporting.ReportedRunIsRebuilt | services/ai-core/internal/application/workflows/run_analysis.go:112-126 | whatever else ran: once a report is made the log is closed for good, and any client that reads it shows status completed, the reply, and one chart with its execution per proposal |
| Scenarios.FaultLosesReport | services/ai-core/internal/application/workflows/run_analysis.go:123-126 | a run from an empty database in which only the report faults leaves a completed task whose log never says so, whatever follows |
| Scenarios.CrashLosesReport | services/ai-core/internal/application/workflows/run_analysis.go:123-126 | so does a crash between the completing commit and the report, without any fault |
| Scenarios.ExpiredKeyAnswersPart | services/ai-core/internal/application/commands/service.go:102-110 | a reachable database and an expired key on which the early read answers with the old task and the transaction would create another |
| DurableStore.Store.Transition | services/ai-core/internal/application/workflows/run_analysis.go:164-190 | commits the whole status step or nothing, and overwrites the caller's copy only after the commit |
| DurableStore.Store.Fail | services/ai-core/internal/application/workflows/run_analysis.go:252-291 | commits row, status event and task.failed together or nothing; does nothing on a terminal copy |
| DurableStore.Store.Emit | services/ai-core/internal/application/workflows/run_analysis.go:293-308 | appends one event or changes nothing |
| DurableStore.Store.PersistResult | services/ai-core/internal/application/workflows/run_analysis.go:192-250 | the loop over proposals goes through exactly the model's persisting steps, up to the first error |
| DurableStore.DurableSink.Emit | services/ai-core/internal/application/workflows/run_analysis.go:325-395 | one emitted event changes store, delta ordinal and open calls exactly as the sink's specification says; an accepted named start leaves a row with the event's names and the clock of the step, an accepted completion of an open call leaves that row completed at that clock, with its length in whole milliseconds |
| DurableStore.DurableSink.FailOpenTools | services/ai-core/internal/application/workflows/run_analysis.go:397-429 | the sorted loop goes through exactly the model's closing steps and, unless the store errs, leaves no call open and each row failed with the given error, its end and its length on record |
| DurableStore.TrailIsDrive | services/ai-core/internal/application/workflows/run_analysis.go:69-127 | a recorded course of a run is a drive of the worker model by the choices it met |
| MockRuntime.SinkLogsOne | services/ai-core/internal/application/workflows/run_analysis.go:325-395 | an accepted agent event is exactly one event more in the log, with the text, ordinal, message or call it is about |
| MockRuntime.Runtime.Run | services/ai-core/internal/adapters/outbound/agent/mock/runtime.go:28-73 | on success the log grew by the opening of the reply and one start and one completion per view in plan order, no call is left open, and there is one proposal per view, with the view's title and unit and the data its query answered |
| MockRuntime.Runtime.RunView | services/ai-core/internal/adapters/outbound/agent/mock/runtime.go:46-71 | one view logs its start and completion under one call id and leaves nothing open |
| Workflow.Analysis.Run | services/ai-core/internal/application/workflows/run_analysis.go:69-127 | an unreadable or started task is left alone; otherwise the run with its deferred cleanup is a finished drive of the model that reports success exactly when task.completed was committed, with no call left open and one proposal per planned view, and otherwise its last step is the deferred failure |
| Workflow.Analysis.CleanUp | services/ai-core/internal/application/workflows/run_analysis.go:84-102 | cleanup closes calls if the sink exists and fails the task whether or not that worked |
| Restart.CloseIsRecover | services/ai-core/internal/application/workflows/run_analysis.go:45-61 | the sink's closing of the first filed call is the recovery step |
| Restart.TrailRecovers | services/ai-core/internal/application/workflows/run_analysis.go:56-61 | all the sink does in recovery is a sequence of recovery steps |
| Restart.Startup.ListNonTerminal | services/ai-core/internal/adapters/outbound/storage/sqlite/store.go:402-420 | lists each unfinished task once, oldest first |
| Restart.Startup.FileOpenCalls | services/ai-core/internal/application/workflows/run_analysis.go:46-55 | files every started call of a task under its own key and nothing else |
| Restart.Startup.RecoverInterrupted | services/ai-core/internal/application/workflows/run_analysis.go:35-67 | the loop is a recovery run of the system: complete on success, an initial part on a store error |
| CommandService.Service.CreateSession | services/ai-core/internal/application/commands/service.go:53-82 | refuses malformed requests, and otherwise ends as the transaction says or with nothing changed; an answer is the live key's session or a new one, field by field, of the caller |
| CommandService.Service.CreateTask | services/ai-core/internal/application/commands/service.go:84-190 | answers known keys from the early read; otherwise ends as its transaction says on the database it meets, or with nothing changed; a caller that starts a run has inserted a task with the planned views, its message and its acceptance time |
| CommandService.Service.InsertRows | services/ai-core/internal/application/commands/service.go:141-171 | the insert statements succeed exactly if the session is the caller's, nothing is blank or taken and time has not run back; they then give the task, column by column, with its first event, the message's key and the touched session, and otherwise the error of the first check that fails |
| Notifier.Notifier.Notify | services/ai-core/internal/adapters/outbound/events/inmemory/notifier.go:21-34 | leaves every listener of the task with a signal, touches no other channel, and never waits |
| Notifier.Notifier.Subscribe | services/ai-core/internal/adapters/outbound/events/inmemory/notifier.go:36-45 | adds one new empty channel to the task's list and to no other |
| Streaming.NoLostWakeUp | services/ai-core/internal/adapters/inbound/http/api.go:240-277 | in every interleaving a subscribed stream waiting on an empty channel has missed no event whose notification has run |
| Streaming.ExactStreaming | services/ai-core/internal/adapters/inbound/http/api.go:240-254 | what a stream wrote is exactly the committed events start+1, start+2, ... |
| Streaming.FinishedStreamIsComplete | services/ai-core/internal/adapters/inbound/http/api.go:255-266 | a stream that ends by its terminal check has written everything after its start, and the log is closed |
| StreamEnding.StepNearsEnd | services/ai-core/internal/adapters/inbound/http/api.go:240-277 | on a closed log every step of a stream that neither fails nor idles takes it nearer its end, and the terminal check is the only end |
| StreamEnding.SeenAllEndsAtOnce | services/ai-core/internal/adapters/inbound/http/api.go:240-266 | a stream that queries a closed log it has written is done in three steps and never waits |
| StreamEnding.NoIdleWait | services/ai-core/internal/adapters/inbound/http/api.go:267-277 | once the notifications of a closed log have run no subscribed stream waits without a signal |
| StreamEnding.ClosedStreamEnds | services/ai-core/internal/adapters/inbound/http/api.go:240-277 | whatever others do in between, after a stated number of its own steps without failure a stream of a closed log has ended by its check with the log from its start written |
| Streaming.SystemTasksAreReadable | services/ai-core/internal/adapters/inbound/http/api.go:212-279 | the tasks of the running system meet what streams rely on |
| Streaming.StreamTaskEvents | services/ai-core/internal/adapters/inbound/http/api.go:212-279 | the handler's loop, against any writers, starts after the later of the two sequences named and ends in a state of a stream, with the same events written; on a closed log without trouble, one round for each 200 events left and one more suffice to write the rest and end by itself |
| Replay.ReplayTo | services/ai-core/internal/adapters/outbound/storage/sqlite/store.go:755-790 | the row loop returns the wanted rows in order up to the clamped limit, and refuses invalid parameters |
| Replay.SelectIsSlice | services/ai-core/internal/adapters/outbound/storage/sqlite/store.go:765 | on a gapless log the query is a slice |
| Replay.Server.ReplayTaskEvents | services/ai-core/internal/adapters/inbound/http/api.go:281-326 | the handler answers as specified, errors included |
| Replay.AnswerIsThePage | services/ai-core/internal/adapters/inbound/http/api.go:281-326 | which requests are refused, and otherwise the very page: the events after the start up to the target, as many as asked for and 200 if unsaid, and a token exactly if the page is full and the target lies beyond |
| Replay.LastPageTest | services/ai-core/internal/adapters/inbound/http/api.go:313-319 | a page without a token has reached the target exactly if the page size or the rest is within the store's clamp |
| Replay.Walk | services/ai-core/internal/adapters/inbound/http/api.go:281-326 | following tokens yields exactly the log from the start to the first page's target whatever is appended meanwhile, and ends |
| Subscription.ReplayTask | apps/grafana-plugin/frontend/src/workbench/Workbench.tsx:78-97 | replaying page by page brings the view to the fold of at least the target's prefix |
| Subscription.AcceptedIsAbsorbed | apps/grafana-plugin/frontend/src/workbench/reducer.ts:12-18 | an accepted event is never a gap for the reducer |
| Subscription.EventSubscription.Receive | apps/grafana-plugin/frontend/src/workbench/sse.ts:44-66 | accepts and dispatches exactly the next event, ignores old ones, and drops the connection on a gap or garbled text |
| Subscription.EventSubscription.Break | apps/grafana-plugin/frontend/src/workbench/sse.ts:36-42 | a broken connection is closed and one reconnect scheduled |
| Subscription.EventSubscription.Fire | apps/grafana-plugin/frontend/src/workbench/sse.ts:19-32 | a reconnect resumes after the last accepted event |
| Subscription.Subscribe | apps/grafana-plugin/frontend/src/workbench/Workbench.tsx:99-117 | one subscription, through any breaks, strays and reconnects, accepts the log from where it starts to where it is closed |
| Subscription.FollowTask | apps/grafana-plugin/frontend/src/workbench/Workbench.tsx:76-117 | replay, then one subscription after another as the task's status changes: together they accept the log from the target on, each event once, and the view is the fold of a prefix that covers them |
| SessionReducer.NextKeeps | apps/grafana-plugin/frontend/src/workbench/session-reducer.ts:33-84 | one action keeps orders and runtimes; the active task stays in progress exactly unless a finished created task is installed; other sessions' actions change nothing |
| SessionReducer.After | apps/grafana-plugin/frontend/src/workbench/session-reducer.ts:33-112 | over all action sequences both orders are sorted duplicate-free listings of their maps' keys and every listed task has a runtime |
| SessionReducer.ActiveTaskIsOpen | apps/grafana-plugin/frontend/src/workbench/session-reducer.ts:59-98 | over all sequences in which created tasks are in progress, the active task is known and in progress |
| SessionReducer.RuntimesArePrefixFolds | apps/grafana-plugin/frontend/src/workbench/session-reducer.ts:70-82 | over all sequences every task's runtime is the fold of a prefix of that task's log |
| SessionEvents.NextEventAdvances | apps/grafana-plugin/frontend/src/workbench/session-reducer.ts:70-82 | the event next after the counted ones takes the task's runtime to the fold of the longer prefix, sets the status it tells, clears the active task exactly if that is this one and over, and changes nothing else |
| SessionEvents.OtherEventsAreDropped | apps/grafana-plugin/frontend/src/workbench/session-reducer.ts:70-76 | an event that is not the next one changes nothing |
| SessionEvents.CreatedTaskIsActive | apps/grafana-plugin/frontend/src/workbench/session-reducer.ts:59-69 | a created task of the session is put in as it came and becomes the active one; nothing else changes but the order |
| SessionEvents.LoadedPageLeaves | apps/grafana-plugin/frontend/src/workbench/session-reducer.ts:37-58 | a loaded page keeps every runtime there is, gives new tasks an empty one, and takes over the page tokens |
| SessionEvents.LoadedPageBrings | apps/grafana-plugin/frontend/src/workbench/session-reducer.ts:37-58 | row by row: the page's last row of an id replaces what was known, except that the active task stays as it is known; and the newest task in progress becomes the active one |
| SessionEvents.TaskFollowsItsEvents | apps/grafana-plugin/frontend/src/workbench/session-reducer.ts:33-84 | over all action sequences that do not put the task in again: its runtime is what its own events make of an empty one, its status the one they tell |
| SessionEvents.FollowedTaskIsItsLog | apps/grafana-plugin/frontend/src/workbench/session-reducer.ts:33-98 | if its events bring the whole log in order, however repeated and strewn, the task ends with the view and status of the whole log and, if that is over, is not the active one |
| PageLoading.RowsAreKnownOrArrived | apps/grafana-plugin/frontend/src/workbench/session-reducer.ts:37-69 | over all action sequences the rows there are are those known before and those that arrived, with their creation times |
| PageLoading.OrdersDoNotDependOnArrival | apps/grafana-plugin/frontend/src/workbench/session-reducer.ts:106-112 | from any state, action sequences that bring the same rows, whatever pages, events and created tasks lie between, leave the same task and message orders |
| PageConfluence.LaterLoadIsHarmless | apps/grafana-plugin/frontend/src/workbench/session-reducer.ts:41-44 | under the condition below no load finds a contradicted task active, except the one that every load does |
| PageConfluence.CalmCommutes | apps/grafana-plugin/frontend/src/workbench/session-reducer.ts:37-58 | under the condition below the same rows, however cut into pages, ordered and repeated, give the same session but for the page tokens |
| PageConfluence.PagesCommuteExactly | apps/grafana-plugin/frontend/src/workbench/session-reducer.ts:37-58 | that holds exactly if the rows do not contradict the active task or the newest task in progress, unless that is one task and no known or loaded task in progress is newer |
| PageConfluence.IdleSessionsCommute | apps/grafana-plugin/frontend/src/workbench/session-reducer.ts:37-58 | in a session with no task in progress, as a fresh one, the order of pages never matters |
| PageConfluence.SwappedPagesDiffer | apps/grafana-plugin/frontend/src/workbench/session-reducer.ts:41-44 | two pages that leave a task completed in the one order and running in the other |
| SessionReducer.TaskOrderUnique | apps/grafana-plugin/frontend/src/workbench/session-reducer.ts:110-112 | a map of tasks has one order |
| SessionReducer.Reducer | apps/grafana-plugin/frontend/src/workbench/session-reducer.ts:33-84 | the reducer with its loops and sorts computes the specified next state |
| Keyset.Table.ListPage | services/ai-core/internal/adapters/outbound/storage/sqlite/store.go:339-377 | a page is the newest matching rows up to the limit, with a cursor exactly if more match |
| Keyset.Table.Write | services/ai-core/internal/domain/session/session.go:33-41 | activity time cannot move backwards |
| Keyset.Walk | services/ai-core/internal/adapters/outbound/storage/sqlite/store.go:247-283 | keys descend strictly, no row is listed twice even if touched between pages, and a walk that ends has listed every row nobody wrote meanwhile |
| Keyset.ListedNotBelow | services/ai-core/internal/adapters/outbound/storage/sqlite/store.go:253-258 | a listed row, wherever it has moved, is not below the cursor again |
| Keyset.ListedWereThere | services/ai-core/internal/adapters/outbound/storage/sqlite/store.go:422-456 | with fixed keys and only newer inserts a walk lists only rows there were at its start, so no more than those |
| Keyset.CreationWalkIsListing | services/ai-core/internal/adapters/outbound/storage/sqlite/store.go:422-456 | so a walk of more pages than there were rows has ended, and is exactly the descending listing of the rows there were |
| QueryPlan.AutoStep | services/ai-core/internal/application/commands/query_plan.go:97-104 | the loop returns the first step within the automatic budget |
| QueryPlan.AutoStepIsLeast | services/ai-core/internal/application/commands/query_plan.go:97-108 | for every accepted range the automatic step is the least allowed within 300 points, and the fallback is not needed |
| QueryPlan.AutoStepMonotone | services/ai-core/internal/application/commands/query_plan.go:97-108 | a longer range never gets a finer step |
| QueryPlan.FloorsCompose | services/assistant-mcp/internal/namespaces/grafana/service.go:76 | counting whole seconds first gives the same points |
| QueryPlan.ResolvePlannedQueryPlan | services/ai-core/internal/application/commands/query_plan.go:42-88 | accepts exactly the requests within range, step, budget and view rules; an absolute range is kept, a relative one ends now and is as long as planned, or else as asked, or else half an hour; the planned step goes before the requested one; the window is 30, 60 or 300 seconds for up to ten minutes, up to an hour, or longer |
| QueryPlan.NewQueryPlan | services/ai-core/internal/domain/task/query_plan.go:14-34 | accepts exactly known, distinct views with an allowed step and window |
| QueryPlan.AcceptedPlansRun | services/assistant-mcp/internal/adapters/prometheus/http/adapter.go:151-158 | every accepted plan keeps its point budget and passes both downstream guards for each of its views |
| Statistics.Summarize | services/ai-core/internal/adapters/outbound/agent/localresult/formatter.go:28-67 | the one pass computes the definition: extremes attained, means over the first, last and all usable points |
| Statistics.DescriptionIsUnique | services/ai-core/internal/adapters/outbound/agent/localresult/formatter.go:28-67 | the definition fits one summary only |
| Statistics.ArrangementIsIrrelevant | services/ai-core/internal/adapters/outbound/agent/localresult/formatter.go:33-59 | the summary does not depend on how series and points are arranged |
| Statistics.ActualSampleRange | services/ai-core/internal/application/workflows/run_analysis.go:482-505 | the stored range spans all timestamps and both ends are attained |
| Statistics.RangesAgree | services/ai-core/internal/application/workflows/run_analysis.go:482-505 | where all timed values are finite the summary's range is the stored range |
| History.ConversationContext | services/ai-core/internal/application/workflows/run_analysis.go:129-162 | the current message with the longest window of spoken messages before it, in order, or the fallback text |
| History.LongestIsThreshold | services/ai-core/internal/application/workflows/run_analysis.go:146-157 | every shorter window fits and every longer one does not |
| History.ConversationBounds | services/ai-core/internal/application/workflows/run_analysis.go:144-157 | at most 12 messages and 12,000 characters, and one message more would break a bound |
| History.PlanningHistory | services/ai-core/internal/application/commands/service.go:225-259 | the plans in the longest window of user messages, in order, or the error of a read inside the window |
| History.PlanningIsDetermined | services/ai-core/internal/application/commands/service.go:225-259 | messages and plans alone settle the outcome, error or not |
| History.ItemsTellPlans | services/ai-core/internal/application/commands/service.go:236-258 | each planned message has its item in its place: its text and its plan's views, length in whole seconds toward zero, and step |
| History.PlanningBounds | services/ai-core/internal/application/commands/service.go:230-248 | at most 6 plans whose messages have at most 12,000 characters together |
| History.ReverseInPlace | services/ai-core/internal/application/workflows/run_analysis.go:158-160 | the swap loop reverses the filled part |
| Resample.ResampleToRange | services/assistant-mcp/internal/adapters/prometheus/mock/fixture_loader.go:121-143 | every series is redrawn on the grid by reading its source at the scaled position, with all indices in range |
| Resample.GridFillsRange | services/assistant-mcp/internal/adapters/prometheus/mock/fixture_loader.go:128-139 | timestamps start at the start, never pass the end and miss it by less than a step |
| Resample.EndsAreKept | services/assistant-mcp/internal/adapters/prometheus/mock/fixture_loader.go:133-139 | the first value is kept, and the last when there is more than one point |
| Resample.DrawnInParts | services/assistant-mcp/internal/adapters/prometheus/mock/fixture_loader.go:133-138 | in whole numbers: point i of d + 1 weighs the two source points about i (n - 1) / d by nearness in parts of d, so straight lines stay straight |
| Resample.ShapeIsKept | services/assistant-mcp/internal/adapters/prometheus/mock/fixture_loader.go:133-139 | every value lies between two neighbours of the source, and a monotone source stays monotone |
| Timestamps.TextOrderIsTimeOrder | services/ai-core/internal/adapters/outbound/storage/sqlite/store.go:1160 | for years 0 to 9999 stored texts sort exactly as instants do (sections 5.1 and 5.6 of RFC 3339) |
| Timestamps.StoredTimestampReadsBack | services/ai-core/internal/adapters/outbound/storage/sqlite/store.go:1160-1168 | a stored timestamp parses back to the same time |
| Timestamps.StoredKeysCompare | services/ai-core/internal/adapters/outbound/storage/sqlite/store.go:350-354 | comparing stored rows by text and id is comparing them by instant and id |
| Timestamps.TokenReadsBack | services/ai-core/internal/adapters/inbound/http/api.go:429-476 | a cursor through the zero-trimming page token comes back as the identical stored text |

## Left out

- Generated clients and servers, HTTP headers, JSON and base64url encoding: mechanical plumbing; tokens are values with a round trip.
- Calls to Grafana, Prometheus, the model and the intent planner: their answers are arbitrary values.
- SQL, drivers, the write lock and migrations: transactions are atomic and serial; a commit that reports an error after persisting is not modelled.
- The bound of four concurrent runs and the time limits of a run and its cleanup: they only delay steps or make them fail.
- React components, timers and backoff delays: only the order of replay, subscription, breaks and reconnects is kept.
- The text of the assistant's reply and of error messages, and query specifications beyond a validity flag.
- Message texts with Chinese numerals, session titles and error-code mapping: decided by single branches.
- The unowned-resource checks in front of the stream and replay handlers: they refuse the request before anything modelled here.
- Streaming.StreamTaskEvents: runs for a given number of rounds, because the handler's own loop ends only when the client leaves or the log is
  closed; wake-ups, and the ending of a stream whose log closes while it runs, are proved of the step model, not of this loop.
- Keyset.Walk: follows a given number of pages, because rows inserted below the cursor could keep a walk going for ever;
  with fixed keys and newer inserts `Keyset.CreationWalkIsListing` says how many are enough.
- Workflow.Analysis.Run: no other writer acts between the transactions of one call, and the history text is arbitrary; what
  other writers may do in between is the step model's part (`System`, `Settling`, `Reporting`).
- RunGuarantees.SuccessfulRun: one run driven alone; `Reporting.ReportedRunIsRebuilt` is the same with anything in between.
- RunGuarantees.FaultFreeRunSettles: one run driven alone; `Settling.FaultFreeWorkerSettles` is the same with anything in between.
- PageConfluence.PagesCommuteExactly: of page loads alone; with events in between only the orders are compared.
- DurableStore.Store.PersistResult: a chart's validation is one flag, because the query specification comes from the query engine.
- CommandService.Service.CreateTask: which views are planned is arbitrary, because the planner is a foreign call; the datasource is not modelled.
- MockRuntime.Runtime.Run: the final text is arbitrary, because it only formats numbers that `Statistics.Summarize` computes.
