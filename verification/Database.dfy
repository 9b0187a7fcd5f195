/** The tables of the store as a value, and every transaction the workflow runs on them.
    Rows that belong to a task are grouped under it; `rows` holds the primary keys in use. */
module Database {
  import opened Basics
  import opened TaskLifecycle
  import opened EventLog

  datatype ToolCall = ToolCall(
    id: Id, source: Id, tool: string, status: CallStatus, error: Option<ErrorCode>,
    startedAt: int, completedAt: Option<int>, duration: Option<int>, version: int)

  /** Whole milliseconds in a span of nanoseconds, truncated toward zero. */
  function Milliseconds(span: int): int {
    if span >= 0 then span / 1_000_000 else -(-span / 1_000_000)
  }

  /** How long a call took; a clock that ran backwards counts as no time. */
  function Elapsed(from: int, now: int): (duration: nat) {
    if Milliseconds(now - from) < 0 then 0 else Milliseconds(now - from)
  }

  /** `duration` is the time from `from` to `now` in whole milliseconds, and none if the clock ran back. */
  ghost predicate Lasted(from: int, now: int, duration: int) {
    if now <= from then duration == 0 else duration * 1_000_000 <= now - from < (duration + 1) * 1_000_000
  }

  /** A call's row as its start leaves it. */
  ghost predicate WasOpened(call: ToolCall, id: Id, source: Id, tool: string, now: int) {
    && call.id == id && call.source == source && call.tool == tool && call.startedAt == now
    && call.status == ToolCallStarted && call.version == 1
    && call.error.None? && call.completedAt.None? && call.duration.None?
  }

  /** A call's row as its end leaves it: what its start recorded stands, and the end is on record. */
  ghost predicate WasClosed(before: ToolCall, call: ToolCall, status: CallStatus, error: Option<ErrorCode>, now: int) {
    && call.id == before.id && call.source == before.source && call.tool == before.tool && call.startedAt == before.startedAt
    && call.status == status && call.error == error && call.version == before.version + 1
    && call.completedAt == Some(now) && call.duration.Some? && Lasted(before.startedAt, now, call.duration.value)
  }

  datatype ChartStatus = Proposed | Ready

  datatype Chart = Chart(
    id: Id, title: string, unit: string, status: ChartStatus, latestExecution: Option<Id>, version: int)

  datatype Execution = Execution(chartId: Id, data: string)

  datatype TaskData = TaskData(
    row: Task, log: Log, calls: map<Id, ToolCall>, charts: map<Id, Chart>,
    executions: map<Id, Execution>, reply: Option<string>)

  datatype Session = Session(id: Id, tenant: Id, owner: Id, updatedAt: int, version: int)

  datatype Table = Messages | ToolCalls | Charts | Executions

  datatype RowKey = RowKey(table: Table, id: Id)

  datatype Scope = CreateSession | CreateTask

  datatype IdempotencyKey = IdempotencyKey(tenant: Id, scope: Scope, key: string)

  /** `resource` is None while the record is merely reserved. */
  datatype IdempotencyRecord = IdempotencyRecord(requestHash: string, resource: Option<Id>, expiresAt: int)

  datatype Db = Db(
    sessions: map<Id, Session>, tasks: map<Id, TaskData>, rows: set<RowKey>,
    keys: map<IdempotencyKey, IdempotencyRecord>)

  // ---------------------------------------------------------------- statements

  function FindTask(db: Db, tenant: Id, id: Id): Result<TaskData> {
    if id in db.tasks && db.tasks[id].row.tenant == tenant then Success(db.tasks[id]) else Failure(ResourceNotFound)
  }

  /** The task's row stands under its own id. */
  ghost predicate OnRow(db: Db, item: Task) {
    item.id in db.tasks && db.tasks[item.id].row.id == item.id
  }

  /** `task` holds the call `id` as it was opened, at `now`, under the names given. */
  ghost predicate HoldsOpened(db: Db, task: Id, id: Id, source: Id, tool: string, now: int) {
    task in db.tasks && id in db.tasks[task].calls && WasOpened(db.tasks[task].calls[id], id, source, tool, now)
  }

  /** `task` holds the call `before` as it was closed, at `now`. */
  ghost predicate HoldsClosed(db: Db, task: Id, before: ToolCall, status: CallStatus, error: Option<ErrorCode>, now: int) {
    && task in db.tasks && before.id in db.tasks[task].calls
    && WasClosed(before, db.tasks[task].calls[before.id], status, error, now)
  }

  /** The other calls of the task are as they were. */
  ghost predicate OthersStand(db: Db, db': Db, task: Id, id: Id) {
    && task in db.tasks && task in db'.tasks
    && (forall o :: o != id ==> (o in db'.tasks[task].calls <==> o in db.tasks[task].calls))
    && (forall o :: o != id && o in db.tasks[task].calls ==> db'.tasks[task].calls[o] == db.tasks[task].calls[o])
  }

  function Put(db: Db, td: TaskData): Db {
    db.(tasks := db.tasks[td.row.id := td])
  }

  /** Bumps the counter column and inserts the event under the bumped number. */
  function AppendEvent(td: TaskData, from: Task, body: Payload): Result<TaskData> {
    if td.row.tenant != from.tenant || td.row.sessionId != from.sessionId then Failure(ResourceConflict) else
    var next := td.row.latestSequence + 1;
    if exists e :: e in td.log && e.sequence == next then Failure(ResourceConflict) else
    Success(td.(row := td.row.(latestSequence := next), log := td.log + [Event(next, body)]))
  }

  /** Overwrites every mutable column, the counter included, if the version still matches. */
  function UpdateTask(td: TaskData, value: Task, expected: int): Result<TaskData> {
    if value.latestSequence < 0 || value.version < 1 then Failure(InvalidArgument)
    else if expected < 1 || value.version != expected + 1 then Failure(InvalidArgument)
    else if td.row.tenant != value.tenant || td.row.version != expected then Failure(ResourceConflict)
    else Success(td.(row := td.row.(views := value.views, status := value.status,
                                    latestSequence := value.latestSequence, error := value.error,
                                    startedAt := value.startedAt, completedAt := value.completedAt,
                                    version := value.version)))
  }

  function CreateCall(td: TaskData, call: ToolCall): Result<TaskData> {
    if call.id == "" || call.source == "" || call.tool == "" then Failure(InvalidArgument)
    else if exists id :: id in td.calls && td.calls[id].source == call.source then Failure(ResourceConflict)
    else Success(td.(calls := td.calls[call.id := call]))
  }

  function CompleteCall(td: TaskData, call: ToolCall, expected: int): Result<TaskData> {
    if expected < 1 || call.version != expected + 1 || call.status == ToolCallStarted then Failure(InvalidArgument)
    else if call.id !in td.calls || td.calls[call.id].version != expected then Failure(ResourceConflict)
    else Success(td.(calls := td.calls[call.id := call]))
  }

  // -------------------------------------------------------------- transactions

  /** One status step: re-reads the counter, writes the row, appends the event. */
  function TransitionTx(db: Db, item: Task, next: Status, now: int): Result<(Db, Task)> {
    var td :- FindTask(db, item.tenant, item.id);
    var candidate := item.(latestSequence := td.row.latestSequence);
    if !CanTransition(candidate.status, next) then Failure(InvalidStateTransition) else
    var moved := Advance(candidate, next, now);
    var updated :- UpdateTask(td, moved, moved.version - 1);
    var logged :- AppendEvent(updated, moved, StatusChanged(item.status, next));
    Success((Put(db, logged), moved.(latestSequence := logged.row.latestSequence)))
  }

  /** The failing step: row, status event and task.failed commit together. */
  function FailTx(db: Db, item: Task, code: ErrorCode, now: int): Result<(Db, Task)> {
    var td :- FindTask(db, item.tenant, item.id);
    var candidate := item.(latestSequence := td.row.latestSequence);
    if !CanTransition(candidate.status, Failed) then Failure(InvalidStateTransition) else
    var moved := Advance(candidate, Failed, now).(error := Some(code));
    var updated :- UpdateTask(td, moved, moved.version - 1);
    var changed :- AppendEvent(updated, moved, StatusChanged(item.status, Failed));
    var logged :- AppendEvent(changed, moved, TaskFailed(code));
    Success((Put(db, logged), moved.(latestSequence := logged.row.latestSequence)))
  }

  function AppendTx(db: Db, item: Task, body: Payload): Result<Db> {
    var td :- FindTask(db, item.tenant, item.id);
    var logged :- AppendEvent(td, item, body);
    Success(Put(db, logged))
  }

  function Claim(db: Db, table: Table, id: Id): Result<Db> {
    if RowKey(table, id) in db.rows then Failure(ResourceConflict)
    else Success(db.(rows := db.rows + {RowKey(table, id)}))
  }

  function StartToolTx(db: Db, item: Task, call: ToolCall): Result<Db> {
    var td :- FindTask(db, item.tenant, item.id);
    var claimed :- Claim(db, ToolCalls, call.id);
    var created :- CreateCall(td, call);
    var logged :- AppendEvent(created, item, ToolStarted(Some(call.id)));
    Success(Put(claimed, logged))
  }

  function CloseToolTx(db: Db, item: Task, call: ToolCall, body: Payload): Result<Db> {
    var td :- FindTask(db, item.tenant, item.id);
    var closed :- CompleteCall(td, call, call.version - 1);
    var logged :- AppendEvent(closed, item, body);
    Success(Put(db, logged))
  }

  /** One assistant message per task is a unique index. */
  function SaveMessageTx(db: Db, item: Task, messageId: Id, content: string): Result<Db> {
    var td :- FindTask(db, item.tenant, item.id);
    var claimed :- Claim(db, Messages, messageId);
    if td.reply.Some? then Failure(ResourceConflict) else
    var logged :- AppendEvent(td.(reply := Some(content)), item, MessageCompleted(content));
    Success(Put(claimed, logged))
  }

  function SaveChartTx(db: Db, item: Task, draft: Chart): Result<Db> {
    var td :- FindTask(db, item.tenant, item.id);
    var claimed :- Claim(db, Charts, draft.id);
    var logged :- AppendEvent(td.(charts := td.charts[draft.id := draft]), item, ChartCreated(draft.id, draft.title));
    Success(Put(claimed, logged))
  }

  function SaveExecutionTx(db: Db, item: Task, executionId: Id, execution: Execution, ready: Chart): Result<Db> {
    var td :- FindTask(db, item.tenant, item.id);
    if execution.chartId !in td.charts then Failure(ResourceNotFound) else
    var claimed :- Claim(db, Executions, executionId);
    if ready.version < 2 then Failure(InvalidArgument) else
    if ready.id !in td.charts || td.charts[ready.id].version != ready.version - 1 then Failure(ResourceConflict) else
    var saved := td.(executions := td.executions[executionId := execution], charts := td.charts[ready.id := ready]);
    var logged :- AppendEvent(saved, item, ExecutionCompleted(ready.id, executionId));
    Success(Put(claimed, logged))
  }
}
