/** What every committed task satisfies, and the proof that each transaction keeps it. */
module TaskInvariant {
  import opened Basics
  import opened TaskLifecycle
  import opened EventLog
  import opened ClientView
  import opened Database

  // The log's account of the tool calls and charts, and the client's, against the tables.

  ghost predicate CallsAgree(told: map<Id, CallStatus>, calls: map<Id, ToolCall>) {
    && (forall id :: id in told <==> id in calls)
    && (forall id :: id in calls ==> told[id] == calls[id].status)
  }

  ghost predicate ChartsAgree(told: map<Id, Option<Id>>, charts: map<Id, Chart>) {
    && (forall id :: id in told <==> id in charts)
    && (forall id :: id in charts ==> told[id] == charts[id].latestExecution)
  }

  ghost predicate ShowsCharts(shown: map<Id, ViewChart>, charts: map<Id, Chart>) {
    && (forall id :: id in shown <==> id in charts)
    && (forall id :: id in charts ==> shown[id] == ViewChart(charts[id].title, charts[id].latestExecution))
  }

  /** The stored counter is the number of events, and they are numbered 1..n. */
  ghost predicate SequenceInv(td: TaskData) {
    Gapless(td.log) && td.row.latestSequence == |td.log|
  }

  ghost predicate PhaseMatches(p: Phase, s: Status) {
    match s
    case Completed => p == JustCompleted || p == CompletedOpen || p == Closed(Completed)
    case Failed => p == Closed(Failed)
    case _ => p == At(s)
  }

  /** Read as far as `g`, the log tells exactly what the tables hold. */
  ghost predicate Tells(g: Grammar, td: TaskData) {
    && g.Good?
    && PhaseMatches(g.phase, td.row.status)
    && CallsAgree(g.calls, td.calls)
    && ChartsAgree(g.charts, td.charts)
    && g.replied == td.reply.Some?
  }

  ghost predicate LogInv(td: TaskData) {
    Tells(Scan(td.log), td)
  }

  /** One version per status step; the time and error columns follow the status. */
  ghost predicate RowInv(td: TaskData) {
    && td.row.version == 1 + StatusSteps(td.log)
    && (td.row.status == Created <==> td.row.version == 1)
    && (td.row.startedAt.Some? <==> td.row.status != Created)
    && (td.row.completedAt.Some? <==> Terminal(td.row.status))
    && (td.row.error.Some? <==> td.row.status == Failed)
  }

  ghost predicate ChartRowInv(id: Id, c: Chart, executions: map<Id, Execution>) {
    && c.id == id && id != ""
    && c.latestExecution.Some? == (c.status == Ready)
    && c.version == (if c.status == Ready then 2 else 1)
    && (c.status == Ready ==> c.latestExecution.value in executions && executions[c.latestExecution.value].chartId == id)
  }

  /** A call's error, completion time and duration follow its status. */
  ghost predicate CallRowInv(call: ToolCall) {
    && call.version == (if call.status == ToolCallStarted then 1 else 2)
    && (call.error.Some? <==> call.status == ToolCallFailed)
    && (call.completedAt.Some? <==> call.status != ToolCallStarted)
    && call.duration == (if call.completedAt.None? then None else Some(Elapsed(call.startedAt, call.completedAt.value)))
  }

  ghost predicate TablesInv(td: TaskData) {
    && (forall id :: id in td.calls ==> td.calls[id].id == id && '#' !in id && CallRowInv(td.calls[id]))
    && (forall a, b :: a in td.calls && b in td.calls && a != b ==> td.calls[a].source != td.calls[b].source)
    && (forall id :: id in td.charts ==> ChartRowInv(id, td.charts[id], td.executions))
    && (td.row.status == Created || td.row.status == Planning ==> td.calls == map[] && td.reply.None?)
    && (td.row.status == RunningTools ==> td.reply.None?)
    && (td.reply.None? ==> td.charts == map[])
  }

  /** A client showing `v` shows what the tables hold. */
  ghost predicate Shows(v: View, td: TaskData) {
    && v.taskStatus == (if td.row.status == Created then None else Some(td.row.status))
    && v.error == td.row.error
    && ShowsCharts(v.charts, td.charts)
    && (td.reply.Some? ==> v.assistantText == td.reply.value)
  }

  ghost predicate ViewInv(td: TaskData) {
    Shows(Fold(td.log), td)
  }

  ghost predicate TaskInv(td: TaskData) {
    SequenceInv(td) && LogInv(td) && RowInv(td) && TablesInv(td) && ViewInv(td)
  }

  ghost predicate SameRow(a: Task, b: Task) {
    a == b.(latestSequence := a.latestSequence)
  }

  /** A workflow's copy of the row: never ahead of it, and equal to it (bar the counter) when not behind. */
  ghost predicate CopyOf(item: Task, row: Task) {
    && item.id == row.id && item.tenant == row.tenant && item.sessionId == row.sessionId
    && 1 <= item.version <= row.version
    && (item.version == row.version ==> SameRow(item, row))
  }

  lemma AppendSteps(log: Log, body: Payload)
    ensures var e := Event(|log| + 1, body);
            && Scan(log + [e]) == Read(Scan(log), body)
            && Fold(log + [e]) == Absorb(Fold(log).(latestSequence := |log| + 1), body)
            && StatusSteps(log + [e]) == StatusSteps(log) + (if body.StatusChanged? then 1 else 0)
            && (Gapless(log) ==> Gapless(log + [e]))
  {
    var e := Event(|log| + 1, body);
    ScanAppend(log, e);
    FoldAppend(log, e);
    StepsAppend(log, e);
    GaplessAppend(log, e);
  }

  lemma GaplessAppend(log: Log, e: Event)
    requires e.sequence == |log| + 1
    ensures Gapless(log) ==> Gapless(log + [e])
  {
  }

  /** With a correct counter an append never collides and lands at the end. */
  lemma AppendSucceeds(td: TaskData, from: Task, body: Payload)
    requires SequenceInv(td) && td.row.tenant == from.tenant && td.row.sessionId == from.sessionId
    ensures AppendEvent(td, from, body) ==
            Success(td.(row := td.row.(latestSequence := |td.log| + 1), log := td.log + [Event(|td.log| + 1, body)]))
    ensures Gapless(td.log + [Event(|td.log| + 1, body)])
  {
  }

  ghost predicate AllReady(td: TaskData) {
    forall id :: id in td.charts ==> td.charts[id].latestExecution.Some?
  }

  ghost function MovedRow(td: TaskData, next: Status, now: int): Task {
    Advance(td.row, next, now).(latestSequence := |td.log| + 1)
  }

  ghost function MovedData(td: TaskData, next: Status, now: int): TaskData {
    td.(row := MovedRow(td, next, now), log := td.log + [Event(|td.log| + 1, StatusChanged(td.row.status, next))])
  }

  /** A status step succeeds exactly when the copy is current and the step is allowed. */
  lemma TransitionOutcome(db: Db, item: Task, next: Status, now: int)
    requires item.id in db.tasks && db.tasks[item.id].row.id == item.id
    requires SequenceInv(db.tasks[item.id]) && CopyOf(item, db.tasks[item.id].row)
    ensures var td := db.tasks[item.id];
            TransitionTx(db, item, next, now) ==
            if !CanTransition(item.status, next) then Failure(InvalidStateTransition)
            else if item.version != td.row.version then Failure(ResourceConflict)
            else Success((Put(db, MovedData(td, next, now)), MovedRow(td, next, now)))
  {
    var td := db.tasks[item.id];
    var moved := Advance(item.(latestSequence := td.row.latestSequence), next, now);
    var updated := UpdateTask(td, moved, moved.version - 1);
    if updated.Success? {
      AppendSucceeds(updated.value, moved, StatusChanged(item.status, next));
    }
  }

  lemma MovedDataKeeps(td: TaskData, next: Status, now: int)
    requires TaskInv(td) && CanTransition(td.row.status, next) && next != Failed
    requires next == Completed ==> td.reply.Some? && AllReady(td)
    ensures TaskInv(MovedData(td, next, now))
    ensures next == Completed ==> InPhase(MovedData(td, next, now).log, JustCompleted)
    ensures !IsClosed(td.log)
  {
    AppendSteps(td.log, StatusChanged(td.row.status, next));
  }

  ghost function FailedRow(td: TaskData, code: ErrorCode, now: int): Task {
    Advance(td.row, Failed, now).(error := Some(code), latestSequence := |td.log| + 2)
  }

  ghost function FailedData(td: TaskData, code: ErrorCode, now: int): TaskData {
    td.(row := FailedRow(td, code, now),
        log := td.log + [Event(|td.log| + 1, StatusChanged(td.row.status, Failed))] + [Event(|td.log| + 2, TaskFailed(code))])
  }

  /** Failing succeeds exactly when the copy is current and not terminal. */
  lemma FailOutcome(db: Db, item: Task, code: ErrorCode, now: int)
    requires item.id in db.tasks && db.tasks[item.id].row.id == item.id
    requires SequenceInv(db.tasks[item.id]) && CopyOf(item, db.tasks[item.id].row)
    ensures var td := db.tasks[item.id];
            FailTx(db, item, code, now) ==
            if Terminal(item.status) then Failure(InvalidStateTransition)
            else if item.version != td.row.version then Failure(ResourceConflict)
            else Success((Put(db, FailedData(td, code, now)), FailedRow(td, code, now)))
  {
    var td := db.tasks[item.id];
    var changed := StatusChanged(item.status, Failed);
    var moved := Advance(item.(latestSequence := td.row.latestSequence), Failed, now).(error := Some(code));
    var updated := UpdateTask(td, moved, moved.version - 1);
    if updated.Success? {
      AppendSucceeds(updated.value, moved, changed);
      AppendSucceeds(AppendEvent(updated.value, moved, changed).value, moved, TaskFailed(code));
    }
  }

  lemma FailureTold(g: Grammar, v: View, td: TaskData, code: ErrorCode, now: int)
    requires Tells(g, td) && ShowsCharts(v.charts, td.charts) && !Terminal(td.row.status)
    requires td.reply.Some? ==> v.assistantText == td.reply.value
    ensures var td', changed := FailedData(td, code, now), StatusChanged(td.row.status, Failed);
            var v' := Absorb(v, changed).(latestSequence := v.latestSequence + 1);
            Tells(Read(Read(g, changed), TaskFailed(code)), td') && Shows(Absorb(v', TaskFailed(code)), td')
  {
  }

  lemma FailedTables(td: TaskData, code: ErrorCode, now: int)
    requires TablesInv(td) && !Terminal(td.row.status)
    ensures TablesInv(FailedData(td, code, now))
  {
  }

  lemma FailedDataKeeps(td: TaskData, code: ErrorCode, now: int)
    requires TaskInv(td) && !Terminal(td.row.status)
    ensures TaskInv(FailedData(td, code, now)) && !IsClosed(td.log)
  {
    var changed := StatusChanged(td.row.status, Failed);
    AppendSteps(td.log, changed);
    AppendSteps(td.log + [Event(|td.log| + 1, changed)], TaskFailed(code));
    FailureTold(Scan(td.log), Fold(td.log).(latestSequence := |td.log| + 1), td, code, now);
    FailedTables(td, code, now);
  }

  /** `db'` is `db` with the task `id` moved as said and nothing else touched. */
  ghost predicate OnlyMoved(db: Db, db': Db, id: Id, log: Log) {
    && id in db.tasks && id in db'.tasks
    && db'.tasks[id].log == log && db'.tasks[id].row.latestSequence == |log|
    && db'.tasks[id] == db.tasks[id].(row := db'.tasks[id].row, log := log)
    && db' == db.(tasks := db.tasks[id := db'.tasks[id]])
  }

  /** A committed status step, column by column, and the one event it appends. */
  lemma TransitionRecorded(db: Db, item: Task, next: Status, now: int)
    requires item.id in db.tasks && db.tasks[item.id].row.id == item.id
    requires SequenceInv(db.tasks[item.id]) && CopyOf(item, db.tasks[item.id].row)
    requires TransitionTx(db, item, next, now).Success?
    ensures var (db', item') := TransitionTx(db, item, next, now).value;
            var td := db.tasks[item.id];
            && OnlyMoved(db, db', item.id, td.log + [Event(|td.log| + 1, StatusChanged(td.row.status, next))])
            && db'.tasks[item.id].row == item' && item'.error == td.row.error
            && Advanced(td.row, item'.(latestSequence := td.row.latestSequence), next, now)
  {
    TransitionOutcome(db, item, next, now);
  }

  /** A committed failure, column by column, and the two events it appends. */
  lemma FailureRecorded(db: Db, item: Task, code: ErrorCode, now: int)
    requires item.id in db.tasks && db.tasks[item.id].row.id == item.id
    requires SequenceInv(db.tasks[item.id]) && CopyOf(item, db.tasks[item.id].row)
    requires FailTx(db, item, code, now).Success?
    ensures var (db', item') := FailTx(db, item, code, now).value;
            var td := db.tasks[item.id];
            && OnlyMoved(db, db', item.id, td.log + [Event(|td.log| + 1, StatusChanged(td.row.status, Failed))]
                                                  + [Event(|td.log| + 2, TaskFailed(code))])
            && db'.tasks[item.id].row == item' && item'.error == Some(code)
            && Advanced(td.row, item'.(latestSequence := td.row.latestSequence), Failed, now)
  {
    FailOutcome(db, item, code, now);
  }

  /** The step that forgets to re-read the counter can only roll back once its copy is stale. */
  function TransitionWithoutReread(td: TaskData, item: Task, next: Status, now: int): Result<TaskData> {
    var moved := Advance(item, next, now);
    var updated :- UpdateTask(td, moved, moved.version - 1);
    AppendEvent(updated, moved, StatusChanged(item.status, next))
  }

  lemma RereadIsNeeded(td: TaskData, item: Task, next: Status, now: int)
    requires TaskInv(td) && CopyOf(item, td.row)
    requires 0 <= item.latestSequence < td.row.latestSequence
    ensures TransitionWithoutReread(td, item, next, now).Failure?
  {
    assert td.log[item.latestSequence].sequence == item.latestSequence + 1;
  }

  // ------------------------------------------------------- the other transactions

  /** `td` with one event more. */
  ghost function Logged(td: TaskData, body: Payload): TaskData {
    td.(row := td.row.(latestSequence := |td.log| + 1), log := td.log + [Event(|td.log| + 1, body)])
  }

  /** Table changes and the event that reports them make a sound task again when the
      grammar and the view, each moved by that one event, agree with the changed tables. */
  lemma ReportedChangeKeeps(td: TaskData, changed: TaskData, body: Payload)
    requires SequenceInv(td) && RowInv(td) && changed.row == td.row && changed.log == td.log && !body.StatusChanged?
    requires Tells(Read(Scan(td.log), body), changed)
    requires Shows(Absorb(Fold(td.log).(latestSequence := |td.log| + 1), body), changed)
    requires TablesInv(changed)
    ensures TaskInv(Logged(changed, body))
  {
    AppendSteps(td.log, body);
  }

  lemma PlainEventTold(g: Grammar, v: View, td: TaskData, body: Payload)
    requires Tells(g, td) && Shows(v, td) && TablesInv(td)
    requires
      || (td.row.status == RunningTools
          && (body.MessageStarted? || body.MessageDelta? || body.MetricCandidatesCreated?
              || body == ToolStarted(None) || body == ToolCompleted(None)))
      || (g.phase == JustCompleted && body == TaskCompleted)
    ensures Tells(Read(g, body), td) && Shows(Absorb(v, body), td)
  {
  }

  lemma PlainEventKeeps(td: TaskData, body: Payload)
    requires TaskInv(td)
    requires
      || (td.row.status == RunningTools
          && (body.MessageStarted? || body.MessageDelta? || body.MetricCandidatesCreated?
              || body == ToolStarted(None) || body == ToolCompleted(None)))
      || (InPhase(td.log, JustCompleted) && body == TaskCompleted)
    ensures TaskInv(Logged(td, body)) && !IsClosed(td.log)
  {
    PlainEventTold(Scan(td.log), Fold(td.log).(latestSequence := |td.log| + 1), td, body);
    ReportedChangeKeeps(td, td, body);
  }

  ghost predicate Startable(td: TaskData, call: ToolCall) {
    && call.status == ToolCallStarted && CallRowInv(call) && call.id !in td.calls && '#' !in call.id
    && forall id :: id in td.calls ==> td.calls[id].source != call.source
  }

  lemma StartTold(g: Grammar, v: View, td: TaskData, call: ToolCall)
    requires Tells(g, td) && Shows(v, td) && TablesInv(td) && td.row.status == RunningTools && Startable(td, call)
    ensures var td' := td.(calls := td.calls[call.id := call]);
            var body := ToolStarted(Some(call.id));
            Tells(Read(g, body), td') && Shows(Absorb(v, body), td') && TablesInv(td')
  {
  }

  lemma StartKeeps(td: TaskData, call: ToolCall)
    requires TaskInv(td) && td.row.status == RunningTools && Startable(td, call)
    ensures TaskInv(Logged(td.(calls := td.calls[call.id := call]), ToolStarted(Some(call.id)))) && !IsClosed(td.log)
  {
    StartTold(Scan(td.log), Fold(td.log).(latestSequence := |td.log| + 1), td, call);
    ReportedChangeKeeps(td, td.(calls := td.calls[call.id := call]), ToolStarted(Some(call.id)));
  }

  ghost predicate Closes(td: TaskData, call: ToolCall, body: Payload) {
    && call.id in td.calls && td.calls[call.id].status == ToolCallStarted
    && CallRowInv(call) && call.source == td.calls[call.id].source
    && ((td.row.status == RunningTools && call.status == ToolCallCompleted && body == ToolCompleted(Some(call.id)))
        || (call.status == ToolCallFailed && body == ToolFailed(call.id)
            && (td.row.status == RunningTools || td.row.status == Validating || td.row.status == Completed)))
  }

  lemma CloseTold(g: Grammar, v: View, td: TaskData, call: ToolCall, body: Payload)
    requires Tells(g, td) && Shows(v, td) && TablesInv(td) && Closes(td, call, body) && !g.phase.Closed?
    ensures var td' := td.(calls := td.calls[call.id := call]);
            Tells(Read(g, body), td') && !Read(g, body).phase.Closed? && Shows(Absorb(v, body), td') && TablesInv(td')
  {
  }

  lemma CloseKeeps(td: TaskData, call: ToolCall, body: Payload)
    requires TaskInv(td) && Closes(td, call, body) && !IsClosed(td.log)
    ensures var td' := Logged(td.(calls := td.calls[call.id := call]), body);
            TaskInv(td') && !IsClosed(td'.log)
  {
    CloseTold(Scan(td.log), Fold(td.log).(latestSequence := |td.log| + 1), td, call, body);
    ReportedChangeKeeps(td, td.(calls := td.calls[call.id := call]), body);
    AppendSteps(td.log, body);
  }

  lemma MessageKeeps(td: TaskData, content: string)
    requires TaskInv(td) && td.row.status == Validating && td.reply.None?
    ensures TaskInv(Logged(td.(reply := Some(content)), MessageCompleted(content)))
  {
    ReportedChangeKeeps(td, td.(reply := Some(content)), MessageCompleted(content));
  }

  lemma ChartTold(g: Grammar, v: View, td: TaskData, draft: Chart)
    requires Tells(g, td) && Shows(v, td) && TablesInv(td) && td.row.status == Validating && td.reply.Some?
    requires draft.id !in td.charts && draft.id != "" && draft.status == Proposed && draft.version == 1 && draft.latestExecution.None?
    ensures var td' := td.(charts := td.charts[draft.id := draft]);
            var body := ChartCreated(draft.id, draft.title);
            Tells(Read(g, body), td') && Shows(Absorb(v, body), td') && TablesInv(td')
  {
  }

  lemma ChartKeeps(td: TaskData, draft: Chart)
    requires TaskInv(td) && td.row.status == Validating && td.reply.Some?
    requires draft.id !in td.charts && draft.id != "" && draft.status == Proposed && draft.version == 1 && draft.latestExecution.None?
    ensures TaskInv(Logged(td.(charts := td.charts[draft.id := draft]), ChartCreated(draft.id, draft.title)))
  {
    ChartTold(Scan(td.log), Fold(td.log).(latestSequence := |td.log| + 1), td, draft);
    ReportedChangeKeeps(td, td.(charts := td.charts[draft.id := draft]), ChartCreated(draft.id, draft.title));
  }

  ghost predicate Readies(td: TaskData, ready: Chart, executionId: Id, execution: Execution) {
    && ready.id in td.charts && td.charts[ready.id].status == Proposed
    && ready == td.charts[ready.id].(status := Ready, latestExecution := Some(executionId), version := 2)
    && executionId !in td.executions && execution.chartId == ready.id
  }

  lemma ExecutionTables(td: TaskData, ready: Chart, executionId: Id, execution: Execution)
    requires TablesInv(td) && td.row.status == Validating && td.reply.Some?
    requires Readies(td, ready, executionId, execution)
    ensures TablesInv(td.(charts := td.charts[ready.id := ready], executions := td.executions[executionId := execution]))
  {
    var td' := td.(charts := td.charts[ready.id := ready], executions := td.executions[executionId := execution]);
    forall id | id in td'.charts ensures ChartRowInv(id, td'.charts[id], td'.executions) {
      assert ChartRowInv(id, td.charts[id], td.executions);
    }
  }

  lemma ExecutionTold(g: Grammar, v: View, td: TaskData, ready: Chart, executionId: Id, execution: Execution)
    requires Tells(g, td) && Shows(v, td) && td.row.status == Validating && td.reply.Some? && ready.id != ""
    requires Readies(td, ready, executionId, execution)
    requires td.charts[ready.id].latestExecution.None?
    ensures var td' := td.(charts := td.charts[ready.id := ready], executions := td.executions[executionId := execution]);
            var body := ExecutionCompleted(ready.id, executionId);
            Tells(Read(g, body), td') && Shows(Absorb(v, body), td')
  {
  }

  lemma ExecutionKeeps(td: TaskData, ready: Chart, executionId: Id, execution: Execution)
    requires TaskInv(td) && td.row.status == Validating && td.reply.Some? && Readies(td, ready, executionId, execution)
    ensures TaskInv(Logged(td.(charts := td.charts[ready.id := ready], executions := td.executions[executionId := execution]),
                           ExecutionCompleted(ready.id, executionId)))
  {
    var td' := td.(charts := td.charts[ready.id := ready], executions := td.executions[executionId := execution]);
    assert ChartRowInv(ready.id, td.charts[ready.id], td.executions);
    ExecutionTables(td, ready, executionId, execution);
    ExecutionTold(Scan(td.log), Fold(td.log).(latestSequence := |td.log| + 1), td, ready, executionId, execution);
    ReportedChangeKeeps(td, td', ExecutionCompleted(ready.id, executionId));
  }
}
