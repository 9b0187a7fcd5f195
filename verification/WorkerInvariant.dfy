/** What holds of a worker at every point between two of its steps, whatever ran meanwhile. */
module WorkerInvariant {
  import opened Basics
  import opened TaskLifecycle
  import opened EventLog
  import opened ClientView
  import opened Database
  import opened TaskInvariant
  import opened Worker
  import opened Ordering

  /** The sink's map of open calls is exactly the task's started calls, keyed by source id. */
  ghost predicate OpenInv(open: map<Id, ToolCall>, td: TaskData) {
    && (forall s :: s in open ==>
          open[s].source == s && open[s].id in td.calls && td.calls[open[s].id] == open[s]
          && open[s].status == ToolCallStarted)
    && (forall id :: id in td.calls && td.calls[id].status == ToolCallStarted ==>
          td.calls[id].source in open && open[td.calls[id].source] == td.calls[id])
  }

  /** Proposal `i` is on record under chart `id`, with its execution. */
  ghost predicate OnRecord(td: TaskData, id: Id, p: Proposal) {
    && id in td.charts && td.charts[id].title == p.title && td.charts[id].unit == p.unit
    && td.charts[id].latestExecution.Some?
    && td.charts[id].latestExecution.value in td.executions
    && td.executions[td.charts[id].latestExecution.value] == Execution(id, p.data)
  }

  /** The first proposals are on record, one chart each, in order; `rest` holds any other chart. */
  ghost predicate SavedInv(w: Worker, td: TaskData, k: nat, rest: set<Id>) {
    && td.reply == Some(w.result.text)
    && |w.saved| == k <= |w.result.proposals|
    && (forall i :: 0 <= i < k ==> OnRecord(td, w.saved[i], w.result.proposals[i]))
    && (forall i, j :: 0 <= i < j < k ==> w.saved[i] != w.saved[j])
    && (forall id :: id in td.charts <==> id in w.saved || id in rest)
    && (forall id :: id in rest ==> id !in w.saved)
  }

  ghost predicate PcInv(w: Worker, td: TaskData) {
    var status := w.item.status;
    match w.pc
    case ToPlanning => false
    case ToRunning => status == Planning && w.saved == [] && w.open == map[]
    case AtRuntime => status == RunningTools && w.saved == [] && OpenInv(w.open, td)
    case ToValidating => status == RunningTools && w.saved == [] && OpenInv(w.open, td)
    case SaveMessage => status == Validating && td.reply.None? && w.saved == [] && OpenInv(w.open, td)
    case SaveChart(k) => status == Validating && k < |w.result.proposals| && SavedInv(w, td, k, {}) && OpenInv(w.open, td)
    case SaveExecution(k, draft) =>
      && status == Validating && k < |w.result.proposals| && SavedInv(w, td, k, {draft.id}) && OpenInv(w.open, td)
      && td.charts[draft.id] == draft && draft.status == Proposed
      && draft.title == w.result.proposals[k].title && draft.unit == w.result.proposals[k].unit
    case ToCompleted => status == Validating && SavedInv(w, td, |w.result.proposals|, {}) && OpenInv(w.open, td)
    case EmitCompleted =>
      && status == Completed && InPhase(td.log, JustCompleted)
      && SavedInv(w, td, |w.result.proposals|, {}) && OpenInv(w.open, td)
    case ClosingTools =>
      && (status == RunningTools || status == Validating || status == Completed)
      && !IsClosed(td.log) && OpenInv(w.open, td)
    case Failing => true
    case Finished => true
  }

  /** A worker past its first transition holds the current row; before that it may be stale,
      and then it can only try to transition or to fail, from created. */
  ghost predicate WorkerInv(db: Db, w: Worker) {
    w.pc != Finished ==>
      && w.item.id in db.tasks
      && CopyOf(w.item, db.tasks[w.item.id].row)
      && (w.pc == ToPlanning ==> w.open == map[] && w.saved == [])
      && (w.item.version == 1 ==> w.item.status == Created && (w.pc == ToPlanning || w.pc == Failing))
      && (w.item.version > 1 ==>
            w.item.version == db.tasks[w.item.id].row.version && PcInv(w, db.tasks[w.item.id]))
  }

  ghost predicate RowsClaimed(td: TaskData, rows: set<RowKey>) {
    && (forall id :: id in td.calls ==> RowKey(ToolCalls, id) in rows)
    && (forall id :: id in td.charts ==> RowKey(Charts, id) in rows)
    && (forall id :: id in td.executions ==> RowKey(Executions, id) in rows)
  }

  ghost predicate TaskOk(td: TaskData, id: Id, rows: set<RowKey>) {
    td.row.id == id && TaskInv(td) && RowsClaimed(td, rows)
  }

  ghost predicate TaskRowInv(db: Db, id: Id)
    requires id in db.tasks
  {
    TaskOk(db.tasks[id], id, db.rows)
  }

  /** What one task may look like after a step by anyone: its history only grows, and a
      closed history does not grow at all. */
  ghost predicate Evolves(td: TaskData, td': TaskData) {
    && td.log <= td'.log
    && td'.row.id == td.row.id && td'.row.tenant == td.row.tenant && td'.row.sessionId == td.row.sessionId
    && td'.row.inputMessageId == td.row.inputMessageId && td'.row.createdAt == td.row.createdAt
    && td'.row.views == td.row.views
    && (td.row.startedAt.Some? ==> td'.row.startedAt == td.row.startedAt)
    && (td.row.completedAt.Some? ==> td'.row.completedAt == td.row.completedAt && td'.row.error == td.row.error)
    && td.row.version <= td'.row.version
    && (td'.row.version == td.row.version ==> SameRow(td'.row, td.row))
    && (Terminal(td.row.status) ==> td'.row.status == td.row.status)
    && (IsClosed(td.log) ==> td' == td)
    && (forall id :: id in td.calls ==> id in td'.calls)
    && (forall id :: id in td.calls && td.calls[id].status != ToolCallStarted ==> td'.calls[id] == td.calls[id])
  }

  /** The effect of one step of `w`: only its own task is touched, and only if it held the current version. */
  ghost predicate StepOk(db: Db, w: Worker, db': Db, w': Worker) {
    var id := w.item.id;
    && id in db.tasks && id in db'.tasks
    && db'.sessions == db.sessions && db'.keys == db.keys && db.rows <= db'.rows
    && db'.tasks == db.tasks[id := db'.tasks[id]]
    && TaskRowInv(db', id)
    && Evolves(db.tasks[id], db'.tasks[id])
    && w'.item.id == id
    && WorkerInv(db', w')
    && (db'.tasks[id] != db.tasks[id] ==>
          w.item.version == db.tasks[id].row.version
          && (w.item.version == 1 ==> db'.tasks[id].row.version == 2))
    && (w'.item.version > 1 ==> w.item.version == db.tasks[id].row.version)
    && (w.item.version == 1 && w'.item.version > 1 ==> db'.tasks[id].row.version == 2)
  }

  lemma NoChangeOk(db: Db, w: Worker, w': Worker)
    requires w.item.id in db.tasks && TaskRowInv(db, w.item.id) && w.pc != Finished && WorkerInv(db, w)
    requires w'.item == w.item && WorkerInv(db, w')
    ensures StepOk(db, w, db, w')
  {
    assert db.tasks == db.tasks[w.item.id := db.tasks[w.item.id]];
  }

  ghost predicate Sound(db: Db, w: Worker) {
    w.pc != Finished && w.item.id in db.tasks && TaskRowInv(db, w.item.id) && WorkerInv(db, w)
  }

  lemma BrokenOk(db: Db, w: Worker, code: ErrorCode)
    requires Sound(db, w)
    requires !w.pc.Failing? && !w.pc.ClosingTools?
    ensures StepOk(db, w, db, Broken(w, code))
  {
    NoChangeOk(db, w, Broken(w, code));
  }

  /** A commit by the holder of the current version. */
  lemma CommitOk(db: Db, w: Worker, td': TaskData, rows': set<RowKey>, w': Worker)
    requires Sound(db, w) && w.item.version == db.tasks[w.item.id].row.version
    requires TaskInv(td') && RowsClaimed(td', rows') && db.rows <= rows'
    requires Evolves(db.tasks[w.item.id], td')
    requires w'.pc == Finished ==> w'.item.id == w.item.id
    requires w'.pc != Finished ==> SameRow(w'.item, td'.row) && PcInv(w', td')
    requires w'.item.version == td'.row.version > 1
    requires w.item.version == 1 ==> td'.row.version == 2
    ensures StepOk(db, w, Put(db, td').(rows := rows'), w')
  {
  }

  ghost predicate Moves(w: Worker, next: Status, then_: Pc) {
    || (w.pc == ToPlanning && next == Planning && then_ == ToRunning)
    || (w.pc == ToRunning && next == RunningTools && then_ == AtRuntime)
    || (w.pc == ToValidating && next == Validating && then_ == SaveMessage)
    || (w.pc == ToCompleted && next == Completed && then_ == EmitCompleted)
  }

  lemma TransitionStepOk(db: Db, w: Worker, c: Choice, next: Status, then_: Pc)
    requires Sound(db, w) && Moves(w, next, then_)
    ensures var (db', w') := TransitionStep(db, w, c, next, then_); StepOk(db, w, db', w')
  {
    TransitionOutcome(db, w.item, next, c.now);
    if c.fault {
      BrokenOk(db, w, InternalError);
    } else if !CanTransition(w.item.status, next) {
      BrokenOk(db, w, InvalidStateTransition);
    } else if w.item.version != db.tasks[w.item.id].row.version {
      BrokenOk(db, w, ResourceConflict);
    } else {
      TransitionCommit(db, w, next, then_, c.now);
    }
  }

  lemma SavedIsReady(td: TaskData, w: Worker)
    requires PcInv(w, td) && w.pc == ToCompleted
    ensures td.reply.Some? && AllReady(td)
  {
    forall id | id in td.charts ensures td.charts[id].latestExecution.Some? {
      var i :| 0 <= i < |w.saved| && w.saved[i] == id;
      assert OnRecord(td, w.saved[i], w.result.proposals[i]);
    }
  }

  lemma HolderMoves(db: Db, w: Worker, next: Status, then_: Pc)
    requires Sound(db, w) && Moves(w, next, then_) && w.item.version == db.tasks[w.item.id].row.version
    ensures var td := db.tasks[w.item.id];
            && SameRow(w.item, td.row) && next != Failed
            && (if w.pc == ToPlanning then w.open == map[] && w.saved == [] else PcInv(w, td))
            && (next == Completed ==> td.reply.Some? && AllReady(td))
  {
    if next == Completed {
      SavedIsReady(db.tasks[w.item.id], w);
    }
  }

  lemma TransitionCommit(db: Db, w: Worker, next: Status, then_: Pc, now: int)
    requires Sound(db, w) && Moves(w, next, then_)
    requires CanTransition(w.item.status, next) && w.item.version == db.tasks[w.item.id].row.version
    ensures var td := db.tasks[w.item.id];
            StepOk(db, w, Put(db, MovedData(td, next, now)), w.(item := MovedRow(td, next, now), pc := then_))
  {
    var td := db.tasks[w.item.id];
    HolderMoves(db, w, next, then_);
    MovedDataKeeps(td, next, now);
    MovedEvolves(td, next, now);
    MovedPc(td, w, next, then_, now);
    CommitOk(db, w, MovedData(td, next, now), db.rows, w.(item := MovedRow(td, next, now), pc := then_));
  }

  lemma MovedEvolves(td: TaskData, next: Status, now: int)
    requires RowInv(td) && CanTransition(td.row.status, next) && !IsClosed(td.log)
    ensures Evolves(td, MovedData(td, next, now))
  {
  }

  lemma MovedPc(td: TaskData, w: Worker, next: Status, then_: Pc, now: int)
    requires CanTransition(td.row.status, next)
    requires next == Completed ==> InPhase(MovedData(td, next, now).log, JustCompleted)
    requires SameRow(w.item, td.row) && TablesInv(td)
    requires if w.pc == ToPlanning then w.open == map[] && w.saved == [] else PcInv(w, td)
    requires Moves(w, next, then_)
    ensures PcInv(w.(item := MovedRow(td, next, now), pc := then_), MovedData(td, next, now))
  {
  }

  lemma AppendOutcome(db: Db, item: Task, td: TaskData, body: Payload)
    requires item.id in db.tasks && CopyOf(item, db.tasks[item.id].row)
    requires td.log == db.tasks[item.id].log && td.row == db.tasks[item.id].row && SequenceInv(td)
    ensures FindTask(db, item.tenant, item.id) == Success(db.tasks[item.id])
    ensures AppendEvent(td, item, body) == Success(Logged(td, body))
  {
    AppendSucceeds(td, item, body);
  }

  lemma LoggedEvolves(td: TaskData, td': TaskData, body: Payload)
    requires !IsClosed(td.log)
    requires td'.row == td.row.(latestSequence := |td.log| + 1) && td'.log == td.log + [Event(|td.log| + 1, body)]
    requires forall id :: id in td.calls ==> id in td'.calls
    requires forall id :: id in td.calls && td.calls[id].status != ToolCallStarted ==> td'.calls[id] == td.calls[id]
    ensures Evolves(td, td')
  {
  }

  ghost predicate PlainEvent(w: Worker, body: Payload, w': Worker) {
    || (w.pc == AtRuntime && w' == w.(ordinal := w'.ordinal)
        && (body.MessageStarted? || body.MessageDelta? || body.MetricCandidatesCreated?
            || body == ToolStarted(None) || body == ToolCompleted(None)))
    || (w.pc == EmitCompleted && body == TaskCompleted && w' == w.(pc := Finished))
  }

  lemma PlainCommit(db: Db, w: Worker, body: Payload, w': Worker)
    requires Sound(db, w) && w.item.version > 1 && PlainEvent(w, body, w')
    ensures StepOk(db, w, Put(db, Logged(db.tasks[w.item.id], body)).(rows := db.rows), w')
  {
    var td := db.tasks[w.item.id];
    PlainEventKeeps(td, body);
    LoggedEvolves(td, Logged(td, body), body);
    CommitOk(db, w, Logged(td, body), db.rows, w');
  }

  lemma PlainStepOk(db: Db, w: Worker, c: Choice, body: Payload, w': Worker)
    requires Sound(db, w) && w.item.version > 1 && PlainEvent(w, body, w')
    ensures var r := AppendTx(db, w.item, body);
            r.Success? && StepOk(db, w, r.value, w')
  {
    AppendOutcome(db, w.item, db.tasks[w.item.id], body);
    PlainCommit(db, w, body, w');
  }

  lemma StartOutcome(db: Db, item: Task, call: ToolCall)
    requires item.id in db.tasks && CopyOf(item, db.tasks[item.id].row) && SequenceInv(db.tasks[item.id])
    requires call.source != "" && call.tool != ""
    ensures StartToolTx(db, item, call).Success? ==>
            && RowKey(ToolCalls, call.id) !in db.rows
            && (forall id :: id in db.tasks[item.id].calls ==> db.tasks[item.id].calls[id].source != call.source)
            && StartToolTx(db, item, call).value ==
               Put(db.(rows := db.rows + {RowKey(ToolCalls, call.id)}),
                   Logged(db.tasks[item.id].(calls := db.tasks[item.id].calls[call.id := call]), ToolStarted(Some(call.id))))
  {
    AppendOutcome(db, item, db.tasks[item.id].(calls := db.tasks[item.id].calls[call.id := call]), ToolStarted(Some(call.id)));
  }

  lemma StartCommit(db: Db, w: Worker, call: ToolCall)
    requires Sound(db, w) && w.pc == AtRuntime && RowKey(ToolCalls, call.id) !in db.rows
    requires call.status == ToolCallStarted && CallRowInv(call) && '#' !in call.id
    requires forall id :: id in db.tasks[w.item.id].calls ==> db.tasks[w.item.id].calls[id].source != call.source
    ensures var td := db.tasks[w.item.id];
            var td' := Logged(td.(calls := td.calls[call.id := call]), ToolStarted(Some(call.id)));
            StepOk(db, w, Put(db, td').(rows := db.rows + {RowKey(ToolCalls, call.id)}), w.(open := w.open[call.source := call]))
  {
    var td := db.tasks[w.item.id];
    StartKeeps(td, call);
    StartedPc(td, w, call);
    CommitOk(db, w, Logged(td.(calls := td.calls[call.id := call]), ToolStarted(Some(call.id))),
             db.rows + {RowKey(ToolCalls, call.id)}, w.(open := w.open[call.source := call]));
  }

  lemma OpenInvStart(td: TaskData, open: map<Id, ToolCall>, call: ToolCall)
    requires OpenInv(open, td) && call.status == ToolCallStarted && call.id !in td.calls
    requires forall id :: id in td.calls ==> td.calls[id].source != call.source
    ensures OpenInv(open[call.source := call], td.(calls := td.calls[call.id := call]))
  {
  }

  lemma StartedPc(td: TaskData, w: Worker, call: ToolCall)
    requires PcInv(w, td) && w.pc == AtRuntime && !IsClosed(td.log)
    requires call.status == ToolCallStarted && call.id !in td.calls
    requires forall id :: id in td.calls ==> td.calls[id].source != call.source
    ensures var td' := Logged(td.(calls := td.calls[call.id := call]), ToolStarted(Some(call.id)));
            Evolves(td, td') && PcInv(w.(open := w.open[call.source := call]), td')
  {
    OpenInvStart(td, w.open, call);
  }

  lemma OpenInvClose(td: TaskData, open: map<Id, ToolCall>, source: Id, closed: ToolCall)
    requires OpenInv(open, td) && TablesInv(td) && source in open
    requires closed.id == open[source].id && closed.source == source && closed.status != ToolCallStarted
    ensures OpenInv(open - {source}, td.(calls := td.calls[closed.id := closed]))
  {
  }

  ghost predicate ClosesAs(w: Worker, source: Id, status: CallStatus, error: Option<ErrorCode>, body: Payload)
    requires source in w.open
  {
    || (w.pc == AtRuntime && status == ToolCallCompleted && error == None && body == ToolCompleted(Some(w.open[source].id)))
    || (w.pc == ClosingTools && status == ToolCallFailed && error.Some? && body == ToolFailed(w.open[source].id))
  }

  lemma OpenCallCloses(td: TaskData, w: Worker, source: Id, status: CallStatus, error: Option<ErrorCode>, now: int, body: Payload)
    requires TaskInv(td) && PcInv(w, td) && source in w.open && ClosesAs(w, source, status, error, body)
    requires w.pc == AtRuntime || w.pc == ClosingTools
    requires w.item.status == td.row.status
    ensures w.open[source].id in td.calls && td.calls[w.open[source].id] == w.open[source] && w.open[source].version == 1
    ensures Closes(td, ClosedCall(w.open[source], status, error, now), body) && !IsClosed(td.log)
  {
    assert CallRowInv(td.calls[w.open[source].id]);
  }

  lemma CloseToolOk(db: Db, w: Worker, source: Id, status: CallStatus, error: Option<ErrorCode>, now: int, body: Payload)
    requires Sound(db, w) && source in w.open && ClosesAs(w, source, status, error, body)
    ensures var call := ClosedCall(w.open[source], status, error, now);
            var r := CloseToolTx(db, w.item, call, body);
            r.Success? && StepOk(db, w, r.value, w.(open := w.open - {source}))
  {
    var td := db.tasks[w.item.id];
    var call := ClosedCall(w.open[source], status, error, now);
    OpenCallCloses(td, w, source, status, error, now, body);
    CloseToolOutcome(db, w.item, w.open[source], call, body);
    CloseCommit(db, w, source, call, body);
  }

  lemma CloseCommit(db: Db, w: Worker, source: Id, call: ToolCall, body: Payload)
    requires Sound(db, w) && source in w.open && (w.pc == AtRuntime || w.pc == ClosingTools)
    requires call.id == w.open[source].id && call.source == source && call.status != ToolCallStarted
    requires Closes(db.tasks[w.item.id], call, body) && !IsClosed(db.tasks[w.item.id].log)
    ensures var td := db.tasks[w.item.id];
            StepOk(db, w, Put(db, Logged(td.(calls := td.calls[call.id := call]), body)), w.(open := w.open - {source}))
  {
    var td := db.tasks[w.item.id];
    CloseKeeps(td, call, body);
    ClosedPc(td, w, source, call, body);
    CommitOk(db, w, Logged(td.(calls := td.calls[call.id := call]), body), db.rows, w.(open := w.open - {source}));
  }

  lemma CloseToolOutcome(db: Db, item: Task, before: ToolCall, call: ToolCall, body: Payload)
    requires item.id in db.tasks && CopyOf(item, db.tasks[item.id].row) && SequenceInv(db.tasks[item.id])
    requires before.id in db.tasks[item.id].calls && db.tasks[item.id].calls[before.id] == before
    requires before.version == 1 && call.version == 2 && call.id == before.id && call.status != ToolCallStarted
    ensures var td := db.tasks[item.id];
            CloseToolTx(db, item, call, body) == Success(Put(db, Logged(td.(calls := td.calls[call.id := call]), body)))
  {
    var td := db.tasks[item.id];
    AppendOutcome(db, item, td.(calls := td.calls[call.id := call]), body);
  }

  lemma ClosedPc(td: TaskData, w: Worker, source: Id, call: ToolCall, body: Payload)
    requires TablesInv(td) && PcInv(w, td) && source in w.open && !IsClosed(td.log)
    requires w.pc == AtRuntime || w.pc == ClosingTools
    requires call.id == w.open[source].id && call.source == source && call.status != ToolCallStarted
    requires !IsClosed(Logged(td, body).log)
    ensures var td' := Logged(td.(calls := td.calls[call.id := call]), body);
            Evolves(td, td') && PcInv(w.(open := w.open - {source}), td')
  {
    OpenInvClose(td, w.open, source, call);
  }

  lemma SinkOk(db: Db, w: Worker, c: Choice, e: AgentEvent)
    requires Sound(db, w) && w.pc == AtRuntime
    ensures var (db', w', _) := Sink(db, w, c, e); StepOk(db, w, db', w')
  {
    if e.kind == ToolStart && e.toolName != "" && e.sourceCallId != "" {
      SinkStartOk(db, w, c, e);
    } else if e.kind == ToolDone && e.toolName != "" && e.sourceCallId != "" && e.sourceCallId in w.open {
      SinkCloseOk(db, w, c, e);
    } else {
      SinkPlainOk(db, w, c, e);
    }
  }

  lemma SinkStartOk(db: Db, w: Worker, c: Choice, e: AgentEvent)
    requires Sound(db, w) && w.pc == AtRuntime && e.kind == ToolStart && e.toolName != "" && e.sourceCallId != ""
    ensures var (db', w', _) := Sink(db, w, c, e); StepOk(db, w, db', w')
  {
    StartOutcome(db, w.item, OpenedCall(c, e));
    if Guarded(c.fault, StartToolTx(db, w.item, OpenedCall(c, e))).Success? {
      StartCommit(db, w, OpenedCall(c, e));
    } else {
      NoChangeOk(db, w, w);
    }
  }

  lemma SinkCloses(db: Db, w: Worker, c: Choice, e: AgentEvent)
    requires e.kind == ToolDone && e.toolName != "" && e.sourceCallId != "" && e.sourceCallId in w.open && !c.fault
    requires var call := ClosedCall(w.open[e.sourceCallId], ToolCallCompleted, None, c.now);
             CloseToolTx(db, w.item, call, ToolCompleted(Some(call.id))).Success?
    ensures var call := ClosedCall(w.open[e.sourceCallId], ToolCallCompleted, None, c.now);
            Sink(db, w, c, e) == (CloseToolTx(db, w.item, call, ToolCompleted(Some(call.id))).value, w.(open := w.open - {e.sourceCallId}), None)
  {
  }

  lemma SinkCloseOk(db: Db, w: Worker, c: Choice, e: AgentEvent)
    requires Sound(db, w) && w.pc == AtRuntime && e.kind == ToolDone && e.toolName != ""
    requires e.sourceCallId != "" && e.sourceCallId in w.open
    ensures var (db', w', _) := Sink(db, w, c, e); StepOk(db, w, db', w')
  {
    if c.fault {
      SinkKeepsStore(db, w, c, e);
      NoChangeOk(db, w, w);
    } else {
      CloseToolOk(db, w, e.sourceCallId, ToolCallCompleted, None, c.now, ToolCompleted(Some(w.open[e.sourceCallId].id)));
      SinkCloses(db, w, c, e);
    }
  }

  /** The cases in which the sink refuses the event before touching the store. */
  predicate Refuses(e: AgentEvent) {
    e.kind == Unsupported || ((e.kind == ToolStart || e.kind == ToolDone) && e.toolName != "" && e.sourceCallId == "")
  }

  lemma SinkPlainOk(db: Db, w: Worker, c: Choice, e: AgentEvent)
    requires Sound(db, w) && w.pc == AtRuntime
    requires e.kind == ToolStart && e.toolName != "" ==> e.sourceCallId == ""
    requires e.kind == ToolDone && e.toolName != "" ==> e.sourceCallId == "" || e.sourceCallId !in w.open
    ensures var (db', w', _) := Sink(db, w, c, e); StepOk(db, w, db', w')
  {
    var w1 := if e.kind == Delta then w.(ordinal := w.ordinal + 1) else w;
    if c.fault || Refuses(e) {
      SinkKeepsStore(db, w, c, e);
      NoChangeOk(db, w, w1);
    } else {
      PlainStepOk(db, w, c, PlainBody(w1, e), w1);
      SinkLogs(db, w, c, e);
    }
  }

  lemma SinkKeepsStore(db: Db, w: Worker, c: Choice, e: AgentEvent)
    requires c.fault || Refuses(e)
    ensures var (db', w', _) := Sink(db, w, c, e);
            db' == db && w' == if e.kind == Delta then w.(ordinal := w.ordinal + 1) else w
  {
  }

  lemma SinkLogs(db: Db, w: Worker, c: Choice, e: AgentEvent)
    requires !c.fault && !Refuses(e) && !(e.kind == ToolStart && e.toolName != "")
    requires e.kind == ToolDone && e.toolName != "" ==> e.sourceCallId !in w.open
    requires AppendTx(db, w.item, PlainBody(if e.kind == Delta then w.(ordinal := w.ordinal + 1) else w, e)).Success?
    ensures var w1 := if e.kind == Delta then w.(ordinal := w.ordinal + 1) else w;
            Sink(db, w, c, e) == (AppendTx(db, w1.item, PlainBody(w1, e)).value, w1, None)
  {
  }

  lemma MessageOutcome(db: Db, item: Task, messageId: Id, content: string)
    requires item.id in db.tasks && CopyOf(item, db.tasks[item.id].row) && SequenceInv(db.tasks[item.id])
    requires db.tasks[item.id].reply.None?
    ensures SaveMessageTx(db, item, messageId, content) ==
            if RowKey(Messages, messageId) in db.rows then Failure(ResourceConflict)
            else Success(Put(db.(rows := db.rows + {RowKey(Messages, messageId)}),
                             Logged(db.tasks[item.id].(reply := Some(content)), MessageCompleted(content))))
  {
    AppendOutcome(db, item, db.tasks[item.id].(reply := Some(content)), MessageCompleted(content));
  }

  lemma MessageCommit(db: Db, w: Worker)
    requires Sound(db, w) && w.pc == SaveMessage
    ensures var td' := Logged(db.tasks[w.item.id].(reply := Some(w.result.text)), MessageCompleted(w.result.text));
            StepOk(db, w, Put(db, td').(rows := db.rows + {RowKey(Messages, w.messageId)}), w.(pc := NextProposal(w, 0)))
  {
    var td := db.tasks[w.item.id];
    var body := MessageCompleted(w.result.text);
    var td' := Logged(td.(reply := Some(w.result.text)), body);
    MessageKeeps(td, w.result.text);
    LoggedEvolves(td, td', body);
    CommitOk(db, w, td', db.rows + {RowKey(Messages, w.messageId)}, w.(pc := NextProposal(w, 0)));
  }

  lemma MessageStepOk(db: Db, w: Worker, c: Choice)
    requires Sound(db, w) && w.pc == SaveMessage
    ensures var (db', w') := MessageStep(db, w, c); StepOk(db, w, db', w')
  {
    MessageOutcome(db, w.item, w.messageId, w.result.text);
    if w.messageId == "" || Blank(w.result.text) {
      BrokenOk(db, w, InvalidArgument);
    } else if c.fault || RowKey(Messages, w.messageId) in db.rows {
      BrokenOk(db, w, if c.fault then InternalError else ResourceConflict);
    } else {
      MessageCommit(db, w);
    }
  }

  lemma ChartOutcome(db: Db, item: Task, draft: Chart)
    requires item.id in db.tasks && CopyOf(item, db.tasks[item.id].row) && SequenceInv(db.tasks[item.id])
    ensures var td := db.tasks[item.id];
            SaveChartTx(db, item, draft) ==
            if RowKey(Charts, draft.id) in db.rows then Failure(ResourceConflict)
            else Success(Put(db.(rows := db.rows + {RowKey(Charts, draft.id)}),
                             Logged(td.(charts := td.charts[draft.id := draft]), ChartCreated(draft.id, draft.title))))
  {
    var td := db.tasks[item.id];
    AppendOutcome(db, item, td.(charts := td.charts[draft.id := draft]), ChartCreated(draft.id, draft.title));
  }

  lemma ChartPc(td: TaskData, w: Worker, k: nat, draft: Chart, body: Payload)
    requires w.pc == SaveChart(k) && PcInv(w, td) && TablesInv(td)
    requires draft.id !in td.charts && draft.status == Proposed
    requires draft.title == w.result.proposals[k].title && draft.unit == w.result.proposals[k].unit
    ensures PcInv(w.(pc := SaveExecution(k, draft)), Logged(td.(charts := td.charts[draft.id := draft]), body))
  {
  }

  lemma ChartCommit(db: Db, w: Worker, k: nat, draft: Chart)
    requires Sound(db, w) && w.pc == SaveChart(k) && RowKey(Charts, draft.id) !in db.rows
    requires draft.id != "" && draft.status == Proposed && draft.version == 1 && draft.latestExecution.None?
    requires draft.title == w.result.proposals[k].title && draft.unit == w.result.proposals[k].unit
    ensures var td := db.tasks[w.item.id];
            var td' := Logged(td.(charts := td.charts[draft.id := draft]), ChartCreated(draft.id, draft.title));
            StepOk(db, w, Put(db, td').(rows := db.rows + {RowKey(Charts, draft.id)}), w.(pc := SaveExecution(k, draft)))
  {
    var td := db.tasks[w.item.id];
    var body := ChartCreated(draft.id, draft.title);
    var td' := Logged(td.(charts := td.charts[draft.id := draft]), body);
    ChartKeeps(td, draft);
    LoggedEvolves(td, td', body);
    ChartPc(td, w, k, draft, body);
    CommitOk(db, w, td', db.rows + {RowKey(Charts, draft.id)}, w.(pc := SaveExecution(k, draft)));
  }

  lemma ChartStepOk(db: Db, w: Worker, c: Choice, k: nat)
    requires Sound(db, w) && w.pc == SaveChart(k) && k < |w.result.proposals|
    ensures var (db', w') := ChartStep(db, w, c, k); StepOk(db, w, db', w')
  {
    var p := w.result.proposals[k];
    ChartOutcome(db, w.item, Draft(c, p));
    if c.id == "" || p.title == "" || p.unit == "" || !p.queryOk {
      BrokenOk(db, w, InvalidArgument);
    } else if c.fault || RowKey(Charts, c.id) in db.rows {
      BrokenOk(db, w, if c.fault then InternalError else ResourceConflict);
    } else {
      ChartCommit(db, w, k, Draft(c, p));
    }
  }

  lemma ExecutionStepOk(db: Db, w: Worker, c: Choice, k: nat, draft: Chart)
    requires Sound(db, w) && w.pc == SaveExecution(k, draft) && k < |w.result.proposals|
    ensures var (db', w') := ExecutionStep(db, w, c, k, draft); StepOk(db, w, db', w')
  {
    var ready := draft.(status := Ready, latestExecution := Some(c.id), version := draft.version + 1);
    var execution := Execution(draft.id, w.result.proposals[k].data);
    assert ChartRowInv(draft.id, draft, db.tasks[w.item.id].executions);
    ExecutionOutcome(db, w.item, c.id, execution, draft, ready);
    if c.id == "" {
      BrokenOk(db, w, InvalidStateTransition);
    } else if c.fault || RowKey(Executions, c.id) in db.rows {
      BrokenOk(db, w, if c.fault then InternalError else ResourceConflict);
    } else {
      ExecutionCommit(db, w, k, draft, ready, c.id);
    }
  }

  lemma ExecutionOutcome(db: Db, item: Task, executionId: Id, execution: Execution, draft: Chart, ready: Chart)
    requires item.id in db.tasks && CopyOf(item, db.tasks[item.id].row) && SequenceInv(db.tasks[item.id])
    requires draft.id in db.tasks[item.id].charts && db.tasks[item.id].charts[draft.id] == draft && draft.version == 1
    requires ready.id == draft.id && ready.version == 2 && execution.chartId == draft.id
    ensures var td := db.tasks[item.id];
            SaveExecutionTx(db, item, executionId, execution, ready) ==
            if RowKey(Executions, executionId) in db.rows then Failure(ResourceConflict)
            else Success(Put(db.(rows := db.rows + {RowKey(Executions, executionId)}),
                             Logged(WithExecution(td, ready, executionId, execution), ExecutionCompleted(ready.id, executionId))))
  {
    var td := db.tasks[item.id];
    var saved := td.(executions := td.executions[executionId := execution], charts := td.charts[ready.id := ready]);
    AppendOutcome(db, item, saved, ExecutionCompleted(ready.id, executionId));
  }

  ghost function WithExecution(td: TaskData, ready: Chart, executionId: Id, execution: Execution): TaskData {
    td.(charts := td.charts[ready.id := ready], executions := td.executions[executionId := execution])
  }

  lemma ExecutionPc(td: TaskData, w: Worker, k: nat, draft: Chart, ready: Chart, executionId: Id, body: Payload)
    requires w.pc == SaveExecution(k, draft) && PcInv(w, td) && executionId !in td.executions
    requires ready == draft.(status := Ready, latestExecution := Some(executionId), version := 2)
    ensures PcInv(w.(saved := w.saved + [draft.id], pc := NextProposal(w, k + 1)),
                  Logged(WithExecution(td, ready, executionId, Execution(draft.id, w.result.proposals[k].data)), body))
  {
    var w' := w.(saved := w.saved + [draft.id], pc := NextProposal(w, k + 1));
    var td' := Logged(WithExecution(td, ready, executionId, Execution(draft.id, w.result.proposals[k].data)), body);
    SavedGrows(td, w, k, draft, ready, executionId, td', w');
  }

  lemma SavedGrows(td: TaskData, w: Worker, k: nat, draft: Chart, ready: Chart, executionId: Id, td': TaskData, w': Worker)
    requires k < |w.result.proposals| && SavedInv(w, td, k, {draft.id}) && executionId !in td.executions
    requires draft.title == w.result.proposals[k].title && draft.unit == w.result.proposals[k].unit
    requires ready == draft.(status := Ready, latestExecution := Some(executionId), version := 2)
    requires td'.reply == td.reply && td'.charts == td.charts[ready.id := ready]
    requires td'.executions == td.executions[executionId := Execution(draft.id, w.result.proposals[k].data)]
    requires w'.result == w.result && w'.saved == w.saved + [draft.id]
    ensures SavedInv(w', td', k + 1, {})
  {
    forall i | 0 <= i < k + 1 ensures OnRecord(td', w'.saved[i], w.result.proposals[i]) {
      if i < k {
        assert w'.saved[i] == w.saved[i] && OnRecord(td, w.saved[i], w.result.proposals[i]);
        assert w.saved[i] in w.saved;
      }
    }
  }

  lemma ExecutionCommit(db: Db, w: Worker, k: nat, draft: Chart, ready: Chart, executionId: Id)
    requires Sound(db, w) && w.pc == SaveExecution(k, draft) && RowKey(Executions, executionId) !in db.rows
    requires draft.version == 1 && ready == draft.(status := Ready, latestExecution := Some(executionId), version := 2)
    ensures var td := db.tasks[w.item.id];
            var execution := Execution(draft.id, w.result.proposals[k].data);
            var td' := Logged(WithExecution(td, ready, executionId, execution), ExecutionCompleted(ready.id, executionId));
            StepOk(db, w, Put(db, td').(rows := db.rows + {RowKey(Executions, executionId)}),
                   w.(saved := w.saved + [draft.id], pc := NextProposal(w, k + 1)))
  {
    var td := db.tasks[w.item.id];
    var execution := Execution(draft.id, w.result.proposals[k].data);
    var body := ExecutionCompleted(ready.id, executionId);
    var td' := Logged(WithExecution(td, ready, executionId, execution), body);
    ExecutionKeeps(td, ready, executionId, execution);
    LoggedEvolves(td, td', body);
    ExecutionPc(td, w, k, draft, ready, executionId, body);
    CommitOk(db, w, td', db.rows + {RowKey(Executions, executionId)}, w.(saved := w.saved + [draft.id], pc := NextProposal(w, k + 1)));
  }

  lemma CloseGoes(db: Db, w: Worker, c: Choice, source: Id)
    requires w.open != map[] && source == LeastText(w.open.Keys) && !c.fault
    requires var call := ClosedCall(w.open[source], ToolCallFailed, Some(w.error), c.now);
             CloseToolTx(db, w.item, call, ToolFailed(call.id)).Success?
    ensures var call := ClosedCall(w.open[source], ToolCallFailed, Some(w.error), c.now);
            CloseStep(db, w, c) == (CloseToolTx(db, w.item, call, ToolFailed(call.id)).value, w.(open := w.open - {source}))
  {
  }

  lemma CloseStepOk(db: Db, w: Worker, c: Choice)
    requires Sound(db, w) && w.pc == ClosingTools
    ensures var (db', w') := CloseStep(db, w, c); StepOk(db, w, db', w')
  {
    if w.open == map[] || c.fault {
      CloseGivesUp(db, w, c);
      NoChangeOk(db, w, w.(pc := Failing));
    } else {
      var source := LeastText(w.open.Keys);
      CloseToolOk(db, w, source, ToolCallFailed, Some(w.error), c.now, ToolFailed(w.open[source].id));
      CloseGoes(db, w, c, source);
    }
  }

  lemma CloseGivesUp(db: Db, w: Worker, c: Choice)
    requires w.open == map[] || c.fault
    ensures CloseStep(db, w, c) == (db, w.(pc := Failing))
  {
  }

  lemma FailCommit(db: Db, w: Worker, now: int)
    requires Sound(db, w) && w.pc == Failing
    requires !Terminal(w.item.status) && w.item.version == db.tasks[w.item.id].row.version
    ensures var td := db.tasks[w.item.id];
            StepOk(db, w, Put(db, FailedData(td, w.error, now)), w.(item := FailedRow(td, w.error, now), pc := Finished))
  {
    var td := db.tasks[w.item.id];
    FailedDataKeeps(td, w.error, now);
    CommitOk(db, w, FailedData(td, w.error, now), db.rows, w.(item := FailedRow(td, w.error, now), pc := Finished));
  }

  lemma FailStepOk(db: Db, w: Worker, c: Choice)
    requires Sound(db, w) && w.pc == Failing
    ensures var (db', w') := FailStep(db, w, c); StepOk(db, w, db', w')
  {
    FailOutcome(db, w.item, w.error, c.now);
    if !Terminal(w.item.status) && !c.fault && w.item.version == db.tasks[w.item.id].row.version {
      FailCommit(db, w, c.now);
    } else {
      NoChangeOk(db, w, w.(pc := Finished));
    }
  }

  lemma RuntimeStepOk(db: Db, w: Worker, c: Choice)
    requires Sound(db, w) && w.pc == AtRuntime
    ensures var (db', w') := RuntimeStep(db, w, c); StepOk(db, w, db', w')
  {
    match c.move
    case Emit(e) => SinkOk(db, w, c, e);
    case Return(result) => NoChangeOk(db, w, w.(result := result, pc := ToValidating));
    case Abort(code) => BrokenOk(db, w, code);
  }

  lemma EmitCompletedStepOk(db: Db, w: Worker, c: Choice)
    requires Sound(db, w) && w.pc == EmitCompleted
    ensures var (db', w') := EmitCompletedStep(db, w, c); StepOk(db, w, db', w')
  {
    if c.fault {
      BrokenOk(db, w, InternalError);
    } else {
      PlainStepOk(db, w, c, TaskCompleted, w.(pc := Finished));
    }
  }

  lemma NamedTransitionOk(db: Db, w: Worker, c: Choice)
    requires Sound(db, w) && w.pc == ToRunning
    ensures var (db', w') := Step(db, w, c); StepOk(db, w, db', w')
  {
    TransitionStepOk(db, w.(messageId := c.id), c, RunningTools, AtRuntime);
  }

  lemma PersistStepOk(db: Db, w: Worker, c: Choice)
    requires Sound(db, w) && (w.pc == SaveMessage || w.pc.SaveChart? || w.pc.SaveExecution?)
    ensures var (db', w') := Step(db, w, c); StepOk(db, w, db', w')
  {
    match w.pc
    case SaveMessage => MessageStepOk(db, w, c);
    case SaveChart(k) => ChartStepOk(db, w, c, k);
    case SaveExecution(k, draft) => ExecutionStepOk(db, w, c, k, draft);
  }

  lemma CleanupStepOk(db: Db, w: Worker, c: Choice)
    requires Sound(db, w) && (w.pc == EmitCompleted || w.pc == ClosingTools || w.pc == Failing)
    ensures var (db', w') := Step(db, w, c); StepOk(db, w, db', w')
  {
    match w.pc
    case EmitCompleted => EmitCompletedStepOk(db, w, c);
    case ClosingTools => CloseStepOk(db, w, c);
    case Failing => FailStepOk(db, w, c);
  }

  /** Every step of every worker keeps the task it works on sound, whoever else has been at it. */
  lemma StepIsOk(db: Db, w: Worker, c: Choice)
    requires Sound(db, w)
    ensures var (db', w') := Step(db, w, c); StepOk(db, w, db', w')
  {
    if w.pc == ToRunning {
      NamedTransitionOk(db, w, c);
    } else if w.pc == AtRuntime {
      RuntimeStepOk(db, w, c);
    } else if w.pc == ToPlanning || w.pc == ToValidating || w.pc == ToCompleted {
      PlainTransitionOk(db, w, c);
    } else if w.pc == SaveMessage || w.pc.SaveChart? || w.pc.SaveExecution? {
      PersistStepOk(db, w, c);
    } else {
      CleanupStepOk(db, w, c);
    }
  }

  lemma PlainTransitionOk(db: Db, w: Worker, c: Choice)
    requires Sound(db, w) && (w.pc == ToPlanning || w.pc == ToValidating || w.pc == ToCompleted)
    ensures var (db', w') := Step(db, w, c); StepOk(db, w, db', w')
  {
    match w.pc
    case ToPlanning => TransitionStepOk(db, w, c, Planning, ToRunning);
    case ToValidating => TransitionStepOk(db, w, c, Validating, SaveMessage);
    case ToCompleted => TransitionStepOk(db, w, c, Completed, EmitCompleted);
  }
}
