/** One execution of the analysis workflow, as the steps between which other work may run. */
module Worker {
  import opened Basics
  import opened TaskLifecycle
  import opened EventLog
  import opened Database
  import opened Ordering

  datatype Proposal = Proposal(title: string, unit: string, queryOk: bool, data: string)

  datatype RunResult = RunResult(text: string, proposals: seq<Proposal>)

  datatype AgentKind = MessageStart | Delta | ToolStart | ToolDone | Metrics | Unsupported

  datatype AgentEvent = AgentEvent(kind: AgentKind, sourceCallId: Id, toolName: string, text: string)

  /** What the runtime does next: emit an event, return a result, or give up. */
  datatype Move = Emit(event: AgentEvent) | Return(result: RunResult) | Abort(code: ErrorCode)

  datatype Pc =
    | ToPlanning | ToRunning | AtRuntime | ToValidating
    | SaveMessage | SaveChart(k: nat) | SaveExecution(j: nat, draft: Chart)
    | ToCompleted | EmitCompleted | ClosingTools | Failing | Finished

  /** `saved` lists the charts persisted so far with their executions, in proposal order. */
  datatype Worker = Worker(
    pc: Pc, item: Task, messageId: Id, ordinal: nat, open: map<Id, ToolCall>,
    result: RunResult, saved: seq<Id>, error: ErrorCode)

  /** Everything a step takes from outside: whether the store faults, the clock,
      the id the generator yields, and the runtime's move. */
  datatype Choice = Choice(fault: bool, now: int, id: GeneratedId, move: Move)

  function Start(item: Task): Worker {
    Worker(ToPlanning, item, "", 0, map[], RunResult("", []), [], InternalError)
  }

  /** A transaction that faults anywhere rolls back whole. */
  function Guarded<T>(fault: bool, r: Result<T>): Result<T> {
    if fault then Failure(InternalError) else r
  }

  predicate Blank(s: string) {
    forall c :: c in s ==> c == ' ' || c == '\t' || c == '\n' || c == '\r'
  }

  /** An error takes the worker to its cleanup; open calls exist only once the sink does. */
  function Broken(w: Worker, code: ErrorCode): Worker {
    w.(error := code, pc := if w.pc == ToPlanning || w.pc == ToRunning then Failing else ClosingTools)
  }

  function OpenedCall(c: Choice, e: AgentEvent): ToolCall {
    ToolCall(c.id, e.sourceCallId, e.toolName, ToolCallStarted, None, c.now, None, None, 1)
  }

  function ClosedCall(call: ToolCall, status: CallStatus, error: Option<ErrorCode>, now: int): ToolCall {
    call.(status := status, error := error, completedAt := Some(now),
          duration := Some(Elapsed(call.startedAt, now)), version := call.version + 1)
  }

  lemma ClosedCallWasClosed(before: ToolCall, status: CallStatus, error: Option<ErrorCode>, now: int)
    ensures WasClosed(before, ClosedCall(before, status, error, now), status, error, now)
  {
    ElapsedIs(before.startedAt, now);
  }

  lemma ElapsedIs(from: int, now: int)
    ensures Lasted(from, now, Elapsed(from, now))
  {
  }

  /** A committed closing leaves the call on record as closed, and every other call as it was. */
  lemma ClosingIsRecorded(db: Db, item: Task, before: ToolCall, status: CallStatus, error: Option<ErrorCode>, now: int, body: Payload)
    requires OnRow(db, item) && CloseToolTx(db, item, ClosedCall(before, status, error, now), body).Success?
    ensures var db' := CloseToolTx(db, item, ClosedCall(before, status, error, now), body).value;
            OnRow(db', item) && HoldsClosed(db', item.id, before, status, error, now) && OthersStand(db, db', item.id, before.id)
  {
    ClosedCallWasClosed(before, status, error, now);
  }

  /** A committed opening leaves the call on record as opened, and every other call as it was. */
  lemma OpeningIsRecorded(db: Db, item: Task, c: Choice, e: AgentEvent)
    requires OnRow(db, item) && StartToolTx(db, item, OpenedCall(c, e)).Success?
    ensures var db' := StartToolTx(db, item, OpenedCall(c, e)).value;
            && OnRow(db', item) && HoldsOpened(db', item.id, c.id, e.sourceCallId, e.toolName, c.now)
            && OthersStand(db, db', item.id, c.id)
            && db'.tasks[item.id].calls[c.id] == OpenedCall(c, e)
  {
  }

  function PlainBody(w: Worker, e: AgentEvent): Payload {
    match e.kind
    case MessageStart => MessageStarted(w.messageId)
    case Delta => MessageDelta(e.text, w.ordinal)
    case ToolStart => ToolStarted(None)
    case ToolDone => ToolCompleted(None)
    case _ => MetricCandidatesCreated
  }

  /** The durable sink: what one emitted agent event does to the store and to the sink. */
  function Sink(db: Db, w0: Worker, c: Choice, e: AgentEvent): (Db, Worker, Option<ErrorCode>) {
    if e.kind == Unsupported then (db, w0, Some(InvalidArgument)) else
    var w := if e.kind == Delta then w0.(ordinal := w0.ordinal + 1) else w0;
    if e.kind == ToolStart && e.toolName != "" then
      if e.sourceCallId == "" then (db, w, Some(InvalidArgument)) else
      match Guarded(c.fault, StartToolTx(db, w.item, OpenedCall(c, e)))
      case Success(db') => (db', w.(open := w.open[e.sourceCallId := OpenedCall(c, e)]), None)
      case Failure(code) => (db, w, Some(code))
    else if e.kind == ToolDone && e.toolName != "" && e.sourceCallId == "" then (db, w, Some(InvalidArgument))
    else if e.kind == ToolDone && e.toolName != "" && e.sourceCallId in w.open then
      var call := ClosedCall(w.open[e.sourceCallId], ToolCallCompleted, None, c.now);
      match Guarded(c.fault, CloseToolTx(db, w.item, call, ToolCompleted(Some(call.id))))
      case Success(db') => (db', w.(open := w.open - {e.sourceCallId}), None)
      case Failure(code) => (db, w, Some(code))
    else
      match Guarded(c.fault, AppendTx(db, w.item, PlainBody(w, e)))
      case Success(db') => (db', w, None)
      case Failure(code) => (db, w, Some(code))
  }

  function TransitionStep(db: Db, w: Worker, c: Choice, next: Status, then_: Pc): (Db, Worker) {
    match Guarded(c.fault, TransitionTx(db, w.item, next, c.now))
    case Success(done) => (done.0, w.(item := done.1, pc := then_))
    case Failure(code) => (db, Broken(w, code))
  }

  function NextProposal(w: Worker, k: nat): Pc {
    if k < |w.result.proposals| then SaveChart(k) else ToCompleted
  }

  function MessageStep(db: Db, w: Worker, c: Choice): (Db, Worker) {
    if w.messageId == "" || Blank(w.result.text) then (db, Broken(w, InvalidArgument)) else
    match Guarded(c.fault, SaveMessageTx(db, w.item, w.messageId, w.result.text))
    case Success(db') => (db', w.(pc := NextProposal(w, 0)))
    case Failure(code) => (db, Broken(w, code))
  }

  function Draft(c: Choice, p: Proposal): Chart {
    Chart(c.id, p.title, p.unit, Proposed, None, 1)
  }

  function ChartStep(db: Db, w: Worker, c: Choice, k: nat): (Db, Worker)
    requires k < |w.result.proposals|
  {
    var p := w.result.proposals[k];
    if c.id == "" || p.title == "" || p.unit == "" || !p.queryOk then (db, Broken(w, InvalidArgument)) else
    match Guarded(c.fault, SaveChartTx(db, w.item, Draft(c, p)))
    case Success(db') => (db', w.(pc := SaveExecution(k, Draft(c, p))))
    case Failure(code) => (db, Broken(w, code))
  }

  function ExecutionStep(db: Db, w: Worker, c: Choice, k: nat, draft: Chart): (Db, Worker)
    requires k < |w.result.proposals|
  {
    if draft.status != Proposed || c.id == "" then (db, Broken(w, InvalidStateTransition)) else
    var ready := draft.(status := Ready, latestExecution := Some(c.id), version := draft.version + 1);
    match Guarded(c.fault, SaveExecutionTx(db, w.item, c.id, Execution(draft.id, w.result.proposals[k].data), ready))
    case Success(db') => (db', w.(saved := w.saved + [draft.id], pc := NextProposal(w, k + 1)))
    case Failure(code) => (db, Broken(w, code))
  }

  function EmitCompletedStep(db: Db, w: Worker, c: Choice): (Db, Worker) {
    match Guarded(c.fault, AppendTx(db, w.item, TaskCompleted))
    case Success(db') => (db', w.(pc := Finished))
    case Failure(code) => (db, Broken(w, code))
  }

  /** Closes the first open call in source order; the first error gives the rest up. */
  function CloseStep(db: Db, w: Worker, c: Choice): (Db, Worker) {
    if w.open == map[] then (db, w.(pc := Failing)) else
    var source := LeastText(w.open.Keys);
    var call := ClosedCall(w.open[source], ToolCallFailed, Some(w.error), c.now);
    match Guarded(c.fault, CloseToolTx(db, w.item, call, ToolFailed(call.id)))
    case Success(db') => (db', w.(open := w.open - {source}))
    case Failure(_) => (db, w.(pc := Failing))
  }

  function FailStep(db: Db, w: Worker, c: Choice): (Db, Worker) {
    if Terminal(w.item.status) then (db, w.(pc := Finished)) else
    match Guarded(c.fault, FailTx(db, w.item, w.error, c.now))
    case Success(done) => (done.0, w.(item := done.1, pc := Finished))
    case Failure(_) => (db, w.(pc := Finished))
  }

  function RuntimeStep(db: Db, w: Worker, c: Choice): (Db, Worker) {
    match c.move
    case Emit(e) => var (db', w', _) := Sink(db, w, c, e); (db', w')
    case Return(result) => (db, w.(result := result, pc := ToValidating))
    case Abort(code) => (db, Broken(w, code))
  }

  function Step(db: Db, w: Worker, c: Choice): (Db, Worker) {
    match w.pc
    case ToPlanning => TransitionStep(db, w, c, Planning, ToRunning)
    case ToRunning => TransitionStep(db, w.(messageId := c.id), c, RunningTools, AtRuntime)
    case AtRuntime => RuntimeStep(db, w, c)
    case ToValidating => TransitionStep(db, w, c, Validating, SaveMessage)
    case SaveMessage => MessageStep(db, w, c)
    case SaveChart(k) => if k < |w.result.proposals| then ChartStep(db, w, c, k) else (db, w)
    case SaveExecution(k, draft) => if k < |w.result.proposals| then ExecutionStep(db, w, c, k, draft) else (db, w)
    case ToCompleted => TransitionStep(db, w, c, Completed, EmitCompleted)
    case EmitCompleted => EmitCompletedStep(db, w, c)
    case ClosingTools => CloseStep(db, w, c)
    case Failing => FailStep(db, w, c)
    case Finished => (db, w)
  }

  /** A worker running alone through a list of choices. */
  function Drive(db: Db, w: Worker, choices: seq<Choice>): (Db, Worker) {
    if |choices| == 0 then (db, w) else
      var (db', w') := Drive(db, w, choices[..|choices| - 1]);
      Step(db', w', choices[|choices| - 1])
  }
}
