/** When a completed task's log has its task.completed: the fate of the report, over whole runs. */
module Reporting {
  import opened Basics
  import opened TaskLifecycle
  import opened EventLog
  import opened Database
  import opened TaskInvariant
  import opened Worker
  import opened WorkerInvariant
  import opened Creation
  import opened System
  import opened Guarantees
  import opened RunGuarantees
  import opened Settling
  import R = Recovery

  ghost predicate Over(td: TaskData) {
    td.row.status == Completed
  }

  /** Completed, and the log says so. */
  ghost predicate Told(td: TaskData) {
    Over(td) && IsClosed(td.log)
  }

  /** What one step of a worker does to its task's report: only the report's own step tells, and a worker
      comes to stand at the report exactly when it completes the task. */
  ghost predicate Fated(td: TaskData, w: Worker, c: Choice, td': TaskData, w': Worker) {
    && (Over(td) ==> Over(td'))
    && (Told(td') <==> Told(td) || (w.pc == EmitCompleted && !c.fault))
    && (w'.pc == EmitCompleted <==> Over(td') && !Over(td))
  }

  lemma MovedFate(td: TaskData, td': TaskData, w: Worker, w': Worker, next: Status, then_: Pc)
    requires Moves(w, next, then_) && CanTransition(td.row.status, next) && td'.row.status == next && w'.pc == then_
    requires then_ == EmitCompleted ==> PcInv(w', td')
    ensures forall c :: Fated(td, w, c, td', w')
  {
  }

  lemma CommitFate(db: Db, w: Worker, c: Choice, next: Status, then_: Pc)
    requires Sound(db, w) && Moves(w, next, then_) && w.item.version == db.tasks[w.item.id].row.version
    ensures var td := db.tasks[w.item.id];
            Fated(td, w, c, MovedData(td, next, c.now), w.(item := MovedRow(td, next, c.now), pc := then_))
  {
    var td := db.tasks[w.item.id];
    CurrentMayMove(db, w, next, then_);
    TransitionCommit(db, w, next, then_, c.now);
    MovedFate(td, MovedData(td, next, c.now), w, w.(item := MovedRow(td, next, c.now), pc := then_), next, then_);
  }

  lemma RefusedFate(td: TaskData, w: Worker, c: Choice, code: ErrorCode, next: Status, then_: Pc)
    requires Moves(w, next, then_)
    ensures Fated(td, w, c, td, Broken(w, code))
  {
  }

  lemma TransitionFate(db: Db, w: Worker, c: Choice, next: Status, then_: Pc)
    requires Sound(db, w) && Moves(w, next, then_)
    ensures var (db', w') := TransitionStep(db, w, c, next, then_);
            w.item.id in db'.tasks && Fated(db.tasks[w.item.id], w, c, db'.tasks[w.item.id], w')
  {
    var td := db.tasks[w.item.id];
    TransitionOutcome(db, w.item, next, c.now);
    if !c.fault && CanTransition(w.item.status, next) && w.item.version == td.row.version {
      CommitFate(db, w, c, next, then_);
    } else {
      RefusedFate(td, w, c, TransitionStep(db, w, c, next, then_).1.error, next, then_);
    }
  }

  lemma SameStatusFate(td: TaskData, td': TaskData, w: Worker, w': Worker, c: Choice)
    requires td'.row.status == td.row.status && w'.pc != EmitCompleted && w.pc != EmitCompleted
    requires !IsClosed(td.log) && (Over(td') ==> !IsClosed(td'.log))
    ensures Fated(td, w, c, td', w')
  {
  }

  lemma WorkFate(db: Db, w: Worker, c: Choice)
    requires Sound(db, w) && (w.pc == AtRuntime || w.pc == SaveMessage || w.pc.SaveChart? || w.pc.SaveExecution?)
    ensures var (db', w') := Step(db, w, c);
            w.item.id in db'.tasks && Fated(db.tasks[w.item.id], w, c, db'.tasks[w.item.id], w')
  {
    StepIsOk(db, w, c);
    WorkKeepsItem(db, w, c);
    WorkStatus(db.tasks[w.item.id], w);
    var (db', w') := Step(db, w, c);
    WorkIsNotReport(db, w, c);
    UnfinishedIsOpen(db.tasks[w.item.id]);
    RowStands(db, w, db', w');
    SameStatusFate(db.tasks[w.item.id], db'.tasks[w.item.id], w, w', c);
  }

  lemma WorkIsNotReport(db: Db, w: Worker, c: Choice)
    requires w.pc == AtRuntime || w.pc == SaveMessage || w.pc.SaveChart? || w.pc.SaveExecution?
    ensures Step(db, w, c).1.pc != EmitCompleted
  {
  }

  lemma UnfinishedIsOpen(td: TaskData)
    requires LogInv(td) && !Terminal(td.row.status)
    ensures !IsClosed(td.log)
  {
  }

  /** A step after which the worker has the same copy and still holds it has left the row alone. */
  lemma RowStands(db: Db, w: Worker, db': Db, w': Worker)
    requires Sound(db, w) && StepOk(db, w, db', w') && w.item.version > 1 && w'.item == w.item && w'.pc != Finished
    ensures db'.tasks[w.item.id].row.status == db.tasks[w.item.id].row.status == w.item.status
  {
  }

  lemma CloseFate(db: Db, w: Worker, c: Choice)
    requires Sound(db, w) && w.pc == ClosingTools
    ensures var (db', w') := CloseStep(db, w, c);
            w.item.id in db'.tasks && Fated(db.tasks[w.item.id], w, c, db'.tasks[w.item.id], w')
  {
    CloseStepOk(db, w, c);
    if w.open == map[] || c.fault {
      CloseGivesUp(db, w, c);
    } else {
      CloseKeepsCopy(db, w, c);
      RowStands(db, w, CloseStep(db, w, c).0, CloseStep(db, w, c).1);
      CloseLeavesOpen(db, w, CloseStep(db, w, c).0, CloseStep(db, w, c).1);
      SameStatusFate(db.tasks[w.item.id], CloseStep(db, w, c).0.tasks[w.item.id], w, CloseStep(db, w, c).1, c);
    }
  }

  lemma CloseKeepsCopy(db: Db, w: Worker, c: Choice)
    requires w.pc == ClosingTools
    ensures var (db', w') := CloseStep(db, w, c);
            w'.item == w.item && (w'.pc == ClosingTools || (w'.pc == Failing && db' == db))
  {
  }

  lemma CloseLeavesOpen(db: Db, w: Worker, db': Db, w': Worker)
    requires Sound(db, w) && w.pc == ClosingTools && StepOk(db, w, db', w') && w'.item == w.item
    requires w'.pc == ClosingTools || (w'.pc == Failing && db' == db)
    ensures !IsClosed(db.tasks[w.item.id].log) && !IsClosed(db'.tasks[w.item.id].log)
  {
  }

  lemma FailFate(db: Db, w: Worker, c: Choice)
    requires Sound(db, w) && w.pc == Failing
    ensures var (db', w') := FailStep(db, w, c);
            w.item.id in db'.tasks && Fated(db.tasks[w.item.id], w, c, db'.tasks[w.item.id], w')
  {
    FailOutcome(db, w.item, w.error, c.now);
  }

  lemma ReportFate(db: Db, w: Worker, c: Choice)
    requires Sound(db, w) && w.pc == EmitCompleted
    ensures var (db', w') := EmitCompletedStep(db, w, c);
            w.item.id in db'.tasks && Fated(db.tasks[w.item.id], w, c, db'.tasks[w.item.id], w')
  {
    if !c.fault {
      CompletionClosesTheLog(db, w, c);
    }
  }

  lemma StepIsFated(db: Db, w: Worker, c: Choice)
    requires Sound(db, w)
    ensures var (db', w') := Step(db, w, c);
            w.item.id in db'.tasks && Fated(db.tasks[w.item.id], w, c, db'.tasks[w.item.id], w')
  {
    match w.pc
    case ToPlanning => TransitionFate(db, w, c, Planning, ToRunning);
    case ToRunning => TransitionFate(db, w.(messageId := c.id), c, RunningTools, AtRuntime);
    case ToValidating => TransitionFate(db, w, c, Validating, SaveMessage);
    case ToCompleted => TransitionFate(db, w, c, Completed, EmitCompleted);
    case EmitCompleted => ReportFate(db, w, c);
    case ClosingTools => CloseFate(db, w, c);
    case Failing => FailFate(db, w, c);
    case _ => WorkFate(db, w, c);
  }

  // -------------------------------------------------------------- one step of the system

  ghost predicate IsOver(db: Db, t: Id) {
    t in db.tasks && Over(db.tasks[t])
  }

  ghost predicate IsTold(db: Db, t: Id) {
    t in db.tasks && Told(db.tasks[t])
  }

  ghost predicate AtReport(w: Worker, t: Id) {
    w.pc == EmitCompleted && w.item.id == t
  }

  /** A worker stands between completing the task and reporting it. */
  ghost predicate Pending(workers: map<nat, Worker>, t: Id) {
    exists k :: k in workers && AtReport(workers[k], t)
  }

  ghost predicate RunsReport(s: State, l: Label, t: Id) {
    l.Run? && s.mode == Serving && l.runner in s.workers && AtReport(s.workers[l.runner], t)
  }

  ghost predicate MakesReport(s: State, l: Label, t: Id) {
    RunsReport(s, l, t) && !l.choice.fault
  }

  /** The report's transaction faults, or the process goes down before it. */
  ghost predicate LosesReport(s: State, l: Label, t: Id) {
    (RunsReport(s, l, t) && l.choice.fault) || (l.Crash? && Pending(s.workers, t))
  }

  ghost predicate FateMoves(s: State, l: Label, s': State, t: Id) {
    && (IsOver(s.db, t) ==> IsOver(s'.db, t))
    && (IsTold(s'.db, t) <==> IsTold(s.db, t) || MakesReport(s, l, t))
    && (Pending(s'.workers, t) <==>
          (Pending(s.workers, t) && !MakesReport(s, l, t) && !LosesReport(s, l, t)) || (IsOver(s'.db, t) && !IsOver(s.db, t)))
  }

  lemma PendingIsOver(s: State, k: nat, t: Id)
    requires StateInv(s) && k in s.workers && AtReport(s.workers[k], t)
    ensures IsOver(s.db, t) && !IsTold(s.db, t) && s.workers[k].item.version > 1
  {
    RunnerIsSound(s, k);
  }

  lemma OneAtReport(s: State, k: nat, j: nat, t: Id)
    requires StateInv(s) && k in s.workers && j in s.workers && j != k && AtReport(s.workers[k], t)
    ensures !AtReport(s.workers[j], t)
  {
    PendingIsOver(s, k, t);
    if AtReport(s.workers[j], t) {
      PendingIsOver(s, j, t);
    }
  }

  /** A worker at the report stands there alone, over a completed task. */
  ghost predicate SoleReporter(s: State, k: nat, t: Id)
    requires k in s.workers
  {
    AtReport(s.workers[k], t) ==> IsOver(s.db, t) && forall j :: j in s.workers && j != k ==> !AtReport(s.workers[j], t)
  }

  lemma ReporterIsSole(s: State, k: nat, t: Id)
    requires StateInv(s) && k in s.workers
    ensures SoleReporter(s, k, t)
  {
    if AtReport(s.workers[k], t) {
      PendingIsOver(s, k, t);
      forall j | j in s.workers && j != k ensures !AtReport(s.workers[j], t) {
        OneAtReport(s, k, j, t);
      }
    }
  }

  lemma PendingAmong(workers: map<nat, Worker>, k: nat, w': Worker, t: Id)
    requires k in workers
    ensures Pending(workers[k := w'], t) <==> AtReport(w', t) || exists j :: j in workers && j != k && AtReport(workers[j], t)
    ensures Pending(workers, t) <==> AtReport(workers[k], t) || exists j :: j in workers && j != k && AtReport(workers[j], t)
  {
    if AtReport(w', t) {
      assert AtReport(workers[k := w'][k], t);
    }
    forall j | j in workers && j != k && AtReport(workers[j], t) ensures Pending(workers[k := w'], t) {
      assert AtReport(workers[k := w'][j], t);
    }
  }

  /** Over all tasks: only the worker's own changes its fate, as its step says. */
  ghost predicate TasksFated(db: Db, w: Worker, c: Choice, db': Db, w': Worker, t: Id) {
    && (IsOver(db, t) ==> IsOver(db', t))
    && (IsTold(db', t) <==> IsTold(db, t) || (AtReport(w, t) && !c.fault))
    && (AtReport(w', t) <==> IsOver(db', t) && !IsOver(db, t))
  }

  lemma StepFatesTasks(db: Db, w: Worker, c: Choice, t: Id)
    requires Sound(db, w)
    ensures TasksFated(db, w, c, Step(db, w, c).0, Step(db, w, c).1, t)
  {
    StepIsOk(db, w, c);
    StepIsFated(db, w, c);
    OneTaskFated(db, w, c, Step(db, w, c).0, Step(db, w, c).1, t);
  }

  lemma OneTaskFated(db: Db, w: Worker, c: Choice, db': Db, w': Worker, t: Id)
    requires w.item.id in db.tasks && w.item.id in db'.tasks && db'.tasks == db.tasks[w.item.id := db'.tasks[w.item.id]]
    requires w'.item.id == w.item.id && Fated(db.tasks[w.item.id], w, c, db'.tasks[w.item.id], w')
    ensures TasksFated(db, w, c, db', w', t)
  {
  }

  lemma LiveRunFate(s: State, k: nat, c: Choice, db': Db, w': Worker, t: Id)
    requires s.mode == Serving && k in s.workers && SoleReporter(s, k, t)
    requires TasksFated(s.db, s.workers[k], c, db', w', t)
    ensures FateMoves(s, Run(k, c), s.(db := db', workers := s.workers[k := w']), t)
  {
    PendingAmong(s.workers, k, w', t);
  }

  lemma RunFate(s: State, k: nat, c: Choice, t: Id)
    requires StateInv(s) && s.mode == Serving && k in s.workers
    ensures FateMoves(s, Run(k, c), Apply(s, Run(k, c)), t)
  {
    RunApplied(s, k, c);
    if s.workers[k].pc == Finished {
      FinishedStep(s.db, s.workers[k], c);
      PendingAmong(s.workers, k, s.workers[k], t);
    } else {
      RunnerIsSound(s, k);
      ReporterIsSole(s, k, t);
      StepFatesTasks(s.db, s.workers[k], c, t);
      LiveRunFate(s, k, c, Step(s.db, s.workers[k], c).0, Step(s.db, s.workers[k], c).1, t);
    }
  }

  lemma RecoveredIsNotOver(td: TaskData, now: int)
    requires !Terminal(td.row.status)
    ensures !Over(R.RecoveredOnce(td, now))
  {
  }

  lemma RecoverFate(s: State, now: int, t: Id)
    requires StateInv(s) && s.mode.Recovering? && |s.mode.items| > 0
    ensures FateMoves(s, Recover(now), Apply(s, Recover(now)), t)
  {
    R.RecoverApplied(s, now);
    RecoveredIsNotOver(s.db.tasks[s.mode.items[0].id], now);
    assert Apply(s, Recover(now)).workers == s.workers;
  }

  lemma NewTaskIsFresh(db: Db, req: TaskRequest, a: Attempt, t: Id)
    requires CreateTaskTx(db, req, a).Success?
    ensures var db' := CreateTaskTx(db, req, a).value.0;
            if t in db.tasks then t in db'.tasks && db'.tasks[t] == db.tasks[t] else !IsOver(db', t)
  {
    CreateTaskOutcome(db, req, a);
  }

  /** Steps that neither run a worker nor crash, and at most add tasks that are not over. */
  lemma QuietFate(s: State, l: Label, s': State, t: Id)
    requires !l.Run? && !l.Crash? && (Pending(s'.workers, t) <==> Pending(s.workers, t))
    requires if t in s.db.tasks then t in s'.db.tasks && s'.db.tasks[t] == s.db.tasks[t] else !IsOver(s'.db, t)
    ensures FateMoves(s, l, s', t)
  {
  }

  lemma SessionFate(s: State, l: Label, t: Id)
    requires DbInv(s.db) && l.NewSession?
    ensures FateMoves(s, l, Apply(s, l), t)
  {
    if s.mode == Serving && CreateSessionTx(s.db, l.sessionReq, l.clock, l.storeNow, l.sessionId).Success? {
      CreateSessionKeeps(s.db, l.sessionReq, l.clock, l.storeNow, l.sessionId);
    }
    QuietFate(s, l, Apply(s, l), t);
  }

  lemma TaskFate(s: State, l: Label, t: Id)
    requires l.NewTask?
    ensures FateMoves(s, l, Apply(s, l), t)
  {
    if s.mode == Serving && CreateTaskTx(s.db, l.req, l.attempt).Success? {
      NewTaskIsFresh(s.db, l.req, l.attempt, t);
    }
    QuietFate(s, l, Apply(s, l), t);
  }

  lemma NewcomerIsNotAtReport(workers: map<nat, Worker>, k: nat, w: Worker, t: Id)
    requires k !in workers && w.pc != EmitCompleted
    ensures Pending(workers[k := w], t) <==> Pending(workers, t)
  {
    forall j | j in workers && AtReport(workers[j], t) ensures Pending(workers[k := w], t) {
      assert AtReport(workers[k := w][j], t);
    }
  }

  lemma StartFate(s: State, l: Label, t: Id)
    requires l.StartRun?
    ensures FateMoves(s, l, Apply(s, l), t)
  {
    if s.mode == Serving && l.worker !in s.workers && l.task in s.db.tasks && s.db.tasks[l.task].row.status == Created {
      NewcomerIsNotAtReport(s.workers, l.worker, Start(s.db.tasks[l.task].row), t);
    }
    QuietFate(s, l, Apply(s, l), t);
  }

  lemma CrashFate(s: State, t: Id)
    ensures FateMoves(s, Crash, Apply(s, Crash), t)
  {
  }

  lemma IdleFate(s: State, l: Label, t: Id)
    requires Apply(s, l).db == s.db && Apply(s, l).workers == s.workers
    requires !l.Crash? && (l.Run? ==> s.mode != Serving || l.runner !in s.workers)
    ensures FateMoves(s, l, Apply(s, l), t)
  {
  }

  lemma LabelIsFated(s: State, l: Label, t: Id)
    requires StateInv(s)
    ensures FateMoves(s, l, Apply(s, l), t)
  {
    match l
    case Recover(now) =>
      if s.mode.Recovering? && |s.mode.items| > 0 { RecoverFate(s, now, t); } else { IdleFate(s, l, t); }
    case Run(k, c) =>
      if s.mode == Serving && k in s.workers { RunFate(s, k, c, t); } else { IdleFate(s, l, t); }
    case StartRun(_, _) => StartFate(s, l, t);
    case NewSession(_, _, _, _) => SessionFate(s, l, t);
    case NewTask(_, _) => TaskFate(s, l, t);
    case Crash => CrashFate(s, t);
    case _ => IdleFate(s, l, t);
  }

  // ------------------------------------------------------------------------- whole runs

  ghost predicate MadeAt(labels: seq<Label>, i: nat, t: Id)
    requires i < |labels|
  {
    MakesReport(Execute(EMPTY, labels[..i]), labels[i], t)
  }

  ghost predicate LostAt(labels: seq<Label>, i: nat, t: Id)
    requires i < |labels|
  {
    LosesReport(Execute(EMPTY, labels[..i]), labels[i], t)
  }

  /** Somewhere in the run the report was made. */
  ghost predicate ReportMade(labels: seq<Label>, t: Id) {
    exists i :: 0 <= i < |labels| && MadeAt(labels, i, t)
  }

  /** Somewhere in the run the report's transaction faulted, or the process went down before it. */
  ghost predicate ReportLost(labels: seq<Label>, t: Id) {
    exists i :: 0 <= i < |labels| && LostAt(labels, i, t)
  }

  lemma PrefixTellsSame(labels: seq<Label>, more: seq<Label>, i: nat, t: Id)
    requires i < |labels|
    ensures MadeAt(labels + more, i, t) == MadeAt(labels, i, t)
    ensures LostAt(labels + more, i, t) == LostAt(labels, i, t)
  {
    assert (labels + more)[..i] == labels[..i] && (labels + more)[i] == labels[i];
  }

  lemma LastTells(labels: seq<Label>, l: Label, t: Id)
    ensures MadeAt(labels + [l], |labels|, t) == MakesReport(Execute(EMPTY, labels), l, t)
    ensures LostAt(labels + [l], |labels|, t) == LosesReport(Execute(EMPTY, labels), l, t)
  {
    assert (labels + [l])[..|labels|] == labels;
  }

  lemma OneMoreMade(labels: seq<Label>, l: Label, t: Id, made: bool)
    requires forall i :: 0 <= i < |labels| ==> MadeAt(labels + [l], i, t) == MadeAt(labels, i, t)
    requires MadeAt(labels + [l], |labels|, t) == made
    ensures ReportMade(labels + [l], t) <==> ReportMade(labels, t) || made
  {
    if ReportMade(labels, t) {
      var i :| 0 <= i < |labels| && MadeAt(labels, i, t);
      assert MadeAt(labels + [l], i, t);
    }
  }

  lemma OneMoreLost(labels: seq<Label>, l: Label, t: Id, lost: bool)
    requires forall i :: 0 <= i < |labels| ==> LostAt(labels + [l], i, t) == LostAt(labels, i, t)
    requires LostAt(labels + [l], |labels|, t) == lost
    ensures ReportLost(labels + [l], t) <==> ReportLost(labels, t) || lost
  {
    if ReportLost(labels, t) {
      var i :| 0 <= i < |labels| && LostAt(labels, i, t);
      assert LostAt(labels + [l], i, t);
    }
  }

  lemma OneMoreLabel(labels: seq<Label>, l: Label, t: Id)
    ensures ReportMade(labels + [l], t) <==> ReportMade(labels, t) || MakesReport(Execute(EMPTY, labels), l, t)
    ensures ReportLost(labels + [l], t) <==> ReportLost(labels, t) || LosesReport(Execute(EMPTY, labels), l, t)
  {
    forall i | 0 <= i < |labels|
      ensures MadeAt(labels + [l], i, t) == MadeAt(labels, i, t)
      ensures LostAt(labels + [l], i, t) == LostAt(labels, i, t)
    {
      PrefixTellsSame(labels, [l], i, t);
    }
    LastTells(labels, l, t);
    OneMoreMade(labels, l, t, MakesReport(Execute(EMPTY, labels), l, t));
    OneMoreLost(labels, l, t, LosesReport(Execute(EMPTY, labels), l, t));
  }

  /** Where a report may be: exactly one place, once the task is completed. */
  ghost predicate FateKnown(labels: seq<Label>, t: Id) {
    var s := Execute(EMPTY, labels);
    var made, lost, pending := ReportMade(labels, t), ReportLost(labels, t), Pending(s.workers, t);
    && (IsTold(s.db, t) <==> made)
    && (IsOver(s.db, t) <==> made || lost || pending)
    && !(made && lost) && !(made && pending) && !(lost && pending)
  }

  lemma PendingIsUntold(s: State, t: Id)
    requires StateInv(s)
    ensures Pending(s.workers, t) ==> !IsTold(s.db, t)
  {
    if Pending(s.workers, t) {
      var k :| k in s.workers && AtReport(s.workers[k], t);
      PendingIsOver(s, k, t);
    }
  }

  lemma LossNeedsPending(s: State, l: Label, t: Id)
    ensures MakesReport(s, l, t) || LosesReport(s, l, t) ==> Pending(s.workers, t)
    ensures !(MakesReport(s, l, t) && LosesReport(s, l, t))
  {
  }

  /** In every run, of every task: the log of a completed task is closed exactly if its report was made,
      and otherwise either a worker still stands before the report, or the report's own transaction
      faulted, or a crash came before it; never two of these. */
  lemma {:induction false} FateOfTheReport(labels: seq<Label>, t: Id)
    ensures FateKnown(labels, t)
  {
    if |labels| > 0 {
      var pre, l := labels[..|labels| - 1], labels[|labels| - 1];
      FateOfTheReport(pre, t);
      ReachableIsSound(pre);
      FateGoesOn(labels, t);
    }
  }

  lemma FateGoesOn(labels: seq<Label>, t: Id)
    requires |labels| > 0 && FateKnown(labels[..|labels| - 1], t) && StateInv(Execute(EMPTY, labels[..|labels| - 1]))
    ensures FateKnown(labels, t)
  {
    var before, l := Execute(EMPTY, labels[..|labels| - 1]), labels[|labels| - 1];
    assert labels == labels[..|labels| - 1] + [l];
    OneMoreLabel(labels[..|labels| - 1], l, t);
    LabelIsFated(before, l, t);
    LossNeedsPending(before, l, t);
    PendingIsUntold(before, t);
    OneMoreFate(before, l, Execute(EMPTY, labels), t, ReportMade(labels[..|labels| - 1], t), ReportLost(labels[..|labels| - 1], t));
  }

  lemma OneMoreFate(s: State, l: Label, s': State, t: Id, made: bool, lost: bool)
    requires FateMoves(s, l, s', t)
    requires MakesReport(s, l, t) || LosesReport(s, l, t) ==> Pending(s.workers, t)
    requires !(MakesReport(s, l, t) && LosesReport(s, l, t))
    requires (IsTold(s.db, t) <==> made) && (IsOver(s.db, t) <==> made || lost || Pending(s.workers, t))
    requires !(made && lost) && !(made && Pending(s.workers, t)) && !(lost && Pending(s.workers, t))
    ensures var made', lost' := made || MakesReport(s, l, t), lost || LosesReport(s, l, t);
            && (IsTold(s'.db, t) <==> made')
            && (IsOver(s'.db, t) <==> made' || lost' || Pending(s'.workers, t))
            && !(made' && lost') && !(made' && Pending(s'.workers, t)) && !(lost' && Pending(s'.workers, t))
  {
  }

  /** The same of one completed task, in plain terms. */
  lemma ReportIsMissingExactly(labels: seq<Label>, t: Id)
    requires IsOver(Execute(EMPTY, labels).db, t)
    ensures var s := Execute(EMPTY, labels);
            && (IsClosed(s.db.tasks[t].log) <==> ReportMade(labels, t))
            && (!IsClosed(s.db.tasks[t].log) <==> Pending(s.workers, t) || ReportLost(labels, t))
  {
    FateOfTheReport(labels, t);
  }

  /** A lost report stays lost, whatever runs, crashes and recoveries follow. */
  lemma LostReportStaysLost(labels: seq<Label>, more: seq<Label>, t: Id)
    requires ReportLost(labels, t)
    ensures var db := Execute(EMPTY, labels + more).db; IsOver(db, t) && !IsClosed(db.tasks[t].log)
  {
    var i :| 0 <= i < |labels| && LostAt(labels, i, t);
    PrefixTellsSame(labels, more, i, t);
    FateOfTheReport(labels + more, t);
  }

  // --------------------------------------------------------------- the reported result

  lemma ReportStepRebuilds(s: State, k: nat, c: Choice, t: Id)
    requires StateInv(s) && MakesReport(s, Run(k, c), t)
    ensures var db := Apply(s, Run(k, c)).db;
            t in db.tasks && IsClosed(db.tasks[t].log) && Rebuilt(s.workers[k], db.tasks[t])
  {
    var w := s.workers[k];
    RunnerIsSound(s, k);
    RunApplied(s, k, c);
    CompletedRun(s.db, w);
    CompletionClosesTheLog(s.db, w, c);
    RebuiltThrough(w, s.db.tasks[t]);
  }

  lemma ClosedStays(s: State, more: seq<Label>, t: Id)
    requires StateInv(s) && t in s.db.tasks && IsClosed(s.db.tasks[t].log)
    ensures t in Execute(s, more).db.tasks && Execute(s, more).db.tasks[t] == s.db.tasks[t]
  {
    RunsAreSound(s, more);
    assert Evolves(s.db.tasks[t], Execute(s, more).db.tasks[t]);
  }

  /** Every reported run is faithfully rebuilt, and stays so: from any sound state, whatever else runs
      afterwards, the log of the task is closed, and any client that reads it shows status completed, the
      assistant's text, and one chart with its execution per proposal, in order. */
  lemma ReportedRunIsRebuilt(s: State, k: nat, c: Choice, more: seq<Label>, t: Id)
    requires StateInv(s) && MakesReport(s, Run(k, c), t)
    ensures var db := Execute(Apply(s, Run(k, c)), more).db;
            t in db.tasks && IsClosed(db.tasks[t].log) && Rebuilt(s.workers[k], db.tasks[t])
  {
    ReportStepRebuilds(s, k, c, t);
    ApplyKeeps(s, Run(k, c));
    ClosedStays(Apply(s, Run(k, c)), more, t);
  }
}
