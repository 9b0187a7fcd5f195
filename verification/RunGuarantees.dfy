/** What a whole run of the workflow leaves behind. */
module RunGuarantees {
  import opened Basics
  import opened TaskLifecycle
  import opened EventLog
  import opened ClientView
  import opened Database
  import opened TaskInvariant
  import opened Worker
  import opened WorkerInvariant
  import opened Creation
  import opened System
  import opened Guarantees
  import opened Workflow
  import opened Ordering
  import R = Recovery

  ghost function RunLabels(k: nat, choices: seq<Choice>): seq<Label> {
    seq(|choices|, i requires 0 <= i < |choices| => Run(k, choices[i]))
  }

  /** A worker driven alone is a run of the system. */
  lemma {:induction false} DriveIsARun(s: State, k: nat, choices: seq<Choice>)
    requires s.mode == Serving && k in s.workers
    ensures Execute(s, RunLabels(k, choices))
            == s.(db := Drive(s.db, s.workers[k], choices).0, workers := s.workers[k := Drive(s.db, s.workers[k], choices).1])
  {
    if |choices| > 0 {
      var pre := choices[..|choices| - 1];
      DriveIsARun(s, k, pre);
      assert RunLabels(k, choices)[..|choices| - 1] == RunLabels(k, pre);
    } else {
      assert s.workers[k := s.workers[k]] == s.workers;
    }
  }

  ghost function Solo(db: Db, t: Id): State
    requires t in db.tasks
  {
    State(db, Serving, map[0 := Start(db.tasks[t].row)])
  }

  lemma SoloIsSound(db: Db, t: Id)
    requires DbInv(db) && t in db.tasks && db.tasks[t].row.status == Created
    ensures StateInv(Solo(db, t))
  {
    var empty := State(db, Serving, map[]);
    StartKeepsState(empty, 0, t);
    assert Apply(empty, StartRun(0, t)).workers == Solo(db, t).workers;
  }

  lemma SoloRun(db: Db, t: Id, choices: seq<Choice>)
    requires t in db.tasks
    ensures var (db', w) := Drive(db, Start(db.tasks[t].row), choices);
            Execute(Solo(db, t), RunLabels(0, choices)) == State(db', Serving, map[0 := w])
  {
    DriveIsARun(Solo(db, t), 0, choices);
    var w := Drive(db, Start(db.tasks[t].row), choices).1;
    assert Solo(db, t).workers[0 := w] == map[0 := w];
  }

  ghost predicate SoundAlone(db: Db, w: Worker) {
    StateInv(State(db, Serving, map[0 := w]))
  }

  /** A run from a sound database leaves a sound one, in which only histories have grown. */
  lemma RunIsSound(db: Db, t: Id, choices: seq<Choice>)
    requires DbInv(db) && t in db.tasks && db.tasks[t].row.status == Created
    ensures var (db', w) := Drive(db, Start(db.tasks[t].row), choices);
            DbInv(db') && DbEvolves(db, db') && SoundAlone(db', w)
  {
    SoloIsSound(db, t);
    SoloRun(db, t, choices);
    RunsAreSound(Solo(db, t), RunLabels(0, choices));
  }

  lemma LastStep(db: Db, w: Worker, choices: seq<Choice>)
    requires |choices| > 0
    ensures var (mid, m) := Drive(db, w, choices[..|choices| - 1]);
            Drive(db, w, choices) == Step(mid, m, choices[|choices| - 1])
  {
  }

  /** Every successful run is faithfully rebuilt: its log is closed, and any client that reads it
      shows status completed, the assistant's text, and one chart with its execution per proposal. */
  lemma SuccessfulRun(db: Db, t: Id, choices: seq<Choice>)
    requires DbInv(db) && t in db.tasks && db.tasks[t].row.status == Created
    requires Drive(db, Start(db.tasks[t].row), choices).1.pc == Finished
    requires ReportedLast(db, Start(db.tasks[t].row), choices)
    ensures var (db', w) := Drive(db, Start(db.tasks[t].row), choices);
            w.item.id in db'.tasks && IsClosed(db'.tasks[w.item.id].log)
            && Rebuilt(w, db'.tasks[w.item.id])
  {
    var pre := choices[..|choices| - 1];
    RunIsSound(db, t, pre);
    LastStep(db, Start(db.tasks[t].row), choices);
    var (before, w0) := Drive(db, Start(db.tasks[t].row), pre);
    ReportSucceeds(before, w0, choices[|choices| - 1]);
  }

  lemma AloneIsSound(db: Db, w: Worker)
    requires SoundAlone(db, w) && w.pc != Finished
    ensures Sound(db, w)
  {
    var s := State(db, Serving, map[0 := w]);
    assert s.workers[0] == w;
    RunnerIsSound(s, 0);
  }

  lemma ReportSucceeds(db: Db, w: Worker, c: Choice)
    requires SoundAlone(db, w) && w.pc == EmitCompleted && Step(db, w, c).1.pc == Finished
    ensures var (db', w') := Step(db, w, c);
            w'.item.id in db'.tasks && IsClosed(db'.tasks[w'.item.id].log) && Rebuilt(w', db'.tasks[w'.item.id])
  {
    AloneIsSound(db, w);
    ReportMeansNoFault(db, w, c);
    CompletedRun(db, w);
    CompletionClosesTheLog(db, w, c);
    RebuiltThrough(w, db.tasks[w.item.id]);
  }

  lemma ReportMeansNoFault(db: Db, w: Worker, c: Choice)
    requires w.pc == EmitCompleted && Step(db, w, c).1.pc == Finished
    ensures !c.fault
  {
  }

  lemma RebuiltThrough(w: Worker, td: TaskData)
    requires Rebuilt(w, td) && Fold(Logged(td, TaskCompleted).log) == Fold(td.log).(latestSequence := |td.log| + 1)
    ensures Rebuilt(w.(pc := Finished), Logged(td, TaskCompleted))
  {
  }

  // ------------------------------------------------------------ runs without faults

  /** The worker holds the current row and, without faults, has its cleanup in hand. */
  ghost predicate InHand(db: Db, w: Worker) {
    && w.item.id in db.tasks && TaskRowInv(db, w.item.id)
    && (w.pc != Finished ==> Sound(db, w) && w.item.version == db.tasks[w.item.id].row.version)
    && ((w.pc == Failing || w.pc == ClosingTools) ==> !Terminal(w.item.status) && w.item.version > 1)
    && (w.pc == Failing ==> w.open == map[] && OpenInv(w.open, db.tasks[w.item.id]))
    && (w.pc == Finished ==> Settled(w, db.tasks[w.item.id]))
  }

  /** The task is over and told so, a failed one with the run's own error, and its only unclosed calls are
      those a successful runtime left. */
  ghost predicate Settled(w: Worker, td: TaskData) {
    && IsClosed(td.log) && Terminal(td.row.status) && OpenInv(w.open, td)
    && (td.row.status == Failed ==> w.open == map[] && td.row.error == Some(w.error))
  }

  lemma MoveInHand(db: Db, w: Worker, next: Status, then_: Pc, now: int)
    requires InHand(db, w) && Moves(w, next, then_) && CanTransition(w.item.status, next)
    ensures InHand(Put(db, MovedData(db.tasks[w.item.id], next, now)),
                   w.(item := MovedRow(db.tasks[w.item.id], next, now), pc := then_))
  {
    TransitionCommit(db, w, next, then_, now);
  }

  lemma CurrentMayMove(db: Db, w: Worker, next: Status, then_: Pc)
    requires Sound(db, w) && Moves(w, next, then_) && w.item.version == db.tasks[w.item.id].row.version
    ensures CanTransition(w.item.status, next)
  {
  }

  lemma TransitionInHand(db: Db, w: Worker, c: Choice, next: Status, then_: Pc)
    requires InHand(db, w) && !c.fault && Moves(w, next, then_)
    ensures var (db', w') := TransitionStep(db, w, c, next, then_); InHand(db', w')
  {
    CurrentMayMove(db, w, next, then_);
    MoveInHand(db, w, next, then_, c.now);
    TransitionOutcome(db, w.item, next, c.now);
  }

  lemma WorkKeepsItem(db: Db, w: Worker, c: Choice)
    requires w.pc == AtRuntime || w.pc == SaveMessage || w.pc.SaveChart? || w.pc.SaveExecution?
    ensures var w' := Step(db, w, c).1;
            w'.item == w.item && w'.pc != Failing && w'.pc != Finished
  {
  }

  lemma WorkStatus(td: TaskData, w: Worker)
    requires PcInv(w, td) && (w.pc == AtRuntime || w.pc == SaveMessage || w.pc.SaveChart? || w.pc.SaveExecution?)
    ensures !Terminal(w.item.status)
  {
  }

  lemma WorkInHand(db: Db, w: Worker, c: Choice)
    requires InHand(db, w) && (w.pc == AtRuntime || w.pc == SaveMessage || w.pc.SaveChart? || w.pc.SaveExecution?)
    ensures var (db', w') := Step(db, w, c); InHand(db', w')
  {
    StepIsOk(db, w, c);
    WorkKeepsItem(db, w, c);
    WorkStatus(db.tasks[w.item.id], w);
    var (db', w') := Step(db, w, c);
    StepOkInHand(db, w, db', w');
  }

  lemma StepOkInHand(db: Db, w: Worker, db': Db, w': Worker)
    requires StepOk(db, w, db', w') && w'.item == w.item && w'.item.version > 1
    requires w'.pc != Failing && w'.pc != Finished && !Terminal(w.item.status)
    ensures InHand(db', w')
  {
  }

  lemma ReportInHand(db: Db, w: Worker, c: Choice)
    requires InHand(db, w) && w.pc == EmitCompleted && !c.fault
    ensures var (db', w') := Step(db, w, c); InHand(db', w')
  {
    var td := db.tasks[w.item.id];
    CompletionClosesTheLog(db, w, c);
    PlainEventKeeps(td, TaskCompleted);
    ReportSettles(td, w);
  }

  lemma ReportSettles(td: TaskData, w: Worker)
    requires PcInv(w, td) && w.pc == EmitCompleted && SameRow(w.item, td.row) && IsClosed(Logged(td, TaskCompleted).log)
    ensures Settled(w.(pc := Finished), Logged(td, TaskCompleted))
  {
  }

  lemma CloseInHand(db: Db, w: Worker, c: Choice)
    requires InHand(db, w) && w.pc == ClosingTools && !c.fault
    ensures var (db', w') := Step(db, w, c); InHand(db', w')
  {
    if w.open != map[] {
      var source := LeastText(w.open.Keys);
      CloseToolOk(db, w, source, ToolCallFailed, Some(w.error), c.now, ToolFailed(w.open[source].id));
      CloseGoes(db, w, c, source);
      var call := ClosedCall(w.open[source], ToolCallFailed, Some(w.error), c.now);
      StepOkInHand(db, w, CloseToolTx(db, w.item, call, ToolFailed(call.id)).value, w.(open := w.open - {source}));
    }
  }

  lemma FailInHand(db: Db, w: Worker, c: Choice)
    requires InHand(db, w) && w.pc == Failing && !c.fault
    ensures var (db', w') := Step(db, w, c); InHand(db', w')
  {
    FailOutcome(db, w.item, w.error, c.now);
    FailCommit(db, w, c.now);
    FailSettles(db.tasks[w.item.id], w, c.now);
  }

  lemma FailSettles(td: TaskData, w: Worker, now: int)
    requires TaskInv(td) && !Terminal(td.row.status) && w.open == map[] && OpenInv(w.open, td)
    ensures Settled(w.(item := FailedRow(td, w.error, now), pc := Finished), FailedData(td, w.error, now))
  {
    FailedDataKeeps(td, w.error, now);
  }

  lemma StepInHand(db: Db, w: Worker, c: Choice)
    requires InHand(db, w) && !c.fault
    ensures var (db', w') := Step(db, w, c); InHand(db', w')
  {
    match w.pc
    case ToPlanning => TransitionInHand(db, w, c, Planning, ToRunning);
    case ToRunning => TransitionInHand(db, w.(messageId := c.id), c, RunningTools, AtRuntime);
    case ToValidating => TransitionInHand(db, w, c, Validating, SaveMessage);
    case ToCompleted => TransitionInHand(db, w, c, Completed, EmitCompleted);
    case EmitCompleted => ReportInHand(db, w, c);
    case ClosingTools => CloseInHand(db, w, c);
    case Failing => FailInHand(db, w, c);
    case Finished =>
    case _ => WorkInHand(db, w, c);
  }

  lemma {:induction false} DriveInHand(db: Db, w: Worker, choices: seq<Choice>)
    requires InHand(db, w) && forall c :: c in choices ==> !c.fault
    ensures var (db', w') := Drive(db, w, choices); InHand(db', w')
  {
    if |choices| > 0 {
      var pre := choices[..|choices| - 1];
      DriveInHand(db, w, pre);
      var (mid, m) := Drive(db, w, pre);
      StepInHand(mid, m, choices[|choices| - 1]);
    }
  }

  lemma StartInHand(db: Db, t: Id)
    requires TasksInv(db.tasks, db.rows) && t in db.tasks && db.tasks[t].row.status == Created
    ensures InHand(db, Start(db.tasks[t].row))
  {
    assert TaskOk(db.tasks[t], t, db.rows);
    FirstVersion(db.tasks[t]);
  }

  /** Without store faults a run that ends leaves its task settled: terminal, with the terminal event
      in the log, every call of a failed run closed, and of a successful one every call the runtime closed. */
  lemma FaultFreeRunSettles(db: Db, t: Id, choices: seq<Choice>)
    requires DbInv(db) && t in db.tasks && db.tasks[t].row.status == Created
    requires (forall c :: c in choices ==> !c.fault) && Drive(db, Start(db.tasks[t].row), choices).1.pc == Finished
    ensures var (db', w) := Drive(db, Start(db.tasks[t].row), choices);
            w.item.id in db'.tasks && Settled(w, db'.tasks[w.item.id])
  {
    StartInHand(db, t);
    DriveInHand(db, Start(db.tasks[t].row), choices);
  }

  // ---------------------------------------------------------------- the cause on record

  /** The run cannot go on from here: the runtime gives up, or what it returned cannot be stored. */
  ghost predicate BreaksOn(w: Worker, c: Choice, code: ErrorCode) {
    || (w.pc == AtRuntime && c.move == Abort(code))
    || (w.pc == SaveMessage && Blank(w.result.text) && code == InvalidArgument)
    || (w.pc.SaveChart? && w.pc.k < |w.result.proposals| && code == InvalidArgument
        && (var p := w.result.proposals[w.pc.k]; p.title == "" || p.unit == "" || !p.queryOk))
  }

  /** The run has broken on `code`; its cleanup is under way or has failed the task. */
  ghost predicate Cleaning(db: Db, w: Worker, code: ErrorCode) {
    && InHand(db, w) && w.error == code
    && (w.pc == ClosingTools || w.pc == Failing || (w.pc == Finished && db.tasks[w.item.id].row.status == Failed))
  }

  lemma BreakStep(db: Db, w: Worker, c: Choice, code: ErrorCode)
    requires BreaksOn(w, c, code)
    ensures Step(db, w, c) == (db, w.(error := code, pc := ClosingTools))
  {
  }

  lemma BreakIsCleaned(db: Db, w: Worker, c: Choice, code: ErrorCode)
    requires InHand(db, w) && BreaksOn(w, c, code)
    ensures var (db', w') := Step(db, w, c); db' == db && Cleaning(db', w', code)
  {
    BreakStep(db, w, c, code);
    WorkInHand(db, w, c);
  }

  lemma CloseIsCleaning(db: Db, w: Worker, c: Choice, code: ErrorCode)
    requires Cleaning(db, w, code) && w.pc == ClosingTools && !c.fault
    ensures var (db', w') := Step(db, w, c); Cleaning(db', w', code)
  {
    CloseInHand(db, w, c);
  }

  lemma FailIsCleaning(db: Db, w: Worker, c: Choice, code: ErrorCode)
    requires Cleaning(db, w, code) && w.pc == Failing && !c.fault
    ensures var (db', w') := Step(db, w, c); Cleaning(db', w', code)
  {
    FailInHand(db, w, c);
    FailOutcome(db, w.item, w.error, c.now);
    FailCommit(db, w, c.now);
  }

  lemma CleaningStep(db: Db, w: Worker, c: Choice, code: ErrorCode)
    requires Cleaning(db, w, code) && !c.fault
    ensures var (db', w') := Step(db, w, c); Cleaning(db', w', code)
  {
    if w.pc == ClosingTools {
      CloseIsCleaning(db, w, c, code);
    } else if w.pc == Failing {
      FailIsCleaning(db, w, c, code);
    }
  }

  lemma {:induction false} CleaningGoesOn(db: Db, w: Worker, choices: seq<Choice>, code: ErrorCode)
    requires Cleaning(db, w, code) && forall c :: c in choices ==> !c.fault
    ensures var (db', w') := Drive(db, w, choices); Cleaning(db', w', code)
  {
    if |choices| > 0 {
      var pre, c := choices[..|choices| - 1], choices[|choices| - 1];
      CleaningGoesOn(db, w, pre, code);
      var (mid, m) := Drive(db, w, pre);
      CleaningStep(mid, m, c, code);
    }
  }

  /** Without store faults the error a failed task records is the one that broke the run: the runtime's
      own, or that what it returned is invalid. */
  lemma CauseIsRecorded(db: Db, w: Worker, c: Choice, code: ErrorCode, choices: seq<Choice>)
    requires InHand(db, w) && BreaksOn(w, c, code) && forall later :: later in choices ==> !later.fault
    requires Drive(Step(db, w, c).0, Step(db, w, c).1, choices).1.pc == Finished
    ensures var (db', w') := Drive(Step(db, w, c).0, Step(db, w, c).1, choices);
            && w'.item.id in db'.tasks && Settled(w', db'.tasks[w'.item.id])
            && db'.tasks[w'.item.id].row.status == Failed && db'.tasks[w'.item.id].row.error == Some(code)
  {
    BreakIsCleaned(db, w, c, code);
    CleaningGoesOn(Step(db, w, c).0, Step(db, w, c).1, choices, code);
  }

  // ------------------------------------------------------------- the lost report

  /** The report's own step closes the log exactly if it does not fault; the status is completed either
      way. Over whole runs a crash may come first: `Reporting.FateOfTheReport` says all there is. */
  lemma ReportIsLostByFault(db: Db, w: Worker, c: Choice)
    requires Sound(db, w) && w.pc == EmitCompleted
    ensures var (db', w') := Step(db, w, c);
            w.item.id in db'.tasks && db'.tasks[w.item.id].row.status == Completed
            && (IsClosed(db'.tasks[w.item.id].log) <==> !c.fault)
  {
    if c.fault {
      UnreportedIsOpen(db, w, c);
    } else {
      CompletionClosesTheLog(db, w, c);
    }
  }

  lemma UnreportedIsOpen(db: Db, w: Worker, c: Choice)
    requires Sound(db, w) && w.pc == EmitCompleted && c.fault
    ensures Step(db, w, c).0 == db && db.tasks[w.item.id].row.status == Completed && !IsClosed(db.tasks[w.item.id].log)
  {
  }

  /** No live worker holds the task, and it is over. */
  ghost predicate Abandoned(s: State, t: Id) {
    && t in s.db.tasks && Terminal(s.db.tasks[t].row.status)
    && forall k :: k in s.workers && s.workers[k].item.id == t ==> s.workers[k].pc == Finished
  }

  lemma FrozenByStep(s: State, k: nat, db': Db, w': Worker, t: Id)
    requires k in s.workers && s.workers[k].pc != Finished && StepOk(s.db, s.workers[k], db', w') && Abandoned(s, t)
    ensures Abandoned(s.(db := db', workers := s.workers[k := w']), t) && db'.tasks[t] == s.db.tasks[t]
  {
  }

  lemma FrozenByRun(s: State, k: nat, c: Choice, t: Id)
    requires StateInv(s) && s.mode == Serving && k in s.workers && Abandoned(s, t)
    ensures Abandoned(Apply(s, Run(k, c)), t) && Apply(s, Run(k, c)).db.tasks[t] == s.db.tasks[t]
  {
    var w := s.workers[k];
    if w.pc == Finished {
      assert Step(s.db, w, c) == (s.db, w);
    } else {
      RunnerIsSound(s, k);
      StepIsOk(s.db, w, c);
      FrozenByStep(s, k, Step(s.db, w, c).0, Step(s.db, w, c).1, t);
    }
  }

  lemma FrozenByStart(s: State, k: nat, task: Id, t: Id)
    requires StateInv(s) && Abandoned(s, t)
    ensures Abandoned(Apply(s, StartRun(k, task)), t) && Apply(s, StartRun(k, task)).db.tasks[t] == s.db.tasks[t]
  {
    if task in s.db.tasks {
      assert TaskOk(s.db.tasks[task], task, s.db.rows);
    }
  }

  lemma FrozenByRecovery(s: State, now: int, t: Id)
    requires StateInv(s) && s.mode.Recovering? && |s.mode.items| > 0 && Abandoned(s, t)
    ensures Abandoned(Apply(s, Recover(now)), t) && Apply(s, Recover(now)).db.tasks[t] == s.db.tasks[t]
  {
    R.RecoverApplied(s, now);
    RecoverKeeps(s, now);
  }

  lemma FrozenStep(s: State, l: Label, t: Id)
    requires StateInv(s) && Abandoned(s, t)
    ensures Abandoned(Apply(s, l), t) && Apply(s, l).db.tasks[t] == s.db.tasks[t]
  {
    match l
    case Recover(now) => if s.mode.Recovering? && |s.mode.items| > 0 { FrozenByRecovery(s, now, t); }
    case StartRun(k, task) => FrozenByStart(s, k, task, t);
    case Run(k, c) => if s.mode == Serving && k in s.workers { FrozenByRun(s, k, c, t); }
    case NewSession(req, clock, storeNow, id) =>
      if s.mode == Serving && CreateSessionTx(s.db, req, clock, storeNow, id).Success? {
        CreateSessionKeeps(s.db, req, clock, storeNow, id);
      }
    case NewTask(req, attempt) =>
      if s.mode == Serving && CreateTaskTx(s.db, req, attempt).Success? {
        CreateTaskKeeps(s.db, req, attempt);
      }
    case _ =>
  }

  /** Once no worker holds it, a task that is over never changes again, whatever runs, crashes and
      recoveries follow. So a report that was lost stays lost. */
  lemma {:induction false} FinishedTasksAreFrozen(s: State, labels: seq<Label>, t: Id)
    requires StateInv(s) && Abandoned(s, t)
    ensures Abandoned(Execute(s, labels), t) && Execute(s, labels).db.tasks[t] == s.db.tasks[t]
  {
    if |labels| > 0 {
      var pre := labels[..|labels| - 1];
      FinishedTasksAreFrozen(s, pre, t);
      RunsAreSound(s, pre);
      FrozenStep(Execute(s, pre), labels[|labels| - 1], t);
    }
  }
}
