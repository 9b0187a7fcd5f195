/** Runs from an empty database that show what can happen: a completed task whose report is lost to a
    fault or to a crash, and an expired key on which the early read and the transaction part. */
module Scenarios {
  import opened Basics
  import opened TaskLifecycle
  import opened EventLog
  import opened Database
  import opened TaskInvariant
  import opened Worker
  import opened WorkerInvariant
  import opened Creation
  import opened System
  import opened RunGuarantees
  import opened Settling
  import opened Reporting
  import opened ExactlyOnce

  const OWNER := SessionRequest("tenant", "user", "title", "session key", "session hash")
  const REQUEST := TaskRequest("tenant", "user", "session", "hello", [], "key", "hash")
  const FIRST := Attempt(0, 0, "task", "message")

  /** The first task of a new installation, with a worker about to run it. */
  const OPENING: seq<Label> := [Boot([]), Serve, NewSession(OWNER, 0, 0, "session"), NewTask(REQUEST, FIRST), StartRun(0, "task")]

  ghost function Opened(): State {
    var sessionKey := IdempotencyKey("tenant", Scope.CreateSession, "session key");
    State(Db(map["session" := Session("session", "tenant", "user", 0, 2)],
             map["task" := FreshTask(REQUEST, FIRST)],
             {RowKey(Messages, "message")},
             map[sessionKey := IdempotencyRecord("session hash", Some("session"), IDEMPOTENCY_TTL),
                 KeyOf(REQUEST) := IdempotencyRecord("hash", Some("task"), IDEMPOTENCY_TTL)]),
          Serving, map[0 := Start(FreshTask(REQUEST, FIRST).row)])
  }

  ghost function Founded(): State {
    var key := IdempotencyKey("tenant", Scope.CreateSession, "session key");
    State(Db(map["session" := Session("session", "tenant", "user", 0, 1)], map[], {},
             map[key := IdempotencyRecord("session hash", Some("session"), IDEMPOTENCY_TTL)]),
          Serving, map[])
  }

  lemma NotBlank()
    ensures !Blank("title") && !Blank("hello") && !Blank("done")
  {
    assert "title"[0] in "title" && "hello"[0] in "hello" && "done"[0] in "done";
  }

  lemma SessionIsFounded()
    ensures CreateSessionTx(EMPTY.db, OWNER, 0, 0, "session").Success?
    ensures CreateSessionTx(EMPTY.db, OWNER, 0, 0, "session").value.0 == Founded().db
  {
    NotBlank();
    var key := IdempotencyKey("tenant", Scope.CreateSession, "session key");
    assert SessionKeyOf(OWNER) == key;
    var reserved := Reserve(EMPTY.db, key, "session hash", 0, IDEMPOTENCY_TTL);
    assert reserved.Success? && reserved.value.1.None?;
  }

  /** The database inside the creating transaction, the key just reserved. */
  ghost function Claimed(): Db {
    Founded().db.(keys := Founded().db.keys[KeyOf(REQUEST) := IdempotencyRecord("hash", None, IDEMPOTENCY_TTL)])
  }

  lemma TaskIsInserted()
    ensures InsertTask(Claimed(), REQUEST, FIRST) ==
            Success((WithTask(Claimed(), REQUEST, FIRST, Session("session", "tenant", "user", 0, 1)), FreshTask(REQUEST, FIRST).row))
  {
    NotBlank();
    InsertTaskOutcome(Claimed(), REQUEST, FIRST);
    assert OwnedSession(Claimed(), "tenant", "user", "session").Success?;
    assert !Unnamed(REQUEST, FIRST);
    assert !Taken(Claimed(), REQUEST, FIRST);
  }

  lemma TaskIsCreated()
    ensures CreateTaskTx(Founded().db, REQUEST, FIRST).Success?
    ensures CreateTaskTx(Founded().db, REQUEST, FIRST).value.0 == Opened().db
  {
    assert Reserve(Founded().db, KeyOf(REQUEST), "hash", 0, IDEMPOTENCY_TTL) == Success((Claimed(), None));
    TaskIsInserted();
    var inserted := WithTask(Claimed(), REQUEST, FIRST, Session("session", "tenant", "user", 0, 1));
    InsertedIsCompleted(Founded().db, REQUEST, FIRST, Claimed(), inserted, FreshTask(REQUEST, FIRST).row);
  }

  const SERVING := State(EMPTY.db, Serving, map[])

  lemma ServiceStarts()
    ensures Execute(EMPTY, [Boot([]), Serve]) == SERVING
  {
    ExecuteOneMore(EMPTY, [], Boot([]));
    ExecuteOneMore(EMPTY, [Boot([])], Serve);
    assert [] + [Boot([])] == [Boot([])] && [Boot([])] + [Serve] == [Boot([]), Serve];
  }

  lemma OpeningApplies()
    ensures Apply(SERVING, NewSession(OWNER, 0, 0, "session")) == Founded()
    ensures Apply(Founded(), NewTask(REQUEST, FIRST)) == Opened().(workers := map[])
    ensures Apply(Opened().(workers := map[]), StartRun(0, "task")) == Opened()
  {
    SessionIsFounded();
    TaskIsCreated();
  }

  lemma OpeningRuns()
    ensures Execute(EMPTY, OPENING) == Opened()
  {
    var two := [Boot([]), Serve];
    var three := two + [NewSession(OWNER, 0, 0, "session")];
    var four := three + [NewTask(REQUEST, FIRST)];
    assert OPENING == four + [StartRun(0, "task")];
    ServiceStarts();
    OpeningApplies();
    ExecuteOneMore(EMPTY, two, NewSession(OWNER, 0, 0, "session"));
    ExecuteOneMore(EMPTY, three, NewTask(REQUEST, FIRST));
    ExecuteOneMore(EMPTY, four, StartRun(0, "task"));
  }

  // ------------------------------------------------------------ the two lost reports

  const REPLY := RunResult("done", [])

  /** No fault; the runtime answers at once, with text and no chart. */
  const GO := Choice(false, 0, "reply", Return(REPLY))
  const FAULT := GO.(fault := true)

  const STAGES := [ToPlanning, ToRunning, AtRuntime, ToValidating, SaveMessage, ToCompleted, EmitCompleted]

  ghost predicate AtStage(db: Db, w: Worker, n: nat)
    requires n < |STAGES|
  {
    && w.pc == STAGES[n] && w.item.id == "task"
    && (2 <= n <= 4 ==> w.messageId == "reply")
    && (3 <= n <= 4 ==> w.result == REPLY)
    && (n <= 4 ==> RowKey(Messages, "reply") !in db.rows)
  }

  /** Without a fault the holder's status step goes through. */
  lemma MoveOn(db: Db, w: Worker, next: Status, then_: Pc)
    requires InHand(db, w) && Moves(w, next, then_)
    ensures var (db', w') := TransitionStep(db, w, GO, next, then_);
            db'.rows == db.rows && w'.item.id == w.item.id && w' == w.(item := w'.item, pc := then_)
  {
    CurrentMayMove(db, w, next, then_);
    TransitionOutcome(db, w.item, next, 0);
  }

  lemma MovedStage(db: Db, w: Worker, n: nat, next: Status, then_: Pc)
    requires n < 6 && InHand(db, w) && Moves(w, next, then_) && STAGES[n + 1] == then_ && w.item.id == "task"
    requires (1 <= n <= 3 ==> w.messageId == "reply") && (n == 3 ==> w.result == REPLY)
    requires n <= 3 ==> RowKey(Messages, "reply") !in db.rows
    requires n != 2
    ensures AtStage(TransitionStep(db, w, GO, next, then_).0, TransitionStep(db, w, GO, next, then_).1, n + 1)
  {
    MoveOn(db, w, next, then_);
  }

  lemma NamedInHand(db: Db, w: Worker)
    requires InHand(db, w) && w.pc == ToRunning
    ensures InHand(db, w.(messageId := "reply"))
  {
  }

  lemma PlanningStage(db: Db, w: Worker)
    requires InHand(db, w) && AtStage(db, w, 0)
    ensures AtStage(Step(db, w, GO).0, Step(db, w, GO).1, 1)
  {
    MovedStage(db, w, 0, Planning, ToRunning);
  }

  lemma RunningStage(db: Db, w: Worker)
    requires InHand(db, w) && AtStage(db, w, 1)
    ensures AtStage(Step(db, w, GO).0, Step(db, w, GO).1, 2)
  {
    NamedInHand(db, w);
    MovedStage(db, w.(messageId := "reply"), 1, RunningTools, AtRuntime);
  }

  lemma ValidatingStage(db: Db, w: Worker)
    requires InHand(db, w) && AtStage(db, w, 3)
    ensures AtStage(Step(db, w, GO).0, Step(db, w, GO).1, 4)
  {
    MovedStage(db, w, 3, Validating, SaveMessage);
  }

  lemma CompletedStage(db: Db, w: Worker)
    requires InHand(db, w) && AtStage(db, w, 5)
    ensures AtStage(Step(db, w, GO).0, Step(db, w, GO).1, 6)
  {
    MovedStage(db, w, 5, Completed, EmitCompleted);
  }

  lemma MessageStage(db: Db, w: Worker)
    requires Sound(db, w) && AtStage(db, w, 4)
    ensures AtStage(Step(db, w, GO).0, Step(db, w, GO).1, 5)
  {
    NotBlank();
    MessageOutcome(db, w.item, "reply", "done");
    assert Step(db, w, GO) == MessageStep(db, w, GO);
  }

  lemma RuntimeStage(db: Db, w: Worker)
    requires AtStage(db, w, 2)
    ensures AtStage(Step(db, w, GO).0, Step(db, w, GO).1, 3)
  {
    assert Step(db, w, GO) == (db, w.(result := REPLY, pc := ToValidating));
  }

  lemma StageGoesOn(db: Db, w: Worker, n: nat)
    requires n < 6 && InHand(db, w) && AtStage(db, w, n)
    ensures AtStage(Step(db, w, GO).0, Step(db, w, GO).1, n + 1)
  {
    match n
    case 0 => PlanningStage(db, w);
    case 1 => RunningStage(db, w);
    case 2 => RuntimeStage(db, w);
    case 3 => ValidatingStage(db, w);
    case 4 => MessageStage(db, w);
    case 5 => CompletedStage(db, w);
  }

  ghost function Going(n: nat): seq<Choice> {
    seq(n, i => GO)
  }

  lemma OpenedIsInHand()
    ensures InHand(Opened().db, Opened().workers[0])
  {
    OpeningRuns();
    ReachableIsSound(OPENING);
    StartInHand(Opened().db, "task");
  }

  lemma OneMoreGoes(db: Db, w: Worker, n: nat)
    ensures var (mid, m) := Drive(db, w, Going(n)); Drive(db, w, Going(n + 1)) == Step(mid, m, GO)
  {
    assert Going(n + 1)[..n] == Going(n);
  }

  lemma {:induction false} DriveReachesStage(n: nat, db: Db, w: Worker)
    requires n < |STAGES| && InHand(db, w) && AtStage(db, w, 0)
    ensures AtStage(Drive(db, w, Going(n)).0, Drive(db, w, Going(n)).1, n)
  {
    if n > 0 {
      DriveReachesStage(n - 1, db, w);
      DriveInHand(db, w, Going(n - 1));
      OneMoreGoes(db, w, n - 1);
      StageGoesOn(Drive(db, w, Going(n - 1)).0, Drive(db, w, Going(n - 1)).1, n - 1);
    }
  }

  /** The task is completed and its worker stands before the report. */
  ghost function ToTheReport(): seq<Label> {
    OPENING + RunLabels(0, Going(6))
  }

  lemma WorkerStandsAtReport()
    ensures var s := Execute(EMPTY, ToTheReport());
            s.mode == Serving && 0 in s.workers && AtReport(s.workers[0], "task")
  {
    OpeningRuns();
    ExecuteInTwo(EMPTY, OPENING, RunLabels(0, Going(6)));
    DriveIsARun(Opened(), 0, Going(6));
    OpenedIsInHand();
    DriveReachesStage(6, Opened().db, Opened().workers[0]);
  }

  ghost predicate NeverTold(labels: seq<Label>, t: Id) {
    forall more {:trigger Execute(EMPTY, labels + more)} ::
      IsOver(Execute(EMPTY, labels + more).db, t) && !IsClosed(Execute(EMPTY, labels + more).db.tasks[t].log)
  }

  lemma LostMeansNeverTold(labels: seq<Label>, l: Label, t: Id)
    requires LosesReport(Execute(EMPTY, labels), l, t)
    ensures NeverTold(labels + [l], t)
  {
    LastTells(labels, l, t);
    forall more ensures IsOver(Execute(EMPTY, labels + [l] + more).db, t) && !IsClosed(Execute(EMPTY, labels + [l] + more).db.tasks[t].log) {
      LostReportStaysLost(labels + [l], more, t);
    }
  }

  /** A fault in the report's own transaction, in a run in which nothing else goes wrong: the task is
      completed, and its log never says so, whatever happens afterwards. */
  lemma FaultLosesReport()
    ensures NeverTold(ToTheReport() + [Run(0, FAULT)], "task")
  {
    WorkerStandsAtReport();
    LostMeansNeverTold(ToTheReport(), Run(0, FAULT), "task");
  }

  /** A crash between completing the task and reporting it does the same, without any fault at all. */
  lemma CrashLosesReport()
    ensures NeverTold(ToTheReport() + [Crash], "task")
    ensures forall l :: l in ToTheReport() && l.Run? ==> !l.choice.fault
  {
    WorkerStandsAtReport();
    LostMeansNeverTold(ToTheReport(), Crash, "task");
  }

  // ------------------------------------------------------------------ the expired key

  /** The opening, and a run that fails at its first step. */
  const FAILING: seq<Label> := OPENING + [Run(0, FAULT)] + [Run(0, GO)]

  /** A day later. */
  const SECOND := Attempt(IDEMPOTENCY_TTL, IDEMPOTENCY_TTL, "second task", "second message")

  ghost function FailedDb(): Db {
    Put(Opened().db, FailedData(FreshTask(REQUEST, FIRST), InternalError, 0))
  }

  lemma FaultBreaksStart(db: Db, w: Worker)
    requires w.pc == ToPlanning
    ensures Step(db, w, FAULT) == (db, Broken(w, InternalError))
  {
  }

  lemma FailGoes(db: Db, w: Worker)
    requires w.pc == Failing && !Terminal(w.item.status) && FailTx(db, w.item, w.error, 0).Success?
    ensures Step(db, w, GO).0 == FailTx(db, w.item, w.error, 0).value.0
  {
  }

  lemma FirstTaskBreaks(w: Worker)
    requires w == Opened().workers[0]
    ensures Execute(EMPTY, OPENING + [Run(0, FAULT)]) == Opened().(workers := map[0 := Broken(w, InternalError)])
  {
    OpeningRuns();
    ExecuteOneMore(EMPTY, OPENING, Run(0, FAULT));
    RunApplied(Opened(), 0, FAULT);
    FaultBreaksStart(Opened().db, w);
    assert Opened().workers[0 := Broken(w, InternalError)] == map[0 := Broken(w, InternalError)];
  }

  lemma FirstTaskMayFail()
    ensures FailTx(Opened().db, FreshTask(REQUEST, FIRST).row, InternalError, 0).Success?
    ensures FailTx(Opened().db, FreshTask(REQUEST, FIRST).row, InternalError, 0).value.0 == FailedDb()
  {
    OpenedIsInHand();
    FailOutcome(Opened().db, FreshTask(REQUEST, FIRST).row, InternalError, 0);
  }

  lemma FirstTaskFails()
    ensures Execute(EMPTY, FAILING).db == FailedDb()
  {
    var w := Opened().workers[0];
    FirstTaskBreaks(w);
    ExecuteOneMore(EMPTY, OPENING + [Run(0, FAULT)], Run(0, GO));
    RunApplied(Opened().(workers := map[0 := Broken(w, InternalError)]), 0, GO);
    FirstTaskMayFail();
    FailGoes(Opened().db, Broken(w, InternalError));
  }

  /** A database a run can reach, on which the early read answers with the old, failed task, while the
      transaction, if it were reached, would create and start another. */
  lemma ExpiredKeyAnswersPart()
    ensures var db := Execute(EMPTY, FAILING).db;
            && KeyOf(REQUEST) in db.keys && db.keys[KeyOf(REQUEST)].expiresAt <= SECOND.storeNow
            && PreCheck(db, REQUEST).Some? && PreCheck(db, REQUEST).value.Success? && PreCheck(db, REQUEST).value.value.id == "task"
            && CreateTaskTx(db, REQUEST, SECOND).Success?
            && CreateTaskTx(db, REQUEST, SECOND).value.1.id == "second task" && CreateTaskTx(db, REQUEST, SECOND).value.2
  {
    FirstTaskFails();
    ReachableIsSound(FAILING);
    NotBlank();
    SecondIsInsertable();
    PreCheckAgreesWhileLive(FailedDb(), REQUEST, SECOND);
    CreateTaskOutcome(FailedDb(), REQUEST, SECOND);
  }

  lemma SecondIsInsertable()
    ensures Insertable(FailedDb(), REQUEST, SECOND)
  {
    NotBlank();
    assert "message" != "second message" by {
      assert |"message"| != |"second message"|;
    }
    assert !HasActiveTask(FailedDb(), "tenant", "session");
  }
}
