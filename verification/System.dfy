/** The whole process: a database that survives crashes, the workers that do not, recovery at
    every start, and the commands. One label is one atomic step; any interleaving is a run. */
module System {
  import opened Basics
  import opened TaskLifecycle
  import opened EventLog
  import opened ClientView
  import opened Database
  import opened TaskInvariant
  import opened Worker
  import opened WorkerInvariant
  import opened Creation
  import opened Ordering

  /** Down; or recovering the listed tasks before serving; or serving. */
  datatype Mode = Down | Recovering(items: seq<Task>) | Serving

  datatype State = State(db: Db, mode: Mode, workers: map<nat, Worker>)

  datatype Label =
    | Boot(items: seq<Task>)
    | Recover(now: int)
    | Serve
    | StartRun(worker: nat, task: Id)
    | Run(runner: nat, choice: Choice)
    | NewSession(sessionReq: SessionRequest, clock: int, storeNow: int, sessionId: GeneratedId)
    | NewTask(req: TaskRequest, attempt: Attempt)
    | Crash

  const EMPTY := State(Db(map[], map[], {}, map[]), Down, map[])

  /** What the listing of non-terminal tasks returns at start, in any order. */
  ghost predicate ListsNonTerminal(items: seq<Task>, db: Db) {
    && (forall i :: 0 <= i < |items| ==>
          items[i].id in db.tasks && db.tasks[items[i].id].row == items[i] && !Terminal(items[i].status))
    && (forall i, j :: 0 <= i < j < |items| ==> items[i].id != items[j].id)
    && (forall t :: t in db.tasks && !Terminal(db.tasks[t].row.status) ==>
          exists i :: 0 <= i < |items| && items[i].id == t)
  }

  // ------------------------------------------------------------------- recovery

  /** The key under which recovery files an open call. */
  function RecoveryKey(call: ToolCall): string {
    call.tool + "#" + call.id
  }

  function OpenCalls(td: TaskData): set<Id> {
    set id | id in td.calls && td.calls[id].status == ToolCallStarted
  }

  ghost predicate FiledFirst(td: TaskData, candidates: set<Id>, id: Id)
    requires candidates <= td.calls.Keys && id in candidates
  {
    forall o :: o in candidates && RecoveryKey(td.calls[o]) != RecoveryKey(td.calls[id]) ==>
      TextBefore(RecoveryKey(td.calls[id]), RecoveryKey(td.calls[o]))
  }

  lemma FirstOpenExists(td: TaskData, candidates: set<Id>)
    requires candidates != {} && candidates <= td.calls.Keys
    ensures exists id :: id in candidates && FiledFirst(td, candidates, id)
  {
    var keys := set id | id in candidates :: RecoveryKey(td.calls[id]);
    var some :| some in candidates;
    assert RecoveryKey(td.calls[some]) in keys;
    var k := LeastText(keys);
    var id :| id in candidates && RecoveryKey(td.calls[id]) == k;
    assert FiledFirst(td, candidates, id);
  }

  /** The open call whose key sorts first. */
  ghost function FirstOpen(td: TaskData): (id: Id)
    requires OpenCalls(td) != {}
    ensures id in OpenCalls(td) && FiledFirst(td, OpenCalls(td), id)
  {
    FirstOpenExists(td, OpenCalls(td));
    var id :| id in OpenCalls(td) && FiledFirst(td, OpenCalls(td), id);
    id
  }

  /** One recovery transaction on a task: close its first open call, or, with none left, fail it. */
  ghost function RecoverTx(db: Db, item: Task, now: int): Result<Db> {
    var td :- FindTask(db, item.tenant, item.id);
    if OpenCalls(td) != {} then
      var call := ClosedCall(td.calls[FirstOpen(td)], ToolCallFailed, Some(ExecutionInterrupted), now);
      CloseToolTx(db, item, call, ToolFailed(call.id))
    else
      var failed :- FailTx(db, item, ExecutionInterrupted, now);
      Success(failed.0)
  }

  // ---------------------------------------------------------------------- steps

  ghost function Apply(s: State, l: Label): State {
    match l
    case Boot(items) =>
      if s.mode == Down && ListsNonTerminal(items, s.db) then s.(mode := Recovering(items)) else s
    case Recover(now) =>
      if s.mode.Recovering? && |s.mode.items| > 0 then
        var item := s.mode.items[0];
        match RecoverTx(s.db, item, now)
        case Success(db') =>
          State(db', if item.id in db'.tasks && Terminal(db'.tasks[item.id].row.status) then Recovering(s.mode.items[1..]) else s.mode, s.workers)
        case Failure(_) => State(s.db, Down, map[])
      else s
    case Serve => if s.mode == Recovering([]) then s.(mode := Serving) else s
    case StartRun(worker, task) =>
      if s.mode == Serving && worker !in s.workers && task in s.db.tasks && s.db.tasks[task].row.status == Created then
        s.(workers := s.workers[worker := Start(s.db.tasks[task].row)])
      else s
    case Run(worker, choice) =>
      if s.mode == Serving && worker in s.workers then
        var (db', w') := Step(s.db, s.workers[worker], choice);
        s.(db := db', workers := s.workers[worker := w'])
      else s
    case NewSession(req, clock, storeNow, id) =>
      if s.mode == Serving && CreateSessionTx(s.db, req, clock, storeNow, id).Success? then
        s.(db := CreateSessionTx(s.db, req, clock, storeNow, id).value.0)
      else s
    case NewTask(req, attempt) =>
      if s.mode == Serving && CreateTaskTx(s.db, req, attempt).Success? then
        s.(db := CreateTaskTx(s.db, req, attempt).value.0)
      else s
    case Crash => State(s.db, Down, map[])
  }

  /** A run: labels applied in order. */
  ghost function Execute(s: State, labels: seq<Label>): State {
    if |labels| == 0 then s else Apply(Execute(s, labels[..|labels| - 1]), labels[|labels| - 1])
  }

  lemma ExecuteOneMore(s: State, labels: seq<Label>, l: Label)
    ensures Execute(s, labels + [l]) == Apply(Execute(s, labels), l)
  {
    assert (labels + [l])[..|labels|] == labels;
  }

  lemma {:induction false} ExecuteInTwo(s: State, labels: seq<Label>, more: seq<Label>)
    ensures Execute(s, labels + more) == Execute(Execute(s, labels), more)
  {
    if |more| == 0 {
      assert labels + more == labels;
    } else {
      ExecuteInTwo(s, labels, more[..|more| - 1]);
      assert (labels + more)[..|labels + more| - 1] == labels + more[..|more| - 1];
    }
  }

  // ------------------------------------------------------------------ invariant

  /** No two live workers hold a task past its first transition. */
  ghost predicate OneHolder(workers: map<nat, Worker>) {
    forall a, b :: a in workers && b in workers && a != b && workers[a].item.id == workers[b].item.id
      && workers[a].pc != Finished && workers[b].pc != Finished
      ==> workers[a].item.version == 1 || workers[b].item.version == 1
  }

  ghost predicate WorkersInv(db: Db, workers: map<nat, Worker>) {
    forall k {:trigger WorkerInv(db, workers[k])} :: k in workers ==> WorkerInv(db, workers[k])
  }

  /** While recovery runs, what is left of its list is exactly the non-terminal tasks. */
  ghost predicate RecoveryInv(items: seq<Task>, db: Db) {
    && (forall i :: 0 <= i < |items| ==>
          && items[i].id in db.tasks && CopyOf(items[i], db.tasks[items[i].id].row)
          && items[i].version == db.tasks[items[i].id].row.version && !Terminal(items[i].status))
    && (forall i, j :: 0 <= i < j < |items| ==> items[i].id != items[j].id)
    && (forall t :: t in db.tasks && !Terminal(db.tasks[t].row.status) ==>
          exists i :: 0 <= i < |items| && items[i].id == t)
  }

  ghost predicate StateInv(s: State) {
    && DbInv(s.db)
    && (s.mode != Serving ==> s.workers == map[])
    && (s.mode.Recovering? ==> RecoveryInv(s.mode.items, s.db))
    && WorkersInv(s.db, s.workers)
    && OneHolder(s.workers)
  }

  /** How the database may move in one step or over a run. */
  ghost predicate DbEvolves(db: Db, db': Db) {
    && (forall t :: t in db.tasks ==> t in db'.tasks)
    && (forall t {:trigger Evolves(db.tasks[t], db'.tasks[t])} :: t in db.tasks ==> Evolves(db.tasks[t], db'.tasks[t]))
  }

  lemma EvolvesReflexive(db: Db)
    ensures DbEvolves(db, db)
  {
  }

  lemma EvolvesTransitive(a: TaskData, b: TaskData, c: TaskData)
    requires Evolves(a, b) && Evolves(b, c)
    ensures Evolves(a, c)
  {
  }

  lemma DbEvolvesTransitive(a: Db, b: Db, c: Db)
    requires DbEvolves(a, b) && DbEvolves(b, c)
    ensures DbEvolves(a, c)
  {
    forall t | t in a.tasks ensures Evolves(a.tasks[t], c.tasks[t]) {
      assert Evolves(a.tasks[t], b.tasks[t]);
      assert Evolves(b.tasks[t], c.tasks[t]);
      EvolvesTransitive(a.tasks[t], b.tasks[t], c.tasks[t]);
    }
  }

  // ------------------------------------------------------ one step keeps it all

  /** A step that moves one task keeps the whole database sound. */
  lemma OneTaskMoves(db: Db, db': Db, id: Id)
    requires DbInv(db) && id in db.tasks && id in db'.tasks
    requires db'.sessions == db.sessions && db'.keys == db.keys && db.rows <= db'.rows
    requires db'.tasks == db.tasks[id := db'.tasks[id]]
    requires TaskOk(db'.tasks[id], id, db'.rows) && Evolves(db.tasks[id], db'.tasks[id])
    ensures DbInv(db') && DbEvolves(db, db')
  {
    MoreRows(db.tasks, db.rows, db'.rows);
    OneMoreTask(db.tasks, db'.rows, id, db'.tasks[id]);
    OneTaskMovesRest(db, db', id, db'.tasks[id].row);
    forall t | t in db.tasks ensures Evolves(db.tasks[t], db'.tasks[t]) {
    }
  }

  lemma OneTaskMovesRest(db: Db, db': Db, id: Id, row: Task)
    requires KeysInv(db.keys, db.tasks, db.sessions) && SessionsInv(db.sessions, db.tasks) && OneActive(db.tasks)
    requires id in db.tasks && id in db'.tasks && row == db'.tasks[id].row
    requires db'.tasks == db.tasks[id := db'.tasks[id]]
    requires row.tenant == db.tasks[id].row.tenant && row.sessionId == db.tasks[id].row.sessionId
    requires Terminal(db.tasks[id].row.status) ==> row.status == db.tasks[id].row.status
    ensures KeysInv(db.keys, db'.tasks, db.sessions) && SessionsInv(db.sessions, db'.tasks) && OneActive(db'.tasks)
  {
  }

  lemma RunnerIsSound(s: State, k: nat)
    requires StateInv(s) && k in s.workers && s.workers[k].pc != Finished
    ensures Sound(s.db, s.workers[k])
  {
    var w := s.workers[k];
    assert WorkerInv(s.db, w);
    assert TaskOk(s.db.tasks[w.item.id], w.item.id, s.db.rows);
  }

  /** Another worker's copy survives the step: the holder moved the row only past stale copies. */
  lemma BystanderKeeps(db: Db, w: Worker, db': Db, w': Worker, other: Worker)
    requires StepOk(db, w, db', w') && w.pc != Finished && WorkerInv(db, w) && WorkerInv(db, other)
    requires w.item.id == other.item.id && other.pc != Finished ==> w.item.version == 1 || other.item.version == 1
    ensures WorkerInv(db', other)
    ensures w.item.id == other.item.id && other.pc != Finished && w'.pc != Finished
            ==> w'.item.version == 1 || other.item.version == 1
  {
    if other.pc != Finished && other.item.id == w.item.id && db'.tasks[w.item.id] == db.tasks[w.item.id] {
      assert db'.tasks[other.item.id] == db.tasks[other.item.id];
    }
  }

  lemma LiveRunKeeps(s: State, k: nat, c: Choice)
    requires StateInv(s) && s.mode == Serving && k in s.workers && s.workers[k].pc != Finished
    ensures var (db', w') := Step(s.db, s.workers[k], c);
            StateInv(s.(db := db', workers := s.workers[k := w'])) && DbEvolves(s.db, db') && db'.keys == s.db.keys
  {
    RunnerIsSound(s, k);
    StepIsOk(s.db, s.workers[k], c);
    LiveStepKeeps(s, k, Step(s.db, s.workers[k], c).0, Step(s.db, s.workers[k], c).1);
  }

  lemma RunKeeps(s: State, k: nat, c: Choice)
    requires StateInv(s) && s.mode == Serving && k in s.workers
    ensures StateInv(Apply(s, Run(k, c))) && DbEvolves(s.db, Apply(s, Run(k, c)).db)
    ensures Apply(s, Run(k, c)).db.keys == s.db.keys
  {
    if s.workers[k].pc == Finished {
      assert s.workers[k := s.workers[k]] == s.workers;
      EvolvesReflexive(s.db);
    } else {
      LiveRunKeeps(s, k, c);
    }
  }

  lemma LiveStepKeeps(s: State, k: nat, db': Db, w': Worker)
    requires StateInv(s) && s.mode == Serving && k in s.workers && s.workers[k].pc != Finished
    requires StepOk(s.db, s.workers[k], db', w')
    ensures StateInv(s.(db := db', workers := s.workers[k := w'])) && DbEvolves(s.db, db') && db'.keys == s.db.keys
  {
    OneTaskMoves(s.db, db', s.workers[k].item.id);
    BystandersKeep(s.db, s.workers, k, db', w');
  }

  lemma BystandersKeep(db: Db, workers: map<nat, Worker>, k: nat, db': Db, w': Worker)
    requires k in workers && workers[k].pc != Finished && StepOk(db, workers[k], db', w')
    requires WorkersInv(db, workers) && OneHolder(workers)
    ensures WorkersInv(db', workers[k := w']) && OneHolder(workers[k := w'])
  {
    assert WorkerInv(db, workers[k]);
    forall j | j in workers && j != k
      ensures WorkerInv(db', workers[j])
      ensures workers[j].item.id == w'.item.id && workers[j].pc != Finished && w'.pc != Finished
              ==> w'.item.version == 1 || workers[j].item.version == 1
    {
      assert WorkerInv(db, workers[j]);
      BystanderKeeps(db, workers[k], db', w', workers[j]);
    }
  }

  lemma StartKeepsState(s: State, k: nat, task: Id)
    requires StateInv(s)
    ensures StateInv(Apply(s, StartRun(k, task))) && DbEvolves(s.db, Apply(s, StartRun(k, task)).db)
  {
    EvolvesReflexive(s.db);
    if s.mode == Serving && k !in s.workers && task in s.db.tasks && s.db.tasks[task].row.status == Created {
      NewWorkerJoins(s.db, s.workers, k, task);
    }
  }

  lemma NewWorkerJoins(db: Db, workers: map<nat, Worker>, k: nat, task: Id)
    requires TasksInv(db.tasks, db.rows) && WorkersInv(db, workers) && OneHolder(workers)
    requires k !in workers && task in db.tasks && db.tasks[task].row.status == Created
    ensures WorkersInv(db, workers[k := Start(db.tasks[task].row)]) && OneHolder(workers[k := Start(db.tasks[task].row)])
  {
    assert TaskOk(db.tasks[task], task, db.rows);
    FirstVersion(db.tasks[task]);
    var w := Start(db.tasks[task].row);
    assert WorkerInv(db, w);
    forall j | j in workers ensures WorkerInv(db, workers[k := w][j]) {
      assert WorkerInv(db, workers[j]);
    }
  }

  lemma FirstVersion(td: TaskData)
    requires RowInv(td)
    ensures td.row.status == Created <==> td.row.version == 1
  {
  }

  /** Workers do not notice rows being added to other tasks or tables. */
  lemma UntouchedWorkersKeep(db: Db, db': Db, workers: map<nat, Worker>)
    requires WorkersInv(db, workers)
    requires forall t :: t in db.tasks ==> t in db'.tasks && db'.tasks[t] == db.tasks[t]
    ensures WorkersInv(db', workers) && DbEvolves(db, db')
  {
    forall k | k in workers ensures WorkerInv(db', workers[k]) {
      assert WorkerInv(db, workers[k]);
    }
  }

  lemma CommandsKeep(s: State, l: Label)
    requires StateInv(s) && (l.NewSession? || l.NewTask?)
    ensures StateInv(Apply(s, l)) && DbEvolves(s.db, Apply(s, l).db)
  {
    EvolvesReflexive(s.db);
    match l
    case NewSession(req, clock, storeNow, id) =>
      if s.mode == Serving && CreateSessionTx(s.db, req, clock, storeNow, id).Success? {
        CreateSessionKeeps(s.db, req, clock, storeNow, id);
        UntouchedWorkersKeep(s.db, Apply(s, l).db, s.workers);
      }
    case NewTask(req, attempt) =>
      if s.mode == Serving && CreateTaskTx(s.db, req, attempt).Success? {
        CreateTaskKeeps(s.db, req, attempt);
        UntouchedWorkersKeep(s.db, Apply(s, l).db, s.workers);
      }
    case _ =>
  }

  // ------------------------------------------------------------------- recovery

  ghost function ClosedFirst(td: TaskData, now: int): TaskData
    requires OpenCalls(td) != {}
  {
    var call := ClosedCall(td.calls[FirstOpen(td)], ToolCallFailed, Some(ExecutionInterrupted), now);
    Logged(td.(calls := td.calls[call.id := call]), ToolFailed(call.id))
  }

  /** Recovering a task never fails on its own account: each transaction closes one open call
      or, when none is open, fails the task. */
  lemma RecoverOutcome(db: Db, item: Task, now: int)
    requires item.id in db.tasks && TaskOk(db.tasks[item.id], item.id, db.rows)
    requires CopyOf(item, db.tasks[item.id].row) && item.version == db.tasks[item.id].row.version && !Terminal(item.status)
    ensures var td := db.tasks[item.id];
            var td' := if OpenCalls(td) != {} then ClosedFirst(td, now) else FailedData(td, ExecutionInterrupted, now);
            && RecoverTx(db, item, now) == Success(Put(db, td'))
            && TaskOk(td', item.id, db.rows) && Evolves(td, td')
  {
    if OpenCalls(db.tasks[item.id]) != {} {
      RecoverCloses(db, item, now);
      ClosedFirstOk(db.tasks[item.id], item.id, db.rows, now);
    } else {
      FailOutcome(db, item, ExecutionInterrupted, now);
      FailedDataKeeps(db.tasks[item.id], ExecutionInterrupted, now);
    }
  }

  lemma RecoverIsClose(db: Db, item: Task, now: int)
    requires item.id in db.tasks && item.tenant == db.tasks[item.id].row.tenant && OpenCalls(db.tasks[item.id]) != {}
    ensures var td := db.tasks[item.id];
            var call := ClosedCall(td.calls[FirstOpen(td)], ToolCallFailed, Some(ExecutionInterrupted), now);
            RecoverTx(db, item, now) == CloseToolTx(db, item, call, ToolFailed(call.id))
  {
  }

  lemma ClosedFirstOk(td: TaskData, id: Id, rows: set<RowKey>, now: int)
    requires TaskOk(td, id, rows) && !Terminal(td.row.status) && OpenCalls(td) != {}
    ensures TaskOk(ClosedFirst(td, now), id, rows) && Evolves(td, ClosedFirst(td, now))
  {
    var call := ClosedCall(td.calls[FirstOpen(td)], ToolCallFailed, Some(ExecutionInterrupted), now);
    OpenMeansRunning(td);
    CloseKeeps(td, call, ToolFailed(call.id));
    LoggedEvolves(td, ClosedFirst(td, now), ToolFailed(call.id));
  }

  lemma RecoverCloses(db: Db, item: Task, now: int)
    requires item.id in db.tasks && SequenceInv(db.tasks[item.id]) && TablesInv(db.tasks[item.id])
    requires CopyOf(item, db.tasks[item.id].row) && OpenCalls(db.tasks[item.id]) != {}
    ensures RecoverTx(db, item, now) == Success(Put(db, ClosedFirst(db.tasks[item.id], now)))
  {
    var td := db.tasks[item.id];
    var before := td.calls[FirstOpen(td)];
    var call := ClosedCall(before, ToolCallFailed, Some(ExecutionInterrupted), now);
    RecoverIsClose(db, item, now);
    CloseToolOutcome(db, item, before, call, ToolFailed(call.id));
  }

  /** Only a task that runs tools or validates can hold an open call before its end. */
  lemma OpenMeansRunning(td: TaskData)
    requires TaskInv(td) && OpenCalls(td) != {} && !Terminal(td.row.status)
    ensures (td.row.status == RunningTools || td.row.status == Validating) && !IsClosed(td.log)
  {
  }

  lemma RecoverKeeps(s: State, now: int)
    requires StateInv(s) && s.mode.Recovering? && |s.mode.items| > 0
    ensures StateInv(Apply(s, Recover(now))) && DbEvolves(s.db, Apply(s, Recover(now)).db)
    ensures Apply(s, Recover(now)).mode.Recovering? && Apply(s, Recover(now)).db.keys == s.db.keys
  {
    var item := s.mode.items[0];
    var td := s.db.tasks[item.id];
    assert TaskOk(td, item.id, s.db.rows);
    RecoverOutcome(s.db, item, now);
    var s' := Apply(s, Recover(now));
    OneTaskMoves(s.db, s'.db, item.id);
    RecoveryListShrinks(s.db, s'.db, s.mode.items);
  }

  lemma RecoveryListShrinks(db: Db, db': Db, items: seq<Task>)
    requires RecoveryInv(items, db) && |items| > 0
    requires items[0].id in db'.tasks && db'.tasks == db.tasks[items[0].id := db'.tasks[items[0].id]]
    ensures Terminal(db'.tasks[items[0].id].row.status) ==> RecoveryInv(items[1..], db')
    ensures SameRow(db'.tasks[items[0].id].row, db.tasks[items[0].id].row) ==> RecoveryInv(items, db')
  {
    if Terminal(db'.tasks[items[0].id].row.status) {
      HeadRecovered(db, db', items);
    }
  }

  lemma HeadRecovered(db: Db, db': Db, items: seq<Task>)
    requires RecoveryInv(items, db) && |items| > 0
    requires items[0].id in db'.tasks && db'.tasks == db.tasks[items[0].id := db'.tasks[items[0].id]]
    requires Terminal(db'.tasks[items[0].id].row.status)
    ensures RecoveryInv(items[1..], db')
  {
    forall t | t in db'.tasks && !Terminal(db'.tasks[t].row.status)
      ensures exists i :: 0 <= i < |items[1..]| && items[1..][i].id == t
    {
      var i :| 0 <= i < |items| && items[i].id == t;
      assert items[1..][i - 1].id == t;
    }
  }

  // ------------------------------------------------------------------- all runs

  lemma BootKeeps(s: State, items: seq<Task>)
    requires StateInv(s) && s.mode == Down && ListsNonTerminal(items, s.db)
    ensures RecoveryInv(items, s.db)
  {
    forall i | 0 <= i < |items| ensures CopyOf(items[i], s.db.tasks[items[i].id].row) {
      assert TaskOk(s.db.tasks[items[i].id], items[i].id, s.db.rows);
    }
  }

  lemma ApplyKeeps(s: State, l: Label)
    requires StateInv(s)
    ensures StateInv(Apply(s, l)) && DbEvolves(s.db, Apply(s, l).db)
  {
    EvolvesReflexive(s.db);
    match l
    case Boot(items) => if s.mode == Down && ListsNonTerminal(items, s.db) { BootKeeps(s, items); }
    case Recover(now) => if s.mode.Recovering? && |s.mode.items| > 0 { RecoverKeeps(s, now); }
    case StartRun(k, task) => StartKeepsState(s, k, task);
    case Run(k, c) => if s.mode == Serving && k in s.workers { RunKeeps(s, k, c); }
    case NewSession(_, _, _, _) => CommandsKeep(s, l);
    case NewTask(_, _) => CommandsKeep(s, l);
    case _ =>
  }

  /** Whatever runs, faults, crashes and restarts happen in whatever order, the state stays sound,
      and no task's history is ever rewritten. */
  lemma {:induction false} RunsAreSound(s: State, labels: seq<Label>)
    requires StateInv(s)
    ensures StateInv(Execute(s, labels)) && DbEvolves(s.db, Execute(s, labels).db)
  {
    if |labels| == 0 {
      EvolvesReflexive(s.db);
    } else {
      var before := Execute(s, labels[..|labels| - 1]);
      RunsAreSound(s, labels[..|labels| - 1]);
      ApplyKeeps(before, labels[|labels| - 1]);
      DbEvolvesTransitive(s.db, before.db, Execute(s, labels).db);
    }
  }

  lemma ReachableIsSound(labels: seq<Label>)
    ensures StateInv(Execute(EMPTY, labels))
  {
    RunsAreSound(EMPTY, labels);
  }
}
