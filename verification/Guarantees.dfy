/** What holds in every reachable state, for every task, read off the invariant. */
module Guarantees {
  import opened Basics
  import opened TaskLifecycle
  import opened EventLog
  import opened ClientView
  import opened Database
  import opened TaskInvariant
  import opened Worker
  import opened WorkerInvariant
  import opened Creation
  import opened System
  import opened Ordering

  lemma ReachableTask(labels: seq<Label>, t: Id)
    requires t in Execute(EMPTY, labels).db.tasks
    ensures TaskOk(Execute(EMPTY, labels).db.tasks[t], t, Execute(EMPTY, labels).db.rows)
  {
    ReachableIsSound(labels);
  }

  /** The stored counter equals the number of events, which are numbered 1..n without gap, and
      the version counts the status changes, although two writers overwrite the counter column. */
  lemma SequenceOverRuns(labels: seq<Label>, t: Id)
    requires t in Execute(EMPTY, labels).db.tasks
    ensures var td := Execute(EMPTY, labels).db.tasks[t];
            && Gapless(td.log) && td.row.latestSequence == |td.log|
            && td.row.version == 1 + StatusSteps(td.log)
  {
    ReachableTask(labels, t);
  }

  /** The grammar over whole runs: creation first, a path of allowed status changes that ends at
      the stored status, each kind of event only where it may be, and a terminal event only at the
      end, directly after the change it reports. A failed task always has its task.failed. */
  lemma LogGrammarOverRuns(labels: seq<Label>, t: Id)
    requires t in Execute(EMPTY, labels).db.tasks
    ensures var td := Execute(EMPTY, labels).db.tasks[t];
            && |td.log| > 0 && td.log[0].body == TaskCreated
            && StatusAfter(td.log) == Some(td.row.status)
            && (forall i :: 0 <= i < |td.log| ==> ProtocolAt(td.log, i))
            && (td.row.status == Failed ==> td.row.error.Some? && td.log[|td.log| - 1].body == TaskFailed(td.row.error.value))
  {
    ReachableTask(labels, t);
    var td := Execute(EMPTY, labels).db.tasks[t];
    PhaseKnowsStatus(td.log);
    LogStartsWithCreation(td.log);
    forall i | 0 <= i < |td.log| ensures ProtocolAt(td.log, i) { GrammarMeansProtocol(td.log, i); }
    if td.row.status == Failed {
      ClosedEndsTerminal(td.log);
      ErrorIsLast(td.log);
    }
  }

  /** A closed log ends with the terminal event of its status, and only a closed log does. */
  lemma {:induction false} ClosedEndsTerminal(log: Log)
    requires |log| > 0 && Scan(log).Good?
    ensures IsClosed(log) <==> TerminalBody(log[|log| - 1].body)
    ensures IsClosed(log) ==> Scan(log).phase.final == if log[|log| - 1].body == TaskCompleted then Completed else Failed
  {
    if TerminalBody(log[|log| - 1].body) {
      TerminalEventIsLast(log, |log| - 1);
    }
  }

  lemma ErrorIsLast(log: Log)
    requires |log| > 0 && log[|log| - 1].body.TaskFailed?
    ensures Fold(log).error == Some(log[|log| - 1].body.code)
  {
  }

  lemma TaskInContinuation(labels: seq<Label>, more: seq<Label>, t: Id)
    requires t in Execute(EMPTY, labels).db.tasks
    ensures var later := Execute(Execute(EMPTY, labels), more).db;
            t in later.tasks && Evolves(Execute(EMPTY, labels).db.tasks[t], later.tasks[t])
  {
    ReachableIsSound(labels);
    RunsAreSound(Execute(EMPTY, labels), more);
  }

  /** Histories are append-only over any continuation of any run, status steps are counted by the
      version, terminal statuses stay, and a log that has its terminal event never changes again. What was
      planned, and the times of creation, first start and end, once recorded, stand. */
  lemma HistoriesOnlyGrow(labels: seq<Label>, more: seq<Label>, t: Id)
    requires t in Execute(EMPTY, labels).db.tasks
    ensures var td := Execute(EMPTY, labels).db.tasks[t];
            var later := Execute(Execute(EMPTY, labels), more).db;
            && t in later.tasks && td.log <= later.tasks[t].log
            && td.row.version <= later.tasks[t].row.version
            && (later.tasks[t].row.version == td.row.version ==> later.tasks[t].row.status == td.row.status)
            && (Terminal(td.row.status) ==> later.tasks[t].row.status == td.row.status)
            && (IsClosed(td.log) ==> later.tasks[t] == td)
            && later.tasks[t].row.views == td.row.views && later.tasks[t].row.createdAt == td.row.createdAt
            && (td.row.startedAt.Some? ==> later.tasks[t].row.startedAt == td.row.startedAt)
            && (td.row.completedAt.Some? ==>
                  later.tasks[t].row.completedAt == td.row.completedAt && later.tasks[t].row.error == td.row.error)
  {
    TaskInContinuation(labels, more, t);
  }

  // --------------------------------------------------------------- tool pairing

  function Count(log: Log, body: Payload): nat {
    if |log| == 0 then 0
    else Count(log[..|log| - 1], body) + if log[|log| - 1].body == body then 1 else 0
  }

  /** What a status says of a call: opened, completed, failed. */
  ghost predicate Tallies(g: Grammar, id: Id, started: int, completed: int, failed: int) {
    g.Good? ==>
      && started == (if id in g.calls then 1 else 0)
      && completed == (if id in g.calls && g.calls[id] == ToolCallCompleted then 1 else 0)
      && failed == (if id in g.calls && g.calls[id] == ToolCallFailed then 1 else 0)
  }

  lemma ReadTallies(g: Grammar, body: Payload, id: Id, started: int, completed: int, failed: int)
    requires Tallies(g, id, started, completed, failed)
    ensures Tallies(Read(g, body), id,
                    started + (if body == ToolStarted(Some(id)) then 1 else 0),
                    completed + (if body == ToolCompleted(Some(id)) then 1 else 0),
                    failed + (if body == ToolFailed(id) then 1 else 0))
  {
  }

  /** How often the log opens and closes a call is what the call's status says: a call is opened
      once, and closed at most once, by one kind of event. */
  lemma {:induction false} PairingCounts(log: Log, id: Id)
    ensures Tallies(Scan(log), id, Count(log, ToolStarted(Some(id))), Count(log, ToolCompleted(Some(id))), Count(log, ToolFailed(id)))
  {
    if |log| > 0 {
      var before := log[..|log| - 1];
      PairingCounts(before, id);
      ReadTallies(Scan(before), log[|log| - 1].body, id,
                  Count(before, ToolStarted(Some(id))), Count(before, ToolCompleted(Some(id))), Count(before, ToolFailed(id)));
    }
  }

  /** In every reachable state each recorded call was opened once and has been closed exactly as
      its row says: not at all while started, and otherwise once, by one kind of event. The row's
      version, error, completion time and duration say the same. */
  lemma ToolPairingOverRuns(labels: seq<Label>, t: Id, id: Id)
    requires t in Execute(EMPTY, labels).db.tasks
    requires id in Execute(EMPTY, labels).db.tasks[t].calls
    ensures var td := Execute(EMPTY, labels).db.tasks[t];
            && Count(td.log, ToolStarted(Some(id))) == 1
            && Count(td.log, ToolCompleted(Some(id))) == (if td.calls[id].status == ToolCallCompleted then 1 else 0)
            && Count(td.log, ToolFailed(id)) == (if td.calls[id].status == ToolCallFailed then 1 else 0)
            && CallRowInv(td.calls[id])
  {
    ReachableTask(labels, t);
    PairingCounts(Execute(EMPTY, labels).db.tasks[t].log, id);
  }

  // ------------------------------------------------------ optimistic concurrency

  /** Of all the live workers on a task, at most one is past its first transition, and it alone
      holds the current version. */
  lemma OneHolderOverRuns(labels: seq<Label>, a: nat, b: nat)
    requires var s := Execute(EMPTY, labels);
             && a in s.workers && b in s.workers && a != b
             && s.workers[a].item.id == s.workers[b].item.id
             && s.workers[a].pc != Finished && s.workers[b].pc != Finished
             && s.workers[a].item.version > 1
    ensures var s := Execute(EMPTY, labels);
            && s.workers[a].item.id in s.db.tasks
            && s.workers[a].item.version == s.db.tasks[s.workers[a].item.id].row.version
            && s.workers[b].item.status == Created && s.workers[b].item.version == 1
            && (s.workers[b].pc == ToPlanning || s.workers[b].pc == Failing)
  {
    ReachableIsSound(labels);
    var s := Execute(EMPTY, labels);
    assert WorkerInv(s.db, s.workers[a]) && WorkerInv(s.db, s.workers[b]);
  }

  /** A worker with a stale copy changes nothing, whatever it tries, and is done in two steps:
      its transition and its deferred failure both roll back. */
  lemma StaleWriterRollsBack(labels: seq<Label>, k: nat, c: Choice)
    requires var s := Execute(EMPTY, labels);
             && s.mode == Serving && k in s.workers && s.workers[k].pc != Finished
             && s.workers[k].item.id in s.db.tasks
             && s.workers[k].item.version < s.db.tasks[s.workers[k].item.id].row.version
    ensures var s := Execute(EMPTY, labels);
            var s' := Apply(s, Run(k, c));
            && s'.db == s.db
            && s'.workers[k].pc == (if s.workers[k].pc == ToPlanning then Failing else Finished)
            && s'.workers[k].item == s.workers[k].item
  {
    ReachableIsSound(labels);
    var s := Execute(EMPTY, labels);
    var w := s.workers[k];
    RunnerIsSound(s, k);
    StaleStep(s.db, w, c);
  }

  lemma StaleStep(db: Db, w: Worker, c: Choice)
    requires Sound(db, w) && w.item.version < db.tasks[w.item.id].row.version
    ensures var (db', w') := Step(db, w, c);
            db' == db && w'.item == w.item && w'.pc == if w.pc == ToPlanning then Failing else Finished
  {
    TransitionOutcome(db, w.item, Planning, c.now);
    FailOutcome(db, w.item, w.error, c.now);
  }

  // ------------------------------------------------------------ what clients see

  /** Event sourcing is faithful: in every reachable state, a client that has received events of a
      task in any order, with any repeats and losses, and has counted as far as the stored
      counter, shows exactly the stored status, error, charts, executions and reply. */
  lemma ClientShowsTheTables(labels: seq<Label>, t: Id, deliveries: seq<Event>)
    requires t in Execute(EMPTY, labels).db.tasks
    requires forall e :: e in deliveries ==> e in Execute(EMPTY, labels).db.tasks[t].log
    requires Deliver(INITIAL_VIEW, deliveries).latestSequence == Execute(EMPTY, labels).db.tasks[t].row.latestSequence
    ensures Shows(Deliver(INITIAL_VIEW, deliveries), Execute(EMPTY, labels).db.tasks[t])
  {
    ReachableTask(labels, t);
    var td := Execute(EMPTY, labels).db.tasks[t];
    DeliveryIsPrefixFold(td.log, deliveries);
    assert td.log[..|td.log|] == td.log;
  }

  /** A client that reads the log shows the whole result: status completed, the reply, and one
      chart with its execution for every proposal, in order, and no other chart. */
  ghost predicate Rebuilt(w: Worker, td: TaskData) {
    var v := Fold(td.log);
    && v.taskStatus == Some(Completed) && v.error == None
    && v.assistantText == w.result.text
    && |w.saved| == |w.result.proposals|
    && (forall i, j :: 0 <= i < j < |w.saved| ==> w.saved[i] != w.saved[j])
    && (forall id :: id in v.charts <==> id in w.saved)
    && (forall i :: 0 <= i < |w.saved| ==>
          && v.charts[w.saved[i]].title == w.result.proposals[i].title
          && v.charts[w.saved[i]].execution.Some?
          && v.charts[w.saved[i]].execution.value in td.executions
          && td.executions[v.charts[w.saved[i]].execution.value] == Execution(w.saved[i], w.result.proposals[i].data))
  }

  /** A worker about to report completion leaves a log that rebuilds its result. */
  lemma CompletedRun(db: Db, w: Worker)
    requires Sound(db, w) && w.pc == EmitCompleted
    ensures w.item.id in db.tasks && Rebuilt(w, db.tasks[w.item.id])
  {
    RecordIsShown(w, db.tasks[w.item.id]);
  }

  lemma CompletedRunIsRebuilt(labels: seq<Label>, k: nat)
    requires var s := Execute(EMPTY, labels); k in s.workers && s.workers[k].pc == EmitCompleted
    ensures var s := Execute(EMPTY, labels);
            var w := s.workers[k];
            w.item.id in s.db.tasks && Rebuilt(w, s.db.tasks[w.item.id])
  {
    ReachableIsSound(labels);
    RunnerIsSound(Execute(EMPTY, labels), k);
    CompletedRun(Execute(EMPTY, labels).db, Execute(EMPTY, labels).workers[k]);
  }

  lemma RecordIsShown(w: Worker, td: TaskData)
    requires SavedInv(w, td, |w.result.proposals|, {}) && Shows(Fold(td.log), td)
    ensures var v := Fold(td.log);
            && v.assistantText == w.result.text
            && (forall id :: id in v.charts <==> id in w.saved)
            && (forall i :: 0 <= i < |w.saved| ==>
                  && v.charts[w.saved[i]].title == w.result.proposals[i].title
                  && v.charts[w.saved[i]].execution.Some?
                  && v.charts[w.saved[i]].execution.value in td.executions
                  && td.executions[v.charts[w.saved[i]].execution.value] == Execution(w.saved[i], w.result.proposals[i].data))
  {
    var v := Fold(td.log);
    forall i | 0 <= i < |w.saved|
      ensures OnRecord(td, w.saved[i], w.result.proposals[i]) && w.saved[i] in v.charts
    {
    }
  }

  /** And the report itself, if the store accepts it, closes the log on that very view. */
  lemma CompletionClosesTheLog(db: Db, w: Worker, c: Choice)
    requires Sound(db, w) && w.pc == EmitCompleted && !c.fault
    ensures var id := w.item.id;
            id in db.tasks &&
            var td := db.tasks[id];
            && Step(db, w, c) == (Put(db, Logged(td, TaskCompleted)), w.(pc := Finished))
            && IsClosed(Logged(td, TaskCompleted).log)
            && Fold(Logged(td, TaskCompleted).log) == Fold(td.log).(latestSequence := |td.log| + 1)
  {
    AppendOutcome(db, w.item, db.tasks[w.item.id], TaskCompleted);
    ReportCloses(db.tasks[w.item.id]);
  }

  lemma ReportCloses(td: TaskData)
    requires InPhase(td.log, JustCompleted) && Fold(td.log).taskStatus == Some(Completed)
    ensures IsClosed(Logged(td, TaskCompleted).log)
    ensures Fold(Logged(td, TaskCompleted).log) == Fold(td.log).(latestSequence := |td.log| + 1)
  {
    AppendSteps(td.log, TaskCompleted);
  }

  /** No reachable log makes the reducer drop an execution for a chart it does not know. */
  lemma ExecutionsFindTheirCharts(labels: seq<Label>, t: Id, i: nat)
    requires t in Execute(EMPTY, labels).db.tasks && i < |Execute(EMPTY, labels).db.tasks[t].log|
    requires Execute(EMPTY, labels).db.tasks[t].log[i].body.ExecutionCompleted?
    ensures var log := Execute(EMPTY, labels).db.tasks[t].log;
            log[i].body.chartId in Fold(log[..i]).charts && Fold(log[..i]).charts[log[i].body.chartId].execution.None?
  {
    ReachableTask(labels, t);
    ChartIdsNamed(Execute(EMPTY, labels).db.tasks[t]);
    ExecutionFindsItsChart(Execute(EMPTY, labels).db.tasks[t].log, i);
  }

  lemma ChartIdsNamed(td: TaskData)
    requires LogInv(td) && TablesInv(td)
    ensures Scan(td.log).Good? && "" !in Scan(td.log).charts
  {
    assert forall id :: id in td.charts ==> ChartRowInv(id, td.charts[id], td.executions);
  }

  lemma ExecutionFindsItsChart(log: Log, i: nat)
    requires i < |log| && Scan(log).Good? && "" !in Scan(log).charts && log[i].body.ExecutionCompleted?
    ensures var id := log[i].body.chartId;
            id in Fold(log[..i]).charts && Fold(log[..i]).charts[id].execution.None?
  {
    ScanPrefix(log, i);
    ScanPrefix(log, i + 1);
    assert log[..i + 1][..i] == log[..i];
    ChartsStayKnown(log, i, log[i].body.chartId);
    LogChartsAreShown(log[..i], log[i].body.chartId);
  }

  lemma {:induction false} ChartsStayKnown(log: Log, n: nat, id: Id)
    requires n <= |log| && Scan(log).Good? && Scan(log[..n]).Good? && id in Scan(log[..n]).charts
    ensures id in Scan(log).charts
    decreases |log| - n
  {
    if n == |log| {
      assert log[..n] == log;
    } else {
      ScanPrefix(log, n + 1);
      assert log[..n + 1][..n] == log[..n];
      ChartsStayKnown(log, n + 1, id);
    }
  }

  ghost predicate ChartShown(g: Grammar, v: View, id: Id) {
    g.Good? && id != "" ==> (id in v.charts <==> id in g.charts) && (id in g.charts ==> v.charts[id].execution == g.charts[id])
  }

  lemma ReadShowsChart(g: Grammar, v: View, body: Payload, id: Id)
    requires ChartShown(g, v, id)
    ensures ChartShown(Read(g, body), Absorb(v, body), id)
  {
  }

  lemma {:induction false} LogChartsAreShown(log: Log, id: Id)
    ensures ChartShown(Scan(log), Fold(log), id)
  {
    if |log| > 0 {
      var before := log[..|log| - 1];
      LogChartsAreShown(before, id);
      ReadShowsChart(Scan(before), Fold(before).(latestSequence := |log|), log[|log| - 1].body, id);
    }
  }
}
