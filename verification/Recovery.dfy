/** Recovery after a restart: where it ends, and that being interrupted changes nothing about the end. */
module Recovery {
  import opened Basics
  import opened TaskLifecycle
  import opened EventLog
  import opened Database
  import opened TaskInvariant
  import opened Worker
  import opened WorkerInvariant
  import opened Creation
  import opened Ordering
  import opened System

  lemma MarkNotLater(toolA: string, idA: string, toolB: string, idB: string)
    requires '#' !in idA && toolA + "#" + idA == toolB + "#" + idB
    ensures |toolB| <= |toolA|
  {
    var k := toolA + "#" + idA;
    forall i | |toolA| < i < |k| ensures k[i] != '#' {
      assert k[i] == idA[i - |toolA| - 1];
    }
    assert (toolB + "#" + idB)[|toolB|] == '#';
  }

  /** Keys "tool#id" of different calls differ, since an id holds no '#'. */
  lemma KeyIsInjective(toolA: string, idA: string, toolB: string, idB: string)
    requires '#' !in idA && '#' !in idB
    requires toolA + "#" + idA == toolB + "#" + idB
    ensures toolA == toolB && idA == idB
  {
    MarkNotLater(toolA, idA, toolB, idB);
    MarkNotLater(toolB, idB, toolA, idA);
    assert (toolA + "#" + idA)[..|toolA|] == toolA && (toolB + "#" + idB)[..|toolB|] == toolB;
    assert (toolA + "#" + idA)[|toolA| + 1..] == idA && (toolB + "#" + idB)[|toolB| + 1..] == idB;
  }

  lemma CallKeysDiffer(td: TaskData, a: Id, b: Id)
    requires TablesInv(td) && a in td.calls && b in td.calls && a != b
    ensures RecoveryKey(td.calls[a]) != RecoveryKey(td.calls[b])
  {
    if RecoveryKey(td.calls[a]) == RecoveryKey(td.calls[b]) {
      KeyIsInjective(td.calls[a].tool, a, td.calls[b].tool, b);
    }
  }

  /** The failure reports of the calls `ids`, numbered on from `n`. */
  ghost function Reports(n: nat, ids: seq<Id>): Log {
    seq(|ids|, i requires 0 <= i < |ids| => Event(n + 1 + i, ToolFailed(ids[i])))
  }

  ghost predicate InFilingOrder(td: TaskData, ids: seq<Id>) {
    && (forall i :: 0 <= i < |ids| ==> ids[i] in td.calls)
    && forall i, j :: 0 <= i < j < |ids| ==> TextBefore(RecoveryKey(td.calls[ids[i]]), RecoveryKey(td.calls[ids[j]]))
  }

  /** `td` is `td0` with the calls `ids` closed, in filing order, and the others still open. */
  ghost predicate Halfway(td0: TaskData, td: TaskData, ids: seq<Id>) {
    && SameRow(td.row, td0.row)
    && td.log == td0.log + Reports(|td0.log|, ids)
    && OpenCalls(td) <= OpenCalls(td0)
    && (forall id :: id in OpenCalls(td) ==> td.calls[id] == td0.calls[id])
    && (forall id :: id in OpenCalls(td0) <==> id in ids || id in OpenCalls(td))
    && InFilingOrder(td0, ids)
    && (forall i, id :: 0 <= i < |ids| && id in OpenCalls(td) ==>
          TextBefore(RecoveryKey(td0.calls[ids[i]]), RecoveryKey(td0.calls[id])))
  }

  /** `td` is `td0` fully recovered: every open call closed in filing order, then the task failed. */
  ghost predicate RecoveredWith(td0: TaskData, td: TaskData, ids: seq<Id>) {
    && OpenCalls(td) == {}
    && (forall id :: id in OpenCalls(td0) <==> id in ids)
    && InFilingOrder(td0, ids)
    && td.row.status == Failed && td.row.error == Some(ExecutionInterrupted)
    && td.log == td0.log + Reports(|td0.log|, ids)
                 + [Event(|td0.log| + |ids| + 1, StatusChanged(td0.row.status, Failed))]
                 + [Event(|td0.log| + |ids| + 2, TaskFailed(ExecutionInterrupted))]
  }

  ghost predicate Recovered(td0: TaskData, td: TaskData) {
    exists ids :: RecoveredWith(td0, td, ids)
  }

  /** Where a task may stand during recoveries that began at `td0`. */
  ghost predicate OnTheWay(td0: TaskData, td: TaskData) {
    if Terminal(td0.row.status) then td == td0
    else (exists ids :: Halfway(td0, td, ids)) || Recovered(td0, td)
  }

  /** Closing the first open call appends its report and takes it off the open ones. */
  lemma CloseReports(td: TaskData, n: nat, ids: seq<Id>, now: int)
    requires OpenCalls(td) != {} && |td.log| == n + |ids|
    requires forall id :: id in td.calls ==> td.calls[id].id == id
    ensures var td', first := ClosedFirst(td, now), FirstOpen(td);
            && OpenCalls(td') == OpenCalls(td) - {first} && SameRow(td'.row, td.row)
            && td'.log == td.log + [Event(|td.log| + 1, ToolFailed(first))]
            && (forall id :: id in OpenCalls(td') ==> td'.calls[id] == td.calls[id])
            && Reports(n, ids + [first]) == Reports(n, ids) + [Event(|td.log| + 1, ToolFailed(first))]
  {
  }

  lemma CloseKeepsOrder(td0: TaskData, td: TaskData, ids: seq<Id>)
    requires TablesInv(td0) && Halfway(td0, td, ids) && OpenCalls(td) != {}
    ensures var first := FirstOpen(td);
            && InFilingOrder(td0, ids + [first])
            && (forall id :: id in OpenCalls(td) - {first} ==>
                  TextBefore(RecoveryKey(td0.calls[first]), RecoveryKey(td0.calls[id])))
  {
    var first := FirstOpen(td);
    forall id | id in OpenCalls(td) - {first} ensures TextBefore(RecoveryKey(td0.calls[first]), RecoveryKey(td0.calls[id])) {
      CallKeysDiffer(td0, first, id);
      assert FiledFirst(td, OpenCalls(td), first);
    }
  }

  lemma HalfwayGrows(td0: TaskData, td: TaskData, ids: seq<Id>, first: Id, td': TaskData)
    requires Halfway(td0, td, ids) && first in OpenCalls(td) && InFilingOrder(td0, ids + [first])
    requires OpenCalls(td') == OpenCalls(td) - {first} && SameRow(td'.row, td.row)
    requires td'.log == td0.log + Reports(|td0.log|, ids + [first])
    requires forall id :: id in OpenCalls(td') ==> td'.calls[id] == td.calls[id]
    requires forall id :: id in OpenCalls(td') ==> TextBefore(RecoveryKey(td0.calls[first]), RecoveryKey(td0.calls[id]))
    ensures Halfway(td0, td', ids + [first])
  {
    forall id ensures id in OpenCalls(td0) <==> id in ids + [first] || id in OpenCalls(td') {
      assert id in ids + [first] <==> id in ids || id == first;
    }
  }

  lemma CloseMoves(td0: TaskData, td: TaskData, ids: seq<Id>, now: int)
    requires TablesInv(td) && TablesInv(td0) && Halfway(td0, td, ids) && OpenCalls(td) != {}
    ensures Halfway(td0, ClosedFirst(td, now), ids + [FirstOpen(td)])
  {
    CloseReports(td, |td0.log|, ids, now);
    CloseKeepsOrder(td0, td, ids);
    HalfwayGrows(td0, td, ids, FirstOpen(td), ClosedFirst(td, now));
  }

  lemma FailMoves(td0: TaskData, td: TaskData, ids: seq<Id>, now: int)
    requires SequenceInv(td) && Halfway(td0, td, ids) && OpenCalls(td) == {}
    ensures RecoveredWith(td0, FailedData(td, ExecutionInterrupted, now), ids)
  {
    assert OpenCalls(FailedData(td, ExecutionInterrupted, now)) == {};
  }

  lemma NotStarted(td: TaskData)
    ensures Halfway(td, td, [])
  {
    assert td.log == td.log + Reports(|td.log|, []);
  }

  ghost predicate AllOnTheWay(tasks0: map<Id, TaskData>, tasks: map<Id, TaskData>) {
    && tasks.Keys == tasks0.Keys
    && forall t {:trigger OnTheWay(tasks0[t], tasks[t])} :: t in tasks0 ==> OnTheWay(tasks0[t], tasks[t])
  }

  ghost predicate RecoveryLabel(l: Label) {
    l.Boot? || l.Recover? || l.Crash?
  }

  lemma OneMovesOnTheWay(tasks0: map<Id, TaskData>, tasks: map<Id, TaskData>, id: Id, td': TaskData)
    requires AllOnTheWay(tasks0, tasks) && id in tasks && OnTheWay(tasks0[id], td')
    ensures AllOnTheWay(tasks0, tasks[id := td'])
  {
    forall t | t in tasks0 ensures OnTheWay(tasks0[t], tasks[id := td'][t]) {
      assert OnTheWay(tasks0[t], tasks[t]);
    }
  }

  /** What one recovery transaction makes of its task. */
  ghost function RecoveredOnce(td: TaskData, now: int): TaskData {
    if OpenCalls(td) != {} then ClosedFirst(td, now) else FailedData(td, ExecutionInterrupted, now)
  }

  lemma RecoverResult(db: Db, item: Task, now: int)
    requires item.id in db.tasks && TaskOk(db.tasks[item.id], item.id, db.rows)
    requires CopyOf(item, db.tasks[item.id].row) && item.version == db.tasks[item.id].row.version && !Terminal(item.status)
    ensures RecoverTx(db, item, now) == Success(Put(db, RecoveredOnce(db.tasks[item.id], now)))
    ensures TablesInv(db.tasks[item.id]) && SequenceInv(db.tasks[item.id]) && !Terminal(db.tasks[item.id].row.status)
    ensures RecoveredOnce(db.tasks[item.id], now).row.id == item.id
  {
    RecoverOutcome(db, item, now);
  }

  lemma RecoverApplied(s: State, now: int)
    requires StateInv(s) && s.mode.Recovering? && |s.mode.items| > 0
    ensures var id := s.mode.items[0].id;
            && id in s.db.tasks
            && TablesInv(s.db.tasks[id]) && SequenceInv(s.db.tasks[id]) && !Terminal(s.db.tasks[id].row.status)
            && Apply(s, Recover(now)).db.tasks == s.db.tasks[id := RecoveredOnce(s.db.tasks[id], now)]
            && Apply(s, Recover(now)).mode.Recovering?
  {
    RecoverResult(s.db, s.mode.items[0], now);
  }

  lemma IdleStep(s: State, l: Label)
    requires RecoveryLabel(l) && s.mode != Serving && !(l.Recover? && s.mode.Recovering? && |s.mode.items| > 0)
    ensures Apply(s, l).db == s.db && Apply(s, l).mode != Serving
  {
  }

  lemma RecoveryStepOnTheWay(tasks0: map<Id, TaskData>, s: State, l: Label)
    requires StateInv(s) && RecoveryLabel(l) && s.mode != Serving && AllOnTheWay(tasks0, s.db.tasks)
    requires forall t :: t in tasks0 ==> TablesInv(tasks0[t])
    ensures AllOnTheWay(tasks0, Apply(s, l).db.tasks) && Apply(s, l).mode != Serving
  {
    if l.Recover? && s.mode.Recovering? && |s.mode.items| > 0 {
      RecoverApplied(s, l.now);
      ItemMovesOnTheWay(tasks0, s.db.tasks, s.mode.items[0].id, l.now);
    } else {
      IdleStep(s, l);
    }
  }

  lemma ItemMovesOnTheWay(tasks0: map<Id, TaskData>, tasks: map<Id, TaskData>, id: Id, now: int)
    requires AllOnTheWay(tasks0, tasks) && id in tasks && TablesInv(tasks0[id])
    requires TablesInv(tasks[id]) && SequenceInv(tasks[id]) && !Terminal(tasks[id].row.status)
    ensures AllOnTheWay(tasks0, tasks[id := RecoveredOnce(tasks[id], now)])
  {
    assert OnTheWay(tasks0[id], tasks[id]);
    StepOnTheWay(tasks0[id], tasks[id], now);
    OneMovesOnTheWay(tasks0, tasks, id, RecoveredOnce(tasks[id], now));
  }

  lemma StepOnTheWay(td0: TaskData, td: TaskData, now: int)
    requires TablesInv(td) && SequenceInv(td) && TablesInv(td0) && !Terminal(td.row.status) && OnTheWay(td0, td)
    ensures OnTheWay(td0, RecoveredOnce(td, now))
  {
    var ids :| Halfway(td0, td, ids);
    if OpenCalls(td) != {} {
      CloseMoves(td0, td, ids, now);
    } else {
      FailMoves(td0, td, ids, now);
    }
  }

  lemma TablesOf(tasks: map<Id, TaskData>, rows: set<RowKey>)
    requires TasksInv(tasks, rows)
    ensures forall t :: t in tasks ==> TablesInv(tasks[t])
  {
    forall t | t in tasks ensures TablesInv(tasks[t]) {
      assert TaskOk(tasks[t], t, rows);
    }
  }

  lemma AllStart(tasks: map<Id, TaskData>)
    ensures AllOnTheWay(tasks, tasks)
  {
    forall t | t in tasks ensures OnTheWay(tasks[t], tasks[t]) {
      NotStarted(tasks[t]);
    }
  }

  /** However often recovery is cut short and begun again, every task stays on its one way. */
  lemma {:induction false} RecoveriesStayOnTheWay(s: State, labels: seq<Label>)
    requires StateInv(s) && s.mode == Down && forall l :: l in labels ==> RecoveryLabel(l)
    ensures var s' := Execute(s, labels);
            AllOnTheWay(s.db.tasks, s'.db.tasks) && s'.mode != Serving
  {
    if |labels| == 0 {
      AllStart(s.db.tasks);
    } else {
      var pre := labels[..|labels| - 1];
      RecoveriesStayOnTheWay(s, pre);
      RunsAreSound(s, pre);
      TablesOf(s.db.tasks, s.db.rows);
      RecoveryStepOnTheWay(s.db.tasks, Execute(s, pre), labels[|labels| - 1]);
    }
  }

  /** A recovery that gets through, after any number that did not: no task is left in progress,
      each one that was is failed with every call it had open closed, and the rest are untouched. */
  lemma RecoveryEnds(s: State, labels: seq<Label>, t: Id)
    requires StateInv(s) && s.mode == Down && t in s.db.tasks
    requires forall l :: l in labels ==> RecoveryLabel(l)
    requires Execute(s, labels).mode == Recovering([])
    ensures var db' := Execute(s, labels).db;
            && t in db'.tasks && Terminal(db'.tasks[t].row.status)
            && (if Terminal(s.db.tasks[t].row.status) then db'.tasks[t] == s.db.tasks[t]
                else Recovered(s.db.tasks[t], db'.tasks[t]))
  {
    RecoveriesStayOnTheWay(s, labels);
    RunsAreSound(s, labels);
    var db' := Execute(s, labels).db;
    assert OnTheWay(s.db.tasks[t], db'.tasks[t]);
  }

  lemma {:induction false} FilingOrderIsUnique(td: TaskData, a: seq<Id>, b: seq<Id>)
    requires InFilingOrder(td, a) && InFilingOrder(td, b) && (forall id :: id in a <==> id in b)
    ensures a == b
  {
    if |a| > 0 && |b| > 0 {
      assert a[0] in b && b[0] in a;
      TextTotal(RecoveryKey(td.calls[a[0]]), RecoveryKey(td.calls[b[0]]));
      FilingHeadsAgree(td, a, b);
      TailExcludesHead(td, a);
      TailExcludesHead(td, b);
      assert a == [a[0]] + a[1..] && b == [b[0]] + b[1..];
      forall id ensures id in a[1..] <==> id in b[1..] {
        assert id in a <==> id == a[0] || id in a[1..];
        assert id in b <==> id == b[0] || id in b[1..];
      }
      FilingOrderIsUnique(td, a[1..], b[1..]);
    } else {
      if |a| > 0 { HeadIsListed(a); }
      if |b| > 0 { HeadIsListed(b); }
    }
  }

  lemma TailExcludesHead(td: TaskData, a: seq<Id>)
    requires InFilingOrder(td, a) && |a| > 0
    ensures a[0] !in a[1..]
  {
    TextTotal(RecoveryKey(td.calls[a[0]]), RecoveryKey(td.calls[a[0]]));
  }

  lemma FilingHeadsAgree(td: TaskData, a: seq<Id>, b: seq<Id>)
    requires InFilingOrder(td, a) && InFilingOrder(td, b) && |a| > 0 && |b| > 0 && a[0] in b && b[0] in a
    ensures a[0] == b[0]
  {
    var i :| 0 <= i < |a| && a[i] == b[0];
    var j :| 0 <= j < |b| && b[j] == a[0];
    TextTotal(RecoveryKey(td.calls[a[0]]), RecoveryKey(td.calls[b[0]]));
  }

  /** Interruption leaves no trace: any two ways of recovering one database, cut short wherever and
      however often, end with the same log, status and error for every task. */
  lemma InterruptionLeavesNoTrace(s: State, one: seq<Label>, other: seq<Label>, t: Id)
    requires StateInv(s) && s.mode == Down && t in s.db.tasks
    requires forall l :: l in one ==> RecoveryLabel(l)
    requires forall l :: l in other ==> RecoveryLabel(l)
    requires Execute(s, one).mode == Recovering([]) && Execute(s, other).mode == Recovering([])
    ensures var a, b := Execute(s, one).db, Execute(s, other).db;
            && t in a.tasks && t in b.tasks
            && a.tasks[t].log == b.tasks[t].log
            && a.tasks[t].row.status == b.tasks[t].row.status && a.tasks[t].row.error == b.tasks[t].row.error
  {
    RecoveryEnds(s, one, t);
    RecoveryEnds(s, other, t);
    if !Terminal(s.db.tasks[t].row.status) {
      SameEnd(s.db.tasks[t], Execute(s, one).db.tasks[t], Execute(s, other).db.tasks[t]);
    }
  }

  lemma SameEnd(td0: TaskData, a: TaskData, b: TaskData)
    requires Recovered(td0, a) && Recovered(td0, b)
    ensures a.log == b.log && a.row.status == b.row.status && a.row.error == b.row.error
  {
    var x :| RecoveredWith(td0, a, x);
    var y :| RecoveredWith(td0, b, y);
    FilingOrderIsUnique(td0, x, y);
  }

  /** Open calls plus the task itself, if it is in progress: what recovery has left to do on a task. */
  ghost function Remaining(td: TaskData): nat {
    |OpenCalls(td)| + if Terminal(td.row.status) then 0 else 1
  }

  /** Each recovery transaction takes one item off the work that is left on its task. */
  lemma RecoverMakesProgress(s: State, now: int)
    requires StateInv(s) && s.mode.Recovering? && |s.mode.items| > 0
    ensures var id := s.mode.items[0].id;
            var s' := Apply(s, Recover(now));
            && id in s.db.tasks && id in s'.db.tasks
            && Remaining(s'.db.tasks[id]) == Remaining(s.db.tasks[id]) - 1
            && (forall t :: t in s.db.tasks && t != id ==> t in s'.db.tasks && s'.db.tasks[t] == s.db.tasks[t])
  {
    RecoverApplied(s, now);
    OneLess(s.db.tasks[s.mode.items[0].id], now);
  }

  lemma OneLess(td: TaskData, now: int)
    requires !Terminal(td.row.status) && TablesInv(td)
    ensures Remaining(RecoveredOnce(td, now)) == Remaining(td) - 1
  {
    if OpenCalls(td) != {} {
      assert OpenCalls(ClosedFirst(td, now)) == OpenCalls(td) - {FirstOpen(td)};
    } else {
      assert OpenCalls(FailedData(td, ExecutionInterrupted, now)) == {};
    }
  }

  /** What is left to do for a list of tasks. */
  ghost function WorkLeft(items: seq<Task>, tasks: map<Id, TaskData>): nat
    requires forall i :: 0 <= i < |items| ==> items[i].id in tasks
  {
    if |items| == 0 then 0 else Remaining(tasks[items[0].id]) + WorkLeft(items[1..], tasks)
  }

  lemma {:induction false} OthersWorkStands(items: seq<Task>, tasks: map<Id, TaskData>, id: Id, td: TaskData)
    requires forall i :: 0 <= i < |items| ==> items[i].id in tasks && items[i].id != id
    ensures WorkLeft(items, tasks[id := td]) == WorkLeft(items, tasks)
  {
    if |items| > 0 {
      OthersWorkStands(items[1..], tasks, id, td);
    }
  }

  lemma RecoveringKnows(s: State)
    requires StateInv(s) && s.mode.Recovering?
    ensures forall i :: 0 <= i < |s.mode.items| ==>
              s.mode.items[i].id in s.db.tasks && Remaining(s.db.tasks[s.mode.items[i].id]) > 0
  {
    forall i | 0 <= i < |s.mode.items| ensures !Terminal(s.db.tasks[s.mode.items[i].id].row.status) {
      assert CopyOf(s.mode.items[i], s.db.tasks[s.mode.items[i].id].row);
    }
  }

  ghost function WorkOf(s: State): nat
    requires StateInv(s) && s.mode.Recovering?
  {
    RecoveringKnows(s);
    WorkLeft(s.mode.items, s.db.tasks)
  }

  lemma RecoverTakesOne(s: State, now: int)
    requires StateInv(s) && s.mode.Recovering? && |s.mode.items| > 0
    ensures var s' := Apply(s, Recover(now));
            StateInv(s') && s'.mode.Recovering? && WorkOf(s') == WorkOf(s) - 1
  {
    var items, id := s.mode.items, s.mode.items[0].id;
    var s' := Apply(s, Recover(now));
    RecoverKeeps(s, now);
    RecoverMakesProgress(s, now);
    RecoverApplied(s, now);
    RecoveringKnows(s);
    OthersWorkStands(items[1..], s.db.tasks, id, s'.db.tasks[id]);
  }

  /** Recovery that is not interrupted is done after exactly as many transactions as there is work, one
      for each open call and one for each task in progress, whatever the clock; only then does it serve. */
  lemma {:induction false} RecoveryTakesItsWork(s: State, labels: seq<Label>)
    requires StateInv(s) && s.mode.Recovering? && forall l :: l in labels ==> l.Recover?
    ensures var s' := Execute(s, labels);
            && StateInv(s') && s'.mode.Recovering?
            && WorkOf(s') == (if |labels| <= WorkOf(s) then WorkOf(s) - |labels| else 0)
            && (Apply(s', Serve).mode == Serving <==> |labels| >= WorkOf(s))
  {
    if |labels| > 0 {
      var pre := labels[..|labels| - 1];
      RecoveryTakesItsWork(s, pre);
      var before := Execute(s, pre);
      if |before.mode.items| > 0 {
        RecoverTakesOne(before, labels[|labels| - 1].now);
      }
    }
    NothingLeftMeansDone(Execute(s, labels));
  }

  lemma NothingLeftMeansDone(s: State)
    requires StateInv(s) && s.mode.Recovering?
    ensures WorkOf(s) == 0 <==> s.mode == Recovering([])
  {
    RecoveringKnows(s);
  }
}
