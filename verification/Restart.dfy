/** Recovery as the program runs it at start: a loop over the interrupted tasks. */
module Restart {
  import opened Basics
  import opened TaskLifecycle
  import opened EventLog
  import opened Database
  import opened TaskInvariant
  import opened WorkerInvariant
  import opened Creation
  import opened System
  import opened Recovery
  import opened Ordering
  import opened DurableStore
  import W = Worker

  /** The open calls of a task, each filed under its recovery key. */
  ghost predicate Filed(open: map<Id, ToolCall>, td: TaskData) {
    && (forall k :: k in open ==>
          open[k].id in OpenCalls(td) && td.calls[open[k].id] == open[k] && RecoveryKey(open[k]) == k)
    && (forall id :: id in OpenCalls(td) ==> RecoveryKey(td.calls[id]) in open && open[RecoveryKey(td.calls[id])] == td.calls[id])
  }

  lemma FirstFiled(open: map<Id, ToolCall>, td: TaskData)
    requires Filed(open, td) && open.Keys != {}
    ensures OpenCalls(td) != {} && open[LeastText(open.Keys)] == td.calls[FirstOpen(td)]
  {
    var k := LeastText(open.Keys);
    var first := RecoveryKey(td.calls[FirstOpen(td)]);
    assert FiledFirst(td, OpenCalls(td), FirstOpen(td));
    TextTotal(k, first);
  }

  lemma FiledShrinks(open: map<Id, ToolCall>, td: TaskData, now: int)
    requires Filed(open, td) && open.Keys != {} && OpenCalls(td) != {}
    requires open[LeastText(open.Keys)] == td.calls[FirstOpen(td)]
    requires forall id :: id in td.calls ==> td.calls[id].id == id
    ensures Filed(open - {LeastText(open.Keys)}, ClosedFirst(td, now))
  {
    var td' := ClosedFirst(td, now);
    assert OpenCalls(td') == OpenCalls(td) - {FirstOpen(td)};
  }

  /** A sink at work on the first task of the recovery list. */
  ghost predicate AtWork(s: State, w: W.Worker) {
    && s.mode.Recovering? && |s.mode.items| > 0 && w.item == s.mode.items[0]
    && w.error == ExecutionInterrupted && w.item.id in s.db.tasks
    && Filed(w.open, s.db.tasks[w.item.id])
  }

  lemma CloseIsRecoverTx(db: Db, w: W.Worker, c: W.Choice)
    requires w.pc == W.ClosingTools && w.open.Keys != {} && w.error == ExecutionInterrupted
    requires w.item.id in db.tasks && w.item.tenant == db.tasks[w.item.id].row.tenant
    requires Filed(w.open, db.tasks[w.item.id]) && RecoverTx(db, w.item, c.now).Success?
    ensures W.Step(db, w, c) ==
            if c.fault then (db, w.(pc := W.Failing))
            else (RecoverTx(db, w.item, c.now).value, w.(open := w.open - {LeastText(w.open.Keys)}))
  {
    FirstFiled(w.open, db.tasks[w.item.id]);
    CloseNext(db, w, c, LeastText(w.open.Keys));
  }

  lemma CloseIsRecover(s: State, w: W.Worker, c: W.Choice)
    requires StateInv(s) && AtWork(s, w) && w.pc == W.ClosingTools && w.open.Keys != {} && !c.fault
    ensures var (db', w') := W.Step(s.db, w, c);
            var s' := Apply(s, Recover(c.now));
            && db' == s'.db && s'.mode == s.mode && AtWork(s', w') && w'.pc == W.ClosingTools
  {
    var td := s.db.tasks[w.item.id];
    RecoverResult(s.db, w.item, c.now);
    CloseIsRecoverTx(s.db, w, c);
    FirstFiled(w.open, td);
    FiledShrinks(w.open, td, c.now);
  }

  lemma FaultOrDone(db: Db, w: W.Worker, c: W.Choice)
    requires w.pc == W.ClosingTools && (c.fault || w.open.Keys == {})
    ensures W.Step(db, w, c) == (db, w.(pc := W.Failing))
  {
    if w.open.Keys == {} {
      assert w.open == map[];
    } else {
      CloseNext(db, w, c, LeastText(w.open.Keys));
    }
  }

  lemma CleanupEnds(db: Db, w: W.Worker, c: W.Choice)
    requires w.pc == W.Failing || w.pc == W.Finished
    ensures W.Step(db, w, c).1.pc == W.Finished
  {
  }

  ghost predicate Recovers(s: State, labels: seq<Label>, s': State) {
    (forall l :: l in labels ==> RecoveryLabel(l)) && s' == Execute(s, labels)
  }

  lemma RecoversMore(s: State, labels: seq<Label>, s': State, l: Label)
    requires Recovers(s, labels, s') && RecoveryLabel(l)
    ensures Recovers(s, labels + [l], Apply(s', l))
  {
    assert (labels + [l])[..|labels|] == labels;
  }

  lemma SinkStepRecovers(s: State, w: W.Worker, c: W.Choice)
    requires StateInv(s) && AtWork(s, w) && w.pc == W.ClosingTools
    ensures var (db', w') := W.Step(s.db, w, c);
            var s' := if c.fault || w.open.Keys == {} then s else Apply(s, Recover(c.now));
            && s'.db == db' && s'.mode == s.mode && AtWork(s', w') && (w'.pc == W.ClosingTools || w'.pc == W.Failing)
  {
    if c.fault || w.open.Keys == {} {
      FaultOrDone(s.db, w, c);
    } else {
      CloseIsRecover(s, w, c);
    }
  }

  lemma OneMoreRecovers(s0: State, earlier: seq<Label>, s: State, w: W.Worker, c: W.Choice) returns (labels: seq<Label>, s': State)
    requires StateInv(s0) && Recovers(s0, earlier, s) && AtWork(s, w) && w.pc == W.ClosingTools
    ensures var (db', w') := W.Step(s.db, w, c);
            && Recovers(s0, labels, s') && s'.db == db' && s'.mode == s.mode && AtWork(s', w')
            && (w'.pc == W.ClosingTools || w'.pc == W.Failing)
  {
    RunsAreSound(s0, earlier);
    SinkStepRecovers(s, w, c);
    labels, s' := earlier, s;
    if !c.fault && w.open.Keys != {} {
      RecoversMore(s0, labels, s', Recover(c.now));
      labels, s' := labels + [Recover(c.now)], Apply(s', Recover(c.now));
    }
  }

  /** What the sink did is what the recovery steps do. */
  lemma {:induction false} TrailRecovers(s0: State, earlier: seq<Label>, s: State, t: Trail, n: nat) returns (labels: seq<Label>, s': State)
    requires StateInv(s0) && Recovers(s0, earlier, s) && t.Valid() && n <= |t.choices|
    requires t.states[0].0 == s.db && AtWork(s, t.states[0].1) && t.states[0].1.pc == W.ClosingTools
    ensures Recovers(s0, labels, s')
    ensures t.states[n].1.pc == W.ClosingTools || t.states[n].1.pc == W.Failing || t.states[n].1.pc == W.Finished
    ensures t.states[n].1.pc != W.Finished ==> s'.db == t.states[n].0 && s'.mode == s.mode && AtWork(s', t.states[n].1)
  {
    if n == 0 {
      return earlier, s;
    }
    labels, s' := TrailRecovers(s0, earlier, s, t, n - 1);
    var (db, w) := t.states[n - 1];
    var c := t.choices[n - 1];
    assert W.Step(t.states[n - 1].0, t.states[n - 1].1, t.choices[n - 1]) == t.states[n];
    if w.pc == W.ClosingTools {
      labels, s' := OneMoreRecovers(s0, labels, s', w, c);
    } else {
      CleanupEnds(db, w, c);
    }
  }

  /** With nothing open, failing the task is the recovery step that takes it off the list. */
  lemma FailIsRecover(s: State, w: W.Worker, now: int)
    requires StateInv(s) && AtWork(s, w) && w.open == map[]
    ensures FailTx(s.db, w.item, ExecutionInterrupted, now).Success?
    ensures var s' := Apply(s, Recover(now));
            && s'.db == FailTx(s.db, w.item, ExecutionInterrupted, now).value.0
            && s'.mode == Recovering(s.mode.items[1..])
  {
    var td := s.db.tasks[w.item.id];
    assert OpenCalls(td) == {};
    RecoverResult(s.db, w.item, now);
  }

  lemma ListedItem(s: State)
    requires StateInv(s) && s.mode.Recovering? && |s.mode.items| > 0
    ensures var item := s.mode.items[0];
            && FindTask(s.db, item.tenant, item.id) == Success(s.db.tasks[item.id])
            && TablesInv(s.db.tasks[item.id]) && !Terminal(item.status)
  {
    RecoverResult(s.db, s.mode.items[0], 0);
  }

  function UnfinishedKeys(tasks: map<Id, TaskData>): set<Key> {
    set t | t in tasks && !Terminal(tasks[t].row.status) :: Key(tasks[t].row.createdAt, t)
  }

  ghost predicate OldestFirst(items: seq<Task>) {
    forall i, j :: 0 <= i < j < |items| ==>
      Before(Key(items[i].createdAt, items[i].id), Key(items[j].createdAt, items[j].id))
  }

  lemma KeysNameRows(tasks: map<Id, TaskData>, keys: seq<Key>)
    requires forall t :: t in tasks ==> tasks[t].row.id == t
    requires forall k :: k in keys <==> k in UnfinishedKeys(tasks)
    ensures forall j :: 0 <= j < |keys| ==>
              && keys[j].id in tasks && !Terminal(tasks[keys[j].id].row.status)
              && keys[j] == Key(tasks[keys[j].id].row.createdAt, tasks[keys[j].id].row.id)
  {
    forall j | 0 <= j < |keys| ensures keys[j] in UnfinishedKeys(tasks) {
      assert keys[j] in keys;
    }
  }

  lemma ListingIsComplete(tasks: map<Id, TaskData>, keys: seq<Key>, items: seq<Task>)
    requires |items| == |keys| && forall j :: 0 <= j < |keys| ==> keys[j].id == items[j].id
    requires forall k :: k in keys <==> k in UnfinishedKeys(tasks)
    ensures forall t :: t in tasks && !Terminal(tasks[t].row.status) ==> exists j :: 0 <= j < |items| && items[j].id == t
  {
    forall t | t in tasks && !Terminal(tasks[t].row.status) ensures exists j :: 0 <= j < |items| && items[j].id == t {
      assert Key(tasks[t].row.createdAt, t) in UnfinishedKeys(tasks);
      var j :| 0 <= j < |keys| && keys[j] == Key(tasks[t].row.createdAt, t);
      assert items[j].id == t;
    }
  }

  lemma ListingIsOrdered(keys: seq<Key>, items: seq<Task>)
    requires Ascending(keys) && |items| == |keys|
    requires forall j :: 0 <= j < |items| ==> keys[j] == Key(items[j].createdAt, items[j].id)
    requires forall i, j :: 0 <= i < j < |items| && items[i].id == items[j].id ==> items[i] == items[j]
    ensures OldestFirst(items) && forall i, j :: 0 <= i < j < |items| ==> items[i].id != items[j].id
  {
    forall i, j | 0 <= i < j < |items| ensures keys[i] != keys[j] {
      BeforeTotal(keys[i], keys[j]);
    }
  }

  class Startup {
    const store: Store

    constructor (store: Store)
      ensures this.store == store
    {
      this.store := store;
    }

    /** The tasks left in progress, oldest first. */
    method ListNonTerminal() returns (items: seq<Task>)
      requires forall t :: t in store.db.tasks ==> store.db.tasks[t].row.id == t
      ensures ListsNonTerminal(items, store.db) && OldestFirst(items)
    {
      var keys := Sorted(UnfinishedKeys(store.db.tasks));
      KeysNameRows(store.db.tasks, keys);
      items := [];
      var i := 0;
      while i < |keys|
        invariant i <= |keys| && |items| == i
        invariant forall j :: 0 <= j < i ==> items[j] == store.db.tasks[keys[j].id].row
      {
        items := items + [store.db.tasks[keys[i].id].row];
        i := i + 1;
      }
      ListingIsOrdered(keys, items);
      ListingIsComplete(store.db.tasks, keys, items);
    }

    /** The open calls of a task under their recovery keys. */
    method FileOpenCalls(td: TaskData) returns (open: map<Id, ToolCall>)
      requires TablesInv(td)
      ensures Filed(open, td)
    {
      open := map[];
      var rest := td.calls.Keys;
      while rest != {}
        invariant rest <= td.calls.Keys
        invariant forall k :: k in open ==>
                    open[k].id in OpenCalls(td) && td.calls[open[k].id] == open[k] && RecoveryKey(open[k]) == k
        invariant forall id :: id in OpenCalls(td) && id !in rest ==>
                    RecoveryKey(td.calls[id]) in open && open[RecoveryKey(td.calls[id])] == td.calls[id]
        decreases |rest|
      {
        var id :| id in rest;
        forall o | o in td.calls && o != id ensures RecoveryKey(td.calls[o]) != RecoveryKey(td.calls[id]) {
          CallKeysDiffer(td, o, id);
        }
        if td.calls[id].status == ToolCallStarted {
          open := open[RecoveryKey(td.calls[id]) := td.calls[id]];
        }
        rest := rest - {id};
      }
    }

    /** One interrupted task: its open calls closed in key order, then the task failed. */
    method RecoverTask(item: Task, ghost s0: State, ghost earlier: seq<Label>, ghost s: State)
      returns (err: Option<ErrorCode>, ghost labels: seq<Label>, ghost s': State)
      requires StateInv(s0) && Recovers(s0, earlier, s) && s.db == store.db
      requires s.mode.Recovering? && |s.mode.items| > 0 && item == s.mode.items[0]
      modifies store
      ensures Recovers(s0, labels, s') && s'.db == store.db
      ensures err.None? ==> s'.mode == Recovering(s.mode.items[1..])
    {
      RunsAreSound(s0, earlier);
      ListedItem(s);
      labels, s' := earlier, s;
      var unreadable: bool := *;
      var found := FindTask(store.db, item.tenant, item.id);
      if unreadable || found.Failure? {
        return Some(InternalError), labels, s';
      }
      var open := FileOpenCalls(found.value);
      var copy := new AnalysisTask(item);
      ghost var w := W.Start(item).(pc := W.ClosingTools, open := open, error := ExecutionInterrupted);
      if open != map[] {
        err, w, labels, s' := CloseFiled(copy, open, s0, labels, s', w);
        if err.Some? {
          return;
        }
      }
      err, labels, s' := FailTask(copy, s0, labels, s', w);
    }

    method CloseFiled(copy: AnalysisTask, open: map<Id, ToolCall>, ghost s0: State, ghost earlier: seq<Label>, ghost s: State, ghost w0: W.Worker)
      returns (err: Option<ErrorCode>, ghost w: W.Worker, ghost labels: seq<Label>, ghost s': State)
      requires StateInv(s0) && Recovers(s0, earlier, s) && s.db == store.db
      requires AtWork(s, w0) && w0.pc == W.ClosingTools && w0.open == open && copy.value == w0.item
      modifies store
      ensures Recovers(s0, labels, s') && s'.db == store.db && s'.mode == s.mode && AtWork(s', w)
      ensures w.item == w0.item && (err.None? ==> w.open == map[])
    {
      var sink := new DurableSink(store, copy, "", open);
      ghost var t;
      err, w, t := sink.FailOpenTools(ExecutionInterrupted, w0, Begin(store.db, w0));
      labels, s' := TrailRecovers(s0, earlier, s, t, |t.choices|);
    }

    method FailTask(copy: AnalysisTask, ghost s0: State, ghost earlier: seq<Label>, ghost s: State, ghost w: W.Worker)
      returns (err: Option<ErrorCode>, ghost labels: seq<Label>, ghost s': State)
      requires StateInv(s0) && Recovers(s0, earlier, s) && s.db == store.db
      requires AtWork(s, w) && w.open == map[] && copy.value == w.item
      modifies store, copy
      ensures Recovers(s0, labels, s') && s'.db == store.db
      ensures err.None? ==> s'.mode == Recovering(s.mode.items[1..])
    {
      RunsAreSound(s0, earlier);
      ListedItem(s);
      labels, s' := earlier, s;
      ghost var c;
      err, c := store.Fail(copy, ExecutionInterrupted);
      if err.None? {
        FailIsRecover(s, w, c.now);
        RecoversMore(s0, labels, s, Recover(c.now));
        labels, s' := labels + [Recover(c.now)], Apply(s, Recover(c.now));
      }
    }

    /** Recovery at start: on success it has been a full recovery of the database it found, and on
        a store error an initial part of one. */
    method RecoverInterrupted() returns (err: Option<ErrorCode>, ghost labels: seq<Label>)
      requires DbInv(store.db)
      modifies store
      ensures var s := Execute(State(old(store.db), Down, map[]), labels);
              && (forall l :: l in labels ==> RecoveryLabel(l))
              && s.db == store.db && (err.None? ==> s.mode == Recovering([]))
    {
      ghost var s0 := State(store.db, Down, map[]);
      labels := [];
      var unreadable: bool := *;
      if unreadable {
        return Some(InternalError), labels;
      }
      RowsKeyed(store.db);
      var items := ListNonTerminal();
      RecoversMore(s0, [], s0, Boot(items));
      labels := [Boot(items)];
      ghost var s := Apply(s0, Boot(items));
      assert [] + [Boot(items)] == labels;
      var i := 0;
      while i < |items|
        invariant i <= |items| && Recovers(s0, labels, s)
        invariant s.db == store.db && s.mode == Recovering(items[i..])
      {
        err, labels, s := RecoverTask(items[i], s0, labels, s);
        if err.Some? {
          return;
        }
        i := i + 1;
      }
      return None, labels;
    }
  }

  lemma RowsKeyed(db: Db)
    requires TasksInv(db.tasks, db.rows)
    ensures forall t :: t in db.tasks ==> db.tasks[t].row.id == t
  {
    forall t | t in db.tasks ensures db.tasks[t].row.id == t {
      assert TaskOk(db.tasks[t], t, db.rows);
    }
  }
}
