/** The workflow as the program runs it: objects updated in place, each method proved against the
    steps of the worker model. A method hands back, as ghosts, the outside choices it met. */
module DurableStore {
  import opened Basics
  import opened TaskLifecycle
  import opened EventLog
  import opened Database
  import opened Ordering
  import W = Worker

  /** The states a worker has been through, with the outside choice between each two. */
  datatype Trail = Trail(states: seq<(Db, W.Worker)>, choices: seq<W.Choice>) {
    ghost predicate Valid() {
      && |states| == |choices| + 1
      && forall i {:trigger choices[i]} :: 0 <= i < |choices| ==> W.Step(states[i].0, states[i].1, choices[i]) == states[i + 1]
    }

    /** It began where `t` did and has come to this state. */
    ghost predicate Leads(t: Trail, db: Db, w: W.Worker) {
      Valid() && t.Valid() && states[0] == t.states[0] && states[|choices|] == (db, w)
    }

    ghost predicate At(db: Db, w: W.Worker) {
      Valid() && states[|choices|] == (db, w)
    }

    function Then(c: W.Choice, db: Db, w: W.Worker): Trail {
      Trail(states + [(db, w)], choices + [c])
    }
  }

  function Begin(db: Db, w: W.Worker): Trail {
    Trail([(db, w)], [])
  }

  lemma TrailGrows(t: Trail, db: Db, w: W.Worker, c: W.Choice, db': Db, w': W.Worker)
    requires t.At(db, w) && W.Step(db, w, c) == (db', w')
    ensures t.Then(c, db', w').Leads(t, db', w')
  {
    var t' := t.Then(c, db', w');
    forall i | 0 <= i < |t'.choices| ensures W.Step(t'.states[i].0, t'.states[i].1, t'.choices[i]) == t'.states[i + 1] {
      if i < |t.choices| {
        assert t'.choices[i] == t.choices[i];
      }
    }
  }

  /** A trail is a drive of the worker model. */
  lemma {:induction false} TrailIsDrive(t: Trail, n: nat)
    requires t.Valid() && n <= |t.choices|
    ensures W.Drive(t.states[0].0, t.states[0].1, t.choices[..n]) == t.states[n]
  {
    if n > 0 {
      TrailIsDrive(t, n - 1);
      assert t.choices[..n][..n - 1] == t.choices[..n - 1];
      assert t.choices[..n][n - 1] == t.choices[n - 1];
    }
  }

  /** The store as the workflow sees it: one committed database, changed by whole transactions. A
      transaction that faults at any of its statements leaves `db` as it was. */
  class Store {
    var db: Db

    constructor (db: Db)
      ensures this.db == db
    {
      this.db := db;
    }

    /** One status step; the caller's copy is overwritten only after the commit. */
    method Transition(item: AnalysisTask, next: Status) returns (err: Option<ErrorCode>, ghost c: W.Choice)
      modifies this, item
      ensures match W.Guarded(c.fault, TransitionTx(old(db), old(item.value), next, c.now))
              case Success(done) => db == done.0 && item.value == done.1 && err == None
              case Failure(code) => db == old(db) && item.value == old(item.value) && err == Some(code)
    {
      var outside: W.Choice := *;
      c := outside;
      if outside.fault {
        return Some(InternalError), c;
      }
      var candidate := new AnalysisTask(item.value);
      var previous := candidate.value.status;
      var found := FindTask(db, candidate.value.tenant, candidate.value.id);
      if found.Failure? {
        return Some(found.error), c;
      }
      candidate.value := candidate.value.(latestSequence := found.value.row.latestSequence);
      var allowed := candidate.Transition(next, outside.now);
      if !allowed {
        return Some(InvalidStateTransition), c;
      }
      var updated := UpdateTask(found.value, candidate.value, candidate.value.version - 1);
      if updated.Failure? {
        return Some(updated.error), c;
      }
      var logged := AppendEvent(updated.value, candidate.value, StatusChanged(previous, next));
      if logged.Failure? {
        return Some(logged.error), c;
      }
      db := Put(db, logged.value);
      candidate.value := candidate.value.(latestSequence := logged.value.row.latestSequence);
      item.value := candidate.value;
      return None, c;
    }

    /** Fails the task, unless the caller's copy is already terminal. */
    method Fail(item: AnalysisTask, code: ErrorCode) returns (err: Option<ErrorCode>, ghost c: W.Choice)
      modifies this, item
      ensures Terminal(old(item.value).status) ==> db == old(db) && item.value == old(item.value) && err == None
      ensures !Terminal(old(item.value).status) ==>
                match W.Guarded(c.fault, FailTx(old(db), old(item.value), code, c.now))
                case Success(done) => db == done.0 && item.value == done.1 && err == None
                case Failure(e) => db == old(db) && item.value == old(item.value) && err == Some(e)
    {
      var outside: W.Choice := *;
      c := outside;
      if item.value.status == Completed || item.value.status == Failed {
        return None, c;
      }
      if outside.fault {
        return Some(InternalError), c;
      }
      var candidate := new AnalysisTask(item.value);
      var previous := candidate.value.status;
      var found := FindTask(db, candidate.value.tenant, candidate.value.id);
      if found.Failure? {
        return Some(found.error), c;
      }
      candidate.value := candidate.value.(latestSequence := found.value.row.latestSequence);
      var allowed := candidate.Fail(code, outside.now);
      if !allowed {
        return Some(InvalidStateTransition), c;
      }
      var updated := UpdateTask(found.value, candidate.value, candidate.value.version - 1);
      if updated.Failure? {
        return Some(updated.error), c;
      }
      var changed := AppendEvent(updated.value, candidate.value, StatusChanged(previous, Failed));
      if changed.Failure? {
        return Some(changed.error), c;
      }
      var logged := AppendEvent(changed.value, candidate.value, TaskFailed(code));
      if logged.Failure? {
        return Some(logged.error), c;
      }
      db := Put(db, logged.value);
      candidate.value := candidate.value.(latestSequence := logged.value.row.latestSequence);
      item.value := candidate.value;
      return None, c;
    }

    /** Appends an event on its own. */
    method Emit(item: Task, body: Payload) returns (err: Option<ErrorCode>, ghost c: W.Choice)
      modifies this
      ensures match W.Guarded(c.fault, AppendTx(old(db), item, body))
              case Success(db') => db == db' && err == None
              case Failure(code) => db == old(db) && err == Some(code)
    {
      var outside: W.Choice := *;
      c := outside;
      if outside.fault {
        return Some(InternalError), c;
      }
      var found := FindTask(db, item.tenant, item.id);
      if found.Failure? {
        return Some(found.error), c;
      }
      var logged := AppendEvent(found.value, item, body);
      if logged.Failure? {
        return Some(logged.error), c;
      }
      db := Put(db, logged.value);
      return None, c;
    }

    /** Closes one call as failed and reports it. */
    method FailCall(item: Task, open: ToolCall, code: ErrorCode) returns (err: Option<ErrorCode>, ghost c: W.Choice)
      modifies this
      ensures var call := W.ClosedCall(open, ToolCallFailed, Some(code), c.now);
              match W.Guarded(c.fault, CloseToolTx(old(db), item, call, ToolFailed(call.id)))
              case Success(db') => db == db' && err == None
              case Failure(e) => db == old(db) && err == Some(e)
      ensures err.None? && OnRow(old(db), item) ==>
                && OnRow(db, item) && HoldsClosed(db, item.id, open, ToolCallFailed, Some(code), c.now)
                && OthersStand(old(db), db, item.id, open.id)
    {
      var outside: W.Choice := *;
      c := outside;
      if outside.fault {
        return Some(InternalError), c;
      }
      var now := outside.now;
      var duration := Milliseconds(now - open.startedAt);
      if duration < 0 {
        duration := 0;
      }
      var record := open.(status := ToolCallFailed, error := Some(code), completedAt := Some(now),
                          duration := Some(duration), version := open.version + 1);
      var found := FindTask(db, item.tenant, item.id);
      if found.Failure? {
        return Some(found.error), c;
      }
      var closed := CompleteCall(found.value, record, record.version - 1);
      if closed.Failure? {
        return Some(closed.error), c;
      }
      var logged := AppendEvent(closed.value, item, ToolFailed(record.id));
      if logged.Failure? {
        return Some(logged.error), c;
      }
      ghost var before := db;
      db := Put(db, logged.value);
      if OnRow(before, item) {
        W.ClosingIsRecorded(before, item, open, ToolCallFailed, Some(code), now, ToolFailed(record.id));
      }
      return None, c;
    }

    /** Message first, then each proposal's chart and execution, each in its own transaction. */
    method PersistResult(item: Task, messageId: Id, result: W.RunResult, ghost w0: W.Worker, ghost trail: Trail)
      returns (err: Option<ErrorCode>, ghost w: W.Worker, ghost t: Trail)
      requires w0.pc == W.SaveMessage && w0.item == item && w0.messageId == messageId && w0.result == result
      requires trail.At(db, w0)
      modifies this
      ensures t.Leads(trail, db, w)
      ensures w.item == item && w.open == w0.open && w.result == w0.result
      ensures if err.None? then w.pc == W.ToCompleted else w.pc == W.ClosingTools && w.error == err.value
    {
      err, w, t := PersistMessage(item, messageId, result, w0, trail);
      if err.Some? {
        return;
      }
      var k := 0;
      while k < |result.proposals|
        invariant k <= |result.proposals| && t.Leads(trail, db, w)
        invariant w.pc == (if k < |result.proposals| then W.SaveChart(k) else W.ToCompleted)
        invariant w.result == result && w.item == item && w.open == w0.open
      {
        err, w, t := PersistProposal(item, result.proposals[k], k, w, t);
        if err.Some? {
          return;
        }
        k := k + 1;
      }
      return None, w, t;
    }

    method PersistMessage(item: Task, messageId: Id, result: W.RunResult, ghost w0: W.Worker, ghost trail: Trail)
      returns (err: Option<ErrorCode>, ghost w: W.Worker, ghost t: Trail)
      requires w0.pc == W.SaveMessage && w0.item == item && w0.messageId == messageId && w0.result == result
      requires trail.At(db, w0)
      modifies this
      ensures t.Leads(trail, db, w)
      ensures w.item == item && w.open == w0.open && w.result == result
      ensures if err.None? then w.pc == W.NextProposal(w0, 0) else w.pc == W.ClosingTools && w.error == err.value
    {
      var outside: W.Choice := *;
      w := W.Step(db, w0, outside).1;
      ghost var before := db;
      if messageId == "" || W.Blank(result.text) {
        err := Some(InvalidArgument);
      } else {
        var saved := W.Guarded(outside.fault, SaveMessageTx(db, item, messageId, result.text));
        if saved.Failure? {
          err := Some(saved.error);
        } else {
          db := saved.value;
          err := None;
        }
      }
      TrailGrows(trail, before, w0, outside, db, w);
      t := trail.Then(outside, db, w);
    }

    method PersistProposal(item: Task, proposal: W.Proposal, ghost k: nat, ghost w0: W.Worker, ghost trail: Trail)
      returns (err: Option<ErrorCode>, ghost w: W.Worker, ghost t: Trail)
      requires w0.pc == W.SaveChart(k) && k < |w0.result.proposals| && w0.result.proposals[k] == proposal
      requires w0.item == item && trail.At(db, w0)
      modifies this
      ensures t.Leads(trail, db, w)
      ensures w.result == w0.result && w.item == item && w.open == w0.open
      ensures if err.None? then w.pc == W.NextProposal(w0, k + 1) else w.pc == W.ClosingTools && w.error == err.value
    {
      var created;
      created, w, t := PersistChart(item, proposal, k, w0, trail);
      if created.Failure? {
        return Some(created.error), w, t;
      }
      err, w, t := PersistExecution(item, proposal, created.value, k, w, t);
    }

    method PersistChart(item: Task, proposal: W.Proposal, ghost k: nat, ghost w0: W.Worker, ghost trail: Trail)
      returns (r: Result<Chart>, ghost w: W.Worker, ghost t: Trail)
      requires w0.pc == W.SaveChart(k) && k < |w0.result.proposals| && w0.result.proposals[k] == proposal
      requires w0.item == item && trail.At(db, w0)
      modifies this
      ensures t.Leads(trail, db, w)
      ensures w.result == w0.result && w.item == item && w.open == w0.open
      ensures if r.Success? then w.pc == W.SaveExecution(k, r.value) else w.pc == W.ClosingTools && w.error == r.error
    {
      var outside: W.Choice := *;
      w := W.Step(db, w0, outside).1;
      ghost var before := db;
      if outside.id == "" || proposal.title == "" || proposal.unit == "" || !proposal.queryOk {
        r := Failure(InvalidArgument);
      } else {
        var draft := Chart(outside.id, proposal.title, proposal.unit, Proposed, None, 1);
        var created := W.Guarded(outside.fault, SaveChartTx(db, item, draft));
        if created.Failure? {
          r := Failure(created.error);
        } else {
          db := created.value;
          r := Success(draft);
        }
      }
      TrailGrows(trail, before, w0, outside, db, w);
      t := trail.Then(outside, db, w);
    }

    method PersistExecution(item: Task, proposal: W.Proposal, draft: Chart, ghost k: nat, ghost w0: W.Worker, ghost trail: Trail)
      returns (err: Option<ErrorCode>, ghost w: W.Worker, ghost t: Trail)
      requires w0.pc == W.SaveExecution(k, draft) && k < |w0.result.proposals| && w0.result.proposals[k] == proposal
      requires w0.item == item && trail.At(db, w0)
      modifies this
      ensures t.Leads(trail, db, w)
      ensures w.result == w0.result && w.item == item && w.open == w0.open
      ensures if err.None? then w.pc == W.NextProposal(w0, k + 1) else w.pc == W.ClosingTools && w.error == err.value
    {
      var outside: W.Choice := *;
      w := W.Step(db, w0, outside).1;
      ghost var before := db;
      if draft.status != Proposed || outside.id == "" {
        err := Some(InvalidStateTransition);
      } else {
        var ready := draft.(status := Ready, latestExecution := Some(outside.id), version := draft.version + 1);
        var execution := Execution(draft.id, proposal.data);
        var executed := W.Guarded(outside.fault, SaveExecutionTx(db, item, outside.id, execution, ready));
        if executed.Failure? {
          err := Some(executed.error);
        } else {
          db := executed.value;
          err := None;
        }
      }
      TrailGrows(trail, before, w0, outside, db, w);
      t := trail.Then(outside, db, w);
    }
  }

  /** The sink the runtime writes its events to. */
  class DurableSink {
    const store: Store
    const task: AnalysisTask
    const messageId: Id
    var deltaOrdinal: nat
    var openCalls: map<Id, ToolCall>

    constructor (store: Store, task: AnalysisTask, messageId: Id, openCalls: map<Id, ToolCall>)
      ensures this.store == store && this.task == task && this.messageId == messageId
      ensures deltaOrdinal == 0 && this.openCalls == openCalls
    {
      this.store, this.task, this.messageId := store, task, messageId;
      this.deltaOrdinal, this.openCalls := 0, openCalls;
    }

    /** The worker this sink belongs to, while the runtime is at work. */
    ghost function Now(): W.Worker
      reads this, task
    {
      W.Start(task.value).(pc := W.AtRuntime, messageId := messageId, ordinal := deltaOrdinal, open := openCalls)
    }

    method Emit(e: W.AgentEvent) returns (err: Option<ErrorCode>, ghost c: W.Choice)
      modifies this, store
      ensures c.move == W.Emit(e)
      ensures W.Sink(old(store.db), old(Now()), c, e) == (store.db, Now(), err)
      ensures err.None? && OnRow(old(store.db), task.value) && e.kind == W.ToolStart && e.toolName != "" ==>
                && HoldsOpened(store.db, task.value.id, c.id, e.sourceCallId, e.toolName, c.now)
                && openCalls == old(openCalls)[e.sourceCallId := store.db.tasks[task.value.id].calls[c.id]]
      ensures err.None? && OnRow(old(store.db), task.value)
              && e.kind == W.ToolDone && e.toolName != "" && e.sourceCallId in old(openCalls) ==>
                && HoldsClosed(store.db, task.value.id, old(openCalls)[e.sourceCallId], ToolCallCompleted, None, c.now)
                && openCalls == old(openCalls) - {e.sourceCallId}
    {
      var outside: W.Choice := *;
      c := outside.(move := W.Emit(e));
      if e.kind == W.Unsupported {
        return Some(InvalidArgument), c;
      }
      var body: Payload;
      match e.kind {
        case MessageStart => body := MessageStarted(messageId);
        case Delta =>
          deltaOrdinal := deltaOrdinal + 1;
          body := MessageDelta(e.text, deltaOrdinal);
        case ToolStart => body := ToolStarted(None);
        case ToolDone => body := ToolCompleted(None);
        case _ => body := MetricCandidatesCreated;
      }
      if e.kind == W.ToolStart && e.toolName != "" {
        if e.sourceCallId == "" {
          return Some(InvalidArgument), c;
        }
        err := OpenCall(e, outside);
        return err, c;
      }
      if e.kind == W.ToolDone && e.toolName != "" {
        if e.sourceCallId == "" {
          return Some(InvalidArgument), c;
        }
        if e.sourceCallId in openCalls {
          err := CompleteOpenCall(e, outside);
          return err, c;
        }
      }
      var appended := W.Guarded(outside.fault, AppendTx(store.db, task.value, body));
      if appended.Failure? {
        return Some(appended.error), c;
      }
      store.db := appended.value;
      return None, c;
    }

    /** A named start: the call's row and its event commit together, and the sink remembers the call. */
    method OpenCall(e: W.AgentEvent, outside: W.Choice) returns (err: Option<ErrorCode>)
      modifies this`openCalls, store
      ensures match W.Guarded(outside.fault, StartToolTx(old(store.db), task.value, W.OpenedCall(outside, e)))
              case Success(db') =>
                store.db == db' && err == None && openCalls == old(openCalls)[e.sourceCallId := W.OpenedCall(outside, e)]
              case Failure(code) => store.db == old(store.db) && err == Some(code) && openCalls == old(openCalls)
      ensures err.None? && OnRow(old(store.db), task.value) ==>
                && HoldsOpened(store.db, task.value.id, outside.id, e.sourceCallId, e.toolName, outside.now)
                && openCalls == old(openCalls)[e.sourceCallId := store.db.tasks[task.value.id].calls[outside.id]]
    {
      var record := ToolCall(outside.id, e.sourceCallId, e.toolName, ToolCallStarted, None, outside.now, None, None, 1);
      var started := W.Guarded(outside.fault, StartToolTx(store.db, task.value, record));
      if started.Failure? {
        return Some(started.error);
      }
      ghost var before := store.db;
      store.db := started.value;
      openCalls := openCalls[e.sourceCallId := record];
      if OnRow(before, task.value) {
        W.OpeningIsRecorded(before, task.value, outside, e);
      }
      return None;
    }

    /** A named completion of an open call: its row and its event commit together, and the sink forgets it. */
    method CompleteOpenCall(e: W.AgentEvent, outside: W.Choice) returns (err: Option<ErrorCode>)
      requires e.sourceCallId in openCalls
      modifies this`openCalls, store
      ensures var call := W.ClosedCall(old(openCalls)[e.sourceCallId], ToolCallCompleted, None, outside.now);
              match W.Guarded(outside.fault, CloseToolTx(old(store.db), task.value, call, ToolCompleted(Some(call.id))))
              case Success(db') => store.db == db' && err == None && openCalls == old(openCalls) - {e.sourceCallId}
              case Failure(code) => store.db == old(store.db) && err == Some(code) && openCalls == old(openCalls)
      ensures err.None? && OnRow(old(store.db), task.value) ==>
                HoldsClosed(store.db, task.value.id, old(openCalls)[e.sourceCallId], ToolCallCompleted, None, outside.now)
    {
      var record := openCalls[e.sourceCallId];
      var duration := Milliseconds(outside.now - record.startedAt);
      if duration < 0 {
        duration := 0;
      }
      record := record.(status := ToolCallCompleted, error := None, completedAt := Some(outside.now),
                        duration := Some(duration), version := record.version + 1);
      var closed := W.Guarded(outside.fault, CloseToolTx(store.db, task.value, record, ToolCompleted(Some(record.id))));
      if closed.Failure? {
        return Some(closed.error);
      }
      ghost var before, call := store.db, openCalls[e.sourceCallId];
      store.db := closed.value;
      openCalls := openCalls - {e.sourceCallId};
      if OnRow(before, task.value) {
        W.ClosingIsRecorded(before, task.value, call, ToolCallCompleted, None, outside.now, ToolCompleted(Some(record.id)));
      }
      return None;
    }

    /** Closes one open call, the first in key order. */
    method FailTool(key: Id, code: ErrorCode, ghost w0: W.Worker, ghost trail: Trail)
      returns (err: Option<ErrorCode>, ghost w: W.Worker, ghost t: Trail)
      requires openCalls.Keys != {} && key == LeastText(openCalls.Keys)
      requires w0.pc == W.ClosingTools && w0.item == task.value && w0.open == openCalls && w0.error == code
      requires trail.At(store.db, w0)
      modifies this`openCalls, store
      ensures t.Leads(trail, store.db, w)
      ensures w == w0.(pc := if err.None? then W.ClosingTools else W.Failing, open := openCalls)
      ensures err.None? ==> openCalls == old(openCalls) - {key}
      ensures err.None? && OnRow(old(store.db), task.value) ==>
                && OnRow(store.db, task.value) && HoldsFailed(store.db, task.value.id, old(openCalls)[key], code)
                && OthersStand(old(store.db), store.db, task.value.id, old(openCalls)[key].id)
    {
      ghost var before := store.db;
      ghost var c;
      err, c := store.FailCall(task.value, openCalls[key], code);
      CloseNext(before, w0, c, key);
      w := W.Step(before, w0, c).1;
      if err.None? {
        openCalls := openCalls - {key};
      }
      TrailGrows(trail, before, w0, c, store.db, w);
      t := trail.Then(c, store.db, w);
    }

    /** Closes every open call in key order, stopping at the first store error. */
    method FailOpenTools(code: ErrorCode, ghost w0: W.Worker, ghost trail: Trail)
      returns (err: Option<ErrorCode>, ghost w: W.Worker, ghost t: Trail)
      requires w0.pc == W.ClosingTools && w0.item == task.value && w0.open == openCalls && w0.error == code
      requires trail.At(store.db, w0)
      modifies this`openCalls, store
      ensures t.Leads(trail, store.db, w)
      ensures w == w0.(pc := W.Failing, open := openCalls)
      ensures err.None? ==> openCalls == map[]
      ensures err.None? && OnRow(old(store.db), task.value) && DistinctCalls(old(openCalls)) ==>
                forall key :: key in old(openCalls) ==> HoldsFailed(store.db, task.value.id, old(openCalls)[key], code)
    {
      var keys := SortedKeys(openCalls.Keys);
      t, w := trail, w0;
      var i := 0;
      while i < |keys|
        invariant i <= |keys| && StillToClose(keys, i, openCalls.Keys)
        invariant t.Leads(trail, store.db, w)
        invariant w == w0.(open := openCalls)
        invariant forall key :: key in openCalls ==> key in old(openCalls) && openCalls[key] == old(openCalls)[key]
        invariant OnRow(old(store.db), task.value) && DistinctCalls(old(openCalls)) ==>
                    OnRow(store.db, task.value) && GoneAreFailed(old(openCalls), openCalls, store.db, task.value.id, code)
      {
        ghost var db, open := store.db, openCalls;
        err, w, t := FailTool(keys[i], code, w, t);
        if err.Some? {
          return;
        }
        if OnRow(old(store.db), task.value) && DistinctCalls(old(openCalls)) {
          OneMoreFailed(old(openCalls), open, keys[i], db, store.db, task.value.id, code);
        }
        i := i + 1;
      }
      var last: W.Choice := *;
      NothingToClose(keys, store.db, w, last, t);
      w := w.(pc := W.Failing);
      t := t.Then(last, store.db, w);
      return None, w, t;
    }
  }

  ghost predicate HoldsFailed(db: Db, task: Id, before: ToolCall, code: ErrorCode) {
    exists now :: HoldsClosed(db, task, before, ToolCallFailed, Some(code), now)
  }

  ghost predicate DistinctCalls(open: map<Id, ToolCall>) {
    forall a, b :: a in open && b in open && a != b ==> open[a].id != open[b].id
  }

  /** The calls no longer open are on record as failed. */
  ghost predicate GoneAreFailed(open0: map<Id, ToolCall>, open: map<Id, ToolCall>, db: Db, task: Id, code: ErrorCode) {
    forall key :: key in open0 && key !in open ==> HoldsFailed(db, task, open0[key], code)
  }

  lemma OneMoreFailed(open0: map<Id, ToolCall>, open: map<Id, ToolCall>, key: Id, db: Db, db': Db, task: Id, code: ErrorCode)
    requires DistinctCalls(open0) && key in open && GoneAreFailed(open0, open, db, task, code)
    requires forall k :: k in open ==> k in open0 && open[k] == open0[k]
    requires HoldsFailed(db', task, open[key], code) && OthersStand(db, db', task, open[key].id)
    ensures GoneAreFailed(open0, open - {key}, db', task, code)
  {
    forall k | k in open0 && k !in open - {key} ensures HoldsFailed(db', task, open0[k], code) {
      if k != key {
        var now :| HoldsClosed(db, task, open0[k], ToolCallFailed, Some(code), now);
        assert HoldsClosed(db', task, open0[k], ToolCallFailed, Some(code), now);
      }
    }
  }

  /** From position `i` on, each key is the least of those still open, and they are all there is. */
  ghost predicate StillToClose(keys: seq<Id>, i: nat, open: set<Id>)
    requires i <= |keys|
    decreases |keys| - i
  {
    if i == |keys| then open == {} else
      open != {} && keys[i] == LeastText(open) && StillToClose(keys, i + 1, open - {keys[i]})
  }

  method SortedKeys(open: set<Id>) returns (keys: seq<Id>)
    ensures StillToClose(keys, 0, open)
  {
    keys := SortedText(open);
    SortedFrom(keys, 0, open);
  }

  lemma {:induction false} SortedFrom(keys: seq<Id>, i: nat, open: set<Id>)
    requires i <= |keys| && keys[i..] == SortedText(open)
    ensures StillToClose(keys, i, open)
    decreases |keys| - i
  {
    if i < |keys| {
      assert keys[i] == keys[i..][0] && keys[i + 1..] == keys[i..][1..];
      SortedFrom(keys, i + 1, open - {keys[i]});
    } else {
      assert |open| == 0;
    }
  }

  lemma NothingToClose(keys: seq<Id>, db: Db, w: W.Worker, c: W.Choice, t: Trail)
    requires w.pc == W.ClosingTools && StillToClose(keys, |keys|, w.open.Keys) && t.At(db, w)
    ensures w.open == map[] && t.Then(c, db, w.(pc := W.Failing)).Leads(t, db, w.(pc := W.Failing))
  {
    TrailGrows(t, db, w, c, db, w.(pc := W.Failing));
  }

  lemma CloseNext(db: Db, w: W.Worker, c: W.Choice, key: Id)
    requires w.pc == W.ClosingTools && w.open.Keys != {} && key == LeastText(w.open.Keys)
    ensures var call := W.ClosedCall(w.open[key], ToolCallFailed, Some(w.error), c.now);
            W.Step(db, w, c) ==
            match W.Guarded(c.fault, CloseToolTx(db, w.item, call, ToolFailed(call.id)))
            case Success(db') => (db', w.(open := w.open - {key}))
            case Failure(_) => (db, w.(pc := W.Failing))
    ensures (w.open - {key}).Keys == w.open.Keys - {key}
  {
  }
}
