/** The create commands as the service runs them: reads, then one transaction on a copy of the
    database that is committed whole or dropped. */
module CommandService {
  import opened Basics
  import opened TaskLifecycle
  import opened EventLog
  import opened Database
  import opened Creation
  import opened DurableStore
  import W = Worker

  /** How an attempt that reached its transaction ended: as the transaction says, or, if the store
      faulted anywhere in it, with nothing changed. */
  ghost predicate TaskTxEnded(met: Db, after: Db, req: TaskRequest, a: Attempt, fault: bool, r: Result<Task>, run: bool) {
    match W.Guarded(fault, CreateTaskTx(met, req, a))
    case Success(done) => after == done.0 && r == Success(done.1) && run == done.2
    case Failure(code) => after == met && r == Failure(code) && !run
  }

  const MAX_MESSAGE_CHARACTERS := 4000

  predicate Malformed(req: TaskRequest) {
    req.tenant == "" || req.user == "" || W.Blank(req.sessionId) || W.Blank(req.message)
    || |req.message| > MAX_MESSAGE_CHARACTERS || req.key == ""
  }

  class Service {
    const store: Store

    constructor (store: Store)
      ensures this.store == store
    {
      this.store := store;
    }

    /** Whatever other requests and workers commit in the meantime. */
    method Meanwhile()
      modifies store
    {
      var other: Db := *;
      store.db := other;
    }

    method CreateSession(req: SessionRequest) returns (r: Result<Session>, ghost now: int, ghost storeNow: int, ghost id: GeneratedId, ghost fault: bool)
      modifies store
      ensures req.tenant == "" || req.user == "" || W.Blank(req.title) || req.key == "" ==>
                r == Failure(InvalidArgument) && store.db == old(store.db)
      ensures r.Success? && DbInv(old(store.db)) && r.value.id !in old(store.db).sessions ==>
                && r.value == Session(id, req.tenant, req.user, now, 1) && store.db.sessions == old(store.db).sessions[id := r.value]
                && KeyNames(old(store.db), store.db, req.tenant, Scope.CreateSession, req.key, req.requestHash, id, now)
      ensures !(req.tenant == "" || req.user == "" || W.Blank(req.title) || req.key == "") ==>
                match W.Guarded(fault, CreateSessionTx(old(store.db), req, now, storeNow, id))
                case Success(done) => store.db == done.0 && r == Success(done.1)
                case Failure(code) => store.db == old(store.db) && r == Failure(code)
    {
      var acceptedAt: int, reservedAt: int, newId: GeneratedId, faults: bool := *, *, *, *;
      now, storeNow, id, fault := acceptedAt, reservedAt, newId, faults;
      if req.tenant == "" || req.user == "" || W.Blank(req.title) || req.key == "" {
        return Failure(InvalidArgument), now, storeNow, id, fault;
      }
      if faults {
        return Failure(InternalError), now, storeNow, id, fault;
      }
      var key := IdempotencyKey(req.tenant, Scope.CreateSession, req.key);
      var reserved := Reserve(store.db, key, req.requestHash, reservedAt, acceptedAt + IDEMPOTENCY_TTL);
      if reserved.Failure? {
        return Failure(reserved.error), now, storeNow, id, fault;
      }
      var copy := reserved.value.0;
      if reserved.value.1.Some? {
        r := OwnedSession(copy, req.tenant, req.user, reserved.value.1.value);
        if r.Success? {
          store.db := copy;
        }
        return;
      }
      if newId == "" {
        return Failure(InvalidArgument), now, storeNow, id, fault;
      }
      if newId in copy.sessions {
        return Failure(ResourceConflict), now, storeNow, id, fault;
      }
      var session := Session(newId, req.tenant, req.user, acceptedAt, 1);
      copy := copy.(sessions := copy.sessions[newId := session]);
      var done := Complete(copy, key, newId);
      if done.Failure? {
        return Failure(done.error), now, storeNow, id, fault;
      }
      store.db := done.value;
      return Success(session), now, storeNow, id, fault;
    }

    /** The read settles the request if the key is known; otherwise planning takes its time, and the
        transaction runs on whatever database it then meets. */
    method CreateTask(req: TaskRequest)
      returns (r: Result<Task>, run: bool, ghost reached: bool, ghost planned: TaskRequest, ghost met: Db, ghost a: Attempt, ghost fault: bool)
      modifies store
      ensures Malformed(req) ==> r == Failure(InvalidArgument) && !run && store.db == old(store.db)
      ensures !Malformed(req) && PreCheck(old(store.db), req).Some? ==>
                PreCheck(old(store.db), req) == Some(r) && !run && store.db == old(store.db)
      ensures !Malformed(req) && PreCheck(old(store.db), req).None? ==>
                if reached then
                  && planned == req.(views := planned.views)
                  && TaskTxEnded(met, store.db, planned, a, fault, r, run)
                  && (run && DbInv(met) ==>
                        && CreatesTask(met, store.db, planned, a)
                        && r == Success(store.db.tasks[a.taskId].row) && r.value.views == planned.views
                        && KeyNames(met, store.db, req.tenant, Scope.CreateTask, req.key, req.requestHash, a.taskId, a.acceptedAt))
                else r.Failure? && !run
    {
      run, reached, planned, met := false, false, req, store.db;
      var attempt: Attempt, faults: bool := *, *;
      a, fault := attempt, faults;
      if req.tenant == "" || req.user == "" || W.Blank(req.sessionId) || W.Blank(req.message)
         || |req.message| > MAX_MESSAGE_CHARACTERS || req.key == "" {
        r := Failure(InvalidArgument);
        return;
      }
      var key := IdempotencyKey(req.tenant, Scope.CreateTask, req.key);
      if key in store.db.keys {
        var existing := store.db.keys[key];
        if existing.requestHash != req.requestHash {
          r := Failure(IdempotencyConflict);
          return;
        }
        if existing.resource.Some? {
          r := OwnedTask(store.db, req.tenant, req.user, existing.resource.value);
          return;
        }
      }
      var owned := OwnedSession(store.db, req.tenant, req.user, req.sessionId);
      if owned.Failure? {
        r := Failure(owned.error);
        return;
      }
      var plan: Result<seq<string>> := *;
      Meanwhile();
      match plan
      case Failure(code) => r := Failure(code);
      case Success(views) =>
        reached, planned, met := true, req.(views := views), store.db;
        r, run := RunTaskTx(req.(views := views), attempt, faults);
        if run && DbInv(met) {
          CreationIsRecorded(met, planned, a);
        }
    }

    /** The transaction, statement by statement. */
    method RunTaskTx(req: TaskRequest, a: Attempt, fault: bool) returns (r: Result<Task>, run: bool)
      modifies store
      ensures TaskTxEnded(old(store.db), store.db, req, a, fault, r, run)
    {
      if fault {
        return Failure(InternalError), false;
      }
      var key := IdempotencyKey(req.tenant, Scope.CreateTask, req.key);
      var reserved := Reserve(store.db, key, req.requestHash, a.storeNow, a.acceptedAt + IDEMPOTENCY_TTL);
      if reserved.Failure? {
        return Failure(reserved.error), false;
      }
      var copy := reserved.value.0;
      if reserved.value.1.Some? {
        r := OwnedTask(copy, req.tenant, req.user, reserved.value.1.value);
        if r.Success? {
          store.db := copy;
        }
        return r, false;
      }
      var inserted := InsertRows(copy, req, a);
      InsertTaskOutcome(copy, req, a);
      if inserted.Failure? {
        return Failure(inserted.error), false;
      }
      var done := Complete(inserted.value.0, key, a.taskId);
      if done.Failure? {
        assert false;
      }
      store.db := done.value;
      return Success(inserted.value.1), true;
    }

    /** The rows of a new task: message, task, task.created, and the touch of its session. */
    method InsertRows(db: Db, req: TaskRequest, a: Attempt) returns (r: Result<(Db, Task)>)
      ensures InsertedAs(r, db, req, a)
      ensures r.Success? ==>
                a.taskId in r.value.0.tasks && IsNewTask(r.value.0.tasks[a.taskId], req, a) && r.value.1 == r.value.0.tasks[a.taskId].row
    {
      var session := OwnedSession(db, req.tenant, req.user, req.sessionId);
      if session.Failure? {
        return Failure(session.error);
      }
      if a.taskId == "" || a.messageId == "" || W.Blank(req.message) {
        return Failure(InvalidArgument);
      }
      var copy := Claim(db, Messages, a.messageId);
      if copy.Failure? {
        return Failure(copy.error);
      }
      if a.taskId in copy.value.tasks || HasActiveTask(copy.value, req.tenant, req.sessionId) {
        return Failure(ResourceConflict);
      }
      var row := NewTask(req, a);
      var created := AppendEvent(TaskData(row, [], map[], map[], map[], None), row, TaskCreated);
      FirstEventLands(req, a);
      ActiveIgnoresRows(db, copy.value.rows, req.tenant, req.sessionId);
      if created.Failure? {
        assert false;
      }
      if a.acceptedAt < session.value.updatedAt {
        return Failure(InvalidStateTransition);
      }
      var touched := session.value.(updatedAt := a.acceptedAt, version := session.value.version + 1);
      var stored := Put(copy.value, created.value);
      return Success((stored.(sessions := stored.sessions[session.value.id := touched]), created.value.row));
    }
  }
}
