/** The idempotent commands: one transaction reserves the key, creates the resource and completes the key. */
module Creation {
  import opened Basics
  import opened TaskLifecycle
  import opened EventLog
  import opened ClientView
  import opened Database
  import opened TaskInvariant
  import opened WorkerInvariant
  import opened Worker

  const IDEMPOTENCY_TTL := 24 * 3600 * 1_000_000_000

  datatype TaskRequest = TaskRequest(
    tenant: Id, user: Id, sessionId: Id, message: string, views: seq<string>, key: string, requestHash: string)

  /** The clocks and generated ids one attempt sees: the service's clock and the store's own. */
  datatype Attempt = Attempt(acceptedAt: int, storeNow: int, taskId: GeneratedId, messageId: GeneratedId)

  function KeyOf(req: TaskRequest): IdempotencyKey {
    IdempotencyKey(req.tenant, CreateTask, req.key)
  }

  function OwnedSession(db: Db, tenant: Id, user: Id, id: Id): Result<Session> {
    if id in db.sessions && db.sessions[id].tenant == tenant && db.sessions[id].owner == user then
      Success(db.sessions[id])
    else Failure(ResourceNotFound)
  }

  function OwnedTask(db: Db, tenant: Id, user: Id, id: Id): Result<Task> {
    var td :- FindTask(db, tenant, id);
    var _ :- OwnedSession(db, tenant, user, td.row.sessionId);
    Success(td.row)
  }

  /** Inserts the key, or reuses an expired one; otherwise hands back what the key already names. */
  function Reserve(db: Db, key: IdempotencyKey, requestHash: string, now: int, expiresAt: int): Result<(Db, Option<Id>)> {
    if key.tenant == "" || key.key == "" || requestHash == "" then Failure(InvalidArgument)
    else if key !in db.keys || db.keys[key].expiresAt <= now then
      Success((db.(keys := db.keys[key := IdempotencyRecord(requestHash, None, expiresAt)]), None))
    else if db.keys[key].requestHash != requestHash then Failure(IdempotencyConflict)
    else Success((db, db.keys[key].resource))
  }

  function Complete(db: Db, key: IdempotencyKey, resource: Id): Result<Db> {
    if resource == "" then Failure(InvalidArgument)
    else if key !in db.keys then Failure(ResourceConflict)
    else Success(db.(keys := db.keys[key := db.keys[key].(resource := Some(resource))]))
  }

  predicate HasActiveTask(db: Db, tenant: Id, sessionId: Id) {
    exists t :: t in db.tasks && db.tasks[t].row.tenant == tenant && db.tasks[t].row.sessionId == sessionId
                && !Terminal(db.tasks[t].row.status)
  }

  function NewTask(req: TaskRequest, a: Attempt): Task {
    Task(a.taskId, req.tenant, req.sessionId, a.messageId, req.views, Created, 0, None, a.acceptedAt, None, None, 1)
  }

  /** Message, task, task.created event and session touch, in statement order. */
  function InsertTask(db: Db, req: TaskRequest, a: Attempt): Result<(Db, Task)> {
    var session :- OwnedSession(db, req.tenant, req.user, req.sessionId);
    if a.taskId == "" || a.messageId == "" || Blank(req.message) then Failure(InvalidArgument) else
    var claimed :- Claim(db, Messages, a.messageId);
    if a.taskId in claimed.tasks || HasActiveTask(claimed, req.tenant, req.sessionId) then Failure(ResourceConflict) else
    var inserted := TaskData(NewTask(req, a), [], map[], map[], map[], None);
    var created :- AppendEvent(inserted, NewTask(req, a), TaskCreated);
    if a.acceptedAt < session.updatedAt then Failure(InvalidStateTransition) else
    var touched := session.(updatedAt := a.acceptedAt, version := session.version + 1);
    var stored := Put(claimed, created);
    Success((stored.(sessions := stored.sessions[session.id := touched]), created.row))
  }

  /** The transaction of the create-task command; the flag says whether this caller starts the run. */
  function CreateTaskTx(db: Db, req: TaskRequest, a: Attempt): Result<(Db, Task, bool)> {
    var reserved :- Reserve(db, KeyOf(req), req.requestHash, a.storeNow, a.acceptedAt + IDEMPOTENCY_TTL);
    if reserved.1.Some? then
      var existing :- OwnedTask(reserved.0, req.tenant, req.user, reserved.1.value);
      Success((reserved.0, existing, false))
    else
      var inserted :- InsertTask(reserved.0, req, a);
      var done :- Complete(inserted.0, KeyOf(req), a.taskId);
      Success((done, inserted.1, true))
  }

  /** The read before the transaction: it may answer at once, and it ignores expiry. */
  function PreCheck(db: Db, req: TaskRequest): Option<Result<Task>> {
    if KeyOf(req) !in db.keys then None
    else if db.keys[KeyOf(req)].requestHash != req.requestHash then Some(Failure(IdempotencyConflict))
    else if db.keys[KeyOf(req)].resource.Some? then
      Some(OwnedTask(db, req.tenant, req.user, db.keys[KeyOf(req)].resource.value))
    else None
  }

  datatype SessionRequest = SessionRequest(tenant: Id, user: Id, title: string, key: string, requestHash: string)

  function SessionKeyOf(req: SessionRequest): IdempotencyKey {
    IdempotencyKey(req.tenant, CreateSession, req.key)
  }

  function CreateSessionTx(db: Db, req: SessionRequest, now: int, storeNow: int, id: GeneratedId): Result<(Db, Session)> {
    var reserved :- Reserve(db, SessionKeyOf(req), req.requestHash, storeNow, now + IDEMPOTENCY_TTL);
    if reserved.1.Some? then
      var existing :- OwnedSession(reserved.0, req.tenant, req.user, reserved.1.value);
      Success((reserved.0, existing))
    else if id == "" || req.user == "" || Blank(req.title) then Failure(InvalidArgument)
    else if id in reserved.0.sessions then Failure(ResourceConflict)
    else
      var session := Session(id, req.tenant, req.user, now, 1);
      var done :- Complete(reserved.0.(sessions := reserved.0.sessions[id := session]), SessionKeyOf(req), id);
      Success((done, session))
  }

  // ------------------------------------------------------------------ invariants

  ghost predicate TasksInv(tasks: map<Id, TaskData>, rows: set<RowKey>) {
    forall t {:trigger TaskOk(tasks[t], t, rows)} :: t in tasks ==> TaskOk(tasks[t], t, rows)
  }

  /** At a transaction boundary no key is merely reserved, and every key names an existing resource. */
  ghost predicate KeysInv(keys: map<IdempotencyKey, IdempotencyRecord>, tasks: map<Id, TaskData>, sessions: map<Id, Session>) {
    forall k :: k in keys ==> keys[k].resource.Some? && Names(k, keys[k].resource.value, tasks, sessions)
  }

  ghost predicate Names(k: IdempotencyKey, r: Id, tasks: map<Id, TaskData>, sessions: map<Id, Session>) {
    match k.scope
    case CreateTask => r in tasks && tasks[r].row.tenant == k.tenant
    case CreateSession => r in sessions && sessions[r].tenant == k.tenant
  }

  ghost predicate SessionsInv(sessions: map<Id, Session>, tasks: map<Id, TaskData>) {
    && (forall id :: id in sessions ==> sessions[id].id == id)
    && (forall t :: t in tasks ==>
          tasks[t].row.sessionId in sessions && sessions[tasks[t].row.sessionId].tenant == tasks[t].row.tenant)
  }

  /** A session never has two tasks in progress. */
  ghost predicate OneActive(tasks: map<Id, TaskData>) {
    forall a, b :: a in tasks && b in tasks && a != b
      && tasks[a].row.tenant == tasks[b].row.tenant && tasks[a].row.sessionId == tasks[b].row.sessionId
      ==> Terminal(tasks[a].row.status) || Terminal(tasks[b].row.status)
  }

  ghost predicate DbInv(db: Db) {
    && TasksInv(db.tasks, db.rows)
    && KeysInv(db.keys, db.tasks, db.sessions)
    && SessionsInv(db.sessions, db.tasks)
    && OneActive(db.tasks)
  }

  ghost function FreshTask(req: TaskRequest, a: Attempt): TaskData {
    TaskData(NewTask(req, a).(latestSequence := 1), [Event(1, TaskCreated)], map[], map[], map[], None)
  }

  /** The first event of a new task takes number 1. */
  lemma FirstEventLands(req: TaskRequest, a: Attempt)
    ensures AppendEvent(TaskData(NewTask(req, a), [], map[], map[], map[], None), NewTask(req, a), TaskCreated)
            == Success(FreshTask(req, a))
  {
    assert [Event(1, TaskCreated)] == [] + [Event(1, TaskCreated)];
  }

  lemma FreshTaskInv(req: TaskRequest, a: Attempt, rows: set<RowKey>)
    ensures TaskInv(FreshTask(req, a)) && RowsClaimed(FreshTask(req, a), rows)
  {
    assert [Event(1, TaskCreated)] == [] + [Event(1, TaskCreated)];
    AppendSteps([], TaskCreated);
  }

  ghost function WithTask(db: Db, req: TaskRequest, a: Attempt, session: Session): Db {
    Db(db.sessions[session.id := session.(updatedAt := a.acceptedAt, version := session.version + 1)],
       db.tasks[a.taskId := FreshTask(req, a)], db.rows + {RowKey(Messages, a.messageId)}, db.keys)
  }

  predicate Unnamed(req: TaskRequest, a: Attempt) {
    a.taskId == "" || a.messageId == "" || Blank(req.message)
  }

  ghost predicate Taken(db: Db, req: TaskRequest, a: Attempt) {
    RowKey(Messages, a.messageId) in db.rows || a.taskId in db.tasks || HasActiveTask(db, req.tenant, req.sessionId)
  }

  /** The rows can go in: the session is the caller's, nothing is blank or taken, and time has not run back. */
  ghost predicate Insertable(db: Db, req: TaskRequest, a: Attempt) {
    var owned := OwnedSession(db, req.tenant, req.user, req.sessionId);
    owned.Success? && !Unnamed(req, a) && !Taken(db, req, a) && owned.value.updatedAt <= a.acceptedAt
  }

  /** What the inserts come to: the task with its message, its first event and the touched session, or,
      for exactly these reasons, an error. */
  ghost predicate InsertedAs(r: Result<(Db, Task)>, db: Db, req: TaskRequest, a: Attempt) {
    var owned := OwnedSession(db, req.tenant, req.user, req.sessionId);
    && (r == Failure(ResourceNotFound) <==> owned.Failure?)
    && (r == Failure(InvalidArgument) <==> owned.Success? && Unnamed(req, a))
    && (r == Failure(ResourceConflict) <==> owned.Success? && !Unnamed(req, a) && Taken(db, req, a))
    && (r == Failure(InvalidStateTransition) <==>
          owned.Success? && !Unnamed(req, a) && !Taken(db, req, a) && a.acceptedAt < owned.value.updatedAt)
    && (r.Success? <==> Insertable(db, req, a))
    && (r.Success? ==> r.value == (WithTask(db, req, a, owned.value), FreshTask(req, a).row))
  }

  lemma InsertTaskOutcome(db: Db, req: TaskRequest, a: Attempt)
    ensures InsertedAs(InsertTask(db, req, a), db, req, a)
  {
    FirstEventLands(req, a);
    ActiveIgnoresRows(db, db.rows + {RowKey(Messages, a.messageId)}, req.tenant, req.sessionId);
  }

  lemma ActiveIgnoresRows(db: Db, rows: set<RowKey>, tenant: Id, sessionId: Id)
    ensures HasActiveTask(db.(rows := rows), tenant, sessionId) <==> HasActiveTask(db, tenant, sessionId)
  {
    assert db.(rows := rows).tasks == db.tasks;
  }

  lemma MoreRows(tasks: map<Id, TaskData>, rows: set<RowKey>, rows': set<RowKey>)
    requires TasksInv(tasks, rows) && rows <= rows'
    ensures TasksInv(tasks, rows')
  {
    forall t | t in tasks ensures TaskOk(tasks[t], t, rows') {
      assert TaskOk(tasks[t], t, rows);
    }
  }

  lemma OneMoreTask(tasks: map<Id, TaskData>, rows: set<RowKey>, id: Id, td: TaskData)
    requires TasksInv(tasks, rows) && TaskOk(td, id, rows)
    ensures TasksInv(tasks[id := td], rows)
  {
  }

  lemma OneMoreActive(tasks: map<Id, TaskData>, sessions: map<Id, Session>, sessions': map<Id, Session>, id: Id, td: TaskData)
    requires OneActive(tasks) && SessionsInv(sessions, tasks) && id !in tasks
    requires forall t :: t in tasks && tasks[t].row.tenant == td.row.tenant && tasks[t].row.sessionId == td.row.sessionId
               ==> Terminal(tasks[t].row.status)
    requires td.row.sessionId in sessions && sessions[td.row.sessionId].tenant == td.row.tenant
    requires forall s :: s in sessions' <==> s in sessions
    requires forall s :: s in sessions ==> sessions'[s].tenant == sessions[s].tenant && sessions'[s].id == s
    ensures OneActive(tasks[id := td]) && SessionsInv(sessions', tasks[id := td])
  {
  }

  lemma CreatedKeysKeep(db: Db, db': Db, key: IdempotencyKey, requestHash: string, expiresAt: int, resource: Id)
    requires KeysInv(db.keys, db.tasks, db.sessions)
    requires forall t :: t in db.tasks ==> t in db'.tasks && db'.tasks[t].row.tenant == db.tasks[t].row.tenant
    requires forall x :: x in db.sessions ==> x in db'.sessions && db'.sessions[x].tenant == db.sessions[x].tenant
    requires db'.keys == db.keys[key := IdempotencyRecord(requestHash, Some(resource), expiresAt)]
    requires Names(key, resource, db'.tasks, db'.sessions)
    ensures KeysInv(db'.keys, db'.tasks, db'.sessions)
  {
  }

  /** The two ways a create-task transaction can commit: the key already names a task and nothing
      changes, or the task is inserted and named by the key, and this caller runs it. */
  lemma CreateTaskOutcome(db: Db, req: TaskRequest, a: Attempt)
    requires CreateTaskTx(db, req, a).Success?
    ensures var key := KeyOf(req);
            var live := key in db.keys && a.storeNow < db.keys[key].expiresAt;
            if live && db.keys[key].resource.Some? then
              && db.keys[key].requestHash == req.requestHash
              && OwnedTask(db, req.tenant, req.user, db.keys[key].resource.value).Success?
              && CreateTaskTx(db, req, a) ==
                 Success((db, OwnedTask(db, req.tenant, req.user, db.keys[key].resource.value).value, false))
            else
              && OwnedSession(db, req.tenant, req.user, req.sessionId).Success?
              && a.taskId !in db.tasks && !HasActiveTask(db, req.tenant, req.sessionId)
              && var expiry := if live then db.keys[key].expiresAt else a.acceptedAt + IDEMPOTENCY_TTL;
                 var session := OwnedSession(db, req.tenant, req.user, req.sessionId).value;
                 CreateTaskTx(db, req, a) ==
                 Success((CreatedDb(db, req, a, session, expiry), FreshTask(req, a).row, true))
  {
    var reserved := Reserve(db, KeyOf(req), req.requestHash, a.storeNow, a.acceptedAt + IDEMPOTENCY_TTL).value;
    if reserved.1.None? {
      InsertTaskOutcome(reserved.0, req, a);
      assert !HasActiveTask(reserved.0, req.tenant, req.sessionId);
      var key := KeyOf(req);
      var rec := reserved.0.keys[key];
      assert reserved.0.keys[key := rec.(resource := Some(a.taskId))]
          == db.keys[key := IdempotencyRecord(req.requestHash, Some(a.taskId), rec.expiresAt)];
    }
  }

  /** A reserved key whose rows go in is completed in the same transaction. */
  lemma InsertedIsCompleted(db: Db, req: TaskRequest, a: Attempt, reserved: Db, inserted: Db, row: Task)
    requires Reserve(db, KeyOf(req), req.requestHash, a.storeNow, a.acceptedAt + IDEMPOTENCY_TTL) == Success((reserved, None))
    requires InsertTask(reserved, req, a) == Success((inserted, row)) && a.taskId != "" && KeyOf(req) in inserted.keys
    ensures CreateTaskTx(db, req, a) ==
            Success((inserted.(keys := inserted.keys[KeyOf(req) := inserted.keys[KeyOf(req)].(resource := Some(a.taskId))]), row, true))
  {
  }

  /** A new task's row, column by column: planned as asked, not started, not ended, not failed. */
  ghost predicate IsNewRow(row: Task, req: TaskRequest, a: Attempt) {
    && row.id == a.taskId && row.tenant == req.tenant && row.sessionId == req.sessionId
    && row.inputMessageId == a.messageId && row.views == req.views
    && row.status == Created && row.version == 1 && row.latestSequence == 1
    && row.createdAt == a.acceptedAt && row.startedAt.None? && row.completedAt.None? && row.error.None?
  }

  /** A new task: its row, its first event, and nothing else yet. */
  ghost predicate IsNewTask(td: TaskData, req: TaskRequest, a: Attempt) {
    && IsNewRow(td.row, req, a) && td.log == [Event(1, TaskCreated)]
    && td.calls == map[] && td.charts == map[] && td.executions == map[] && td.reply.None?
  }

  /** What a committed creation changes, table by table. */
  ghost predicate CreatesTask(db: Db, db': Db, req: TaskRequest, a: Attempt) {
    && a.taskId !in db.tasks && a.taskId in db'.tasks && IsNewTask(db'.tasks[a.taskId], req, a)
    && db'.tasks == db.tasks[a.taskId := db'.tasks[a.taskId]]
    && RowKey(Messages, a.messageId) !in db.rows && db'.rows == db.rows + {RowKey(Messages, a.messageId)}
    && req.sessionId in db.sessions && db.sessions[req.sessionId].tenant == req.tenant && db.sessions[req.sessionId].owner == req.user
    && req.sessionId in db'.sessions && db'.sessions == db.sessions[req.sessionId := db'.sessions[req.sessionId]]
    && TouchedAt(db.sessions[req.sessionId], db'.sessions[req.sessionId], a.acceptedAt)
  }

  ghost predicate TouchedAt(before: Session, after: Session, now: int) {
    && after.id == before.id && after.tenant == before.tenant && after.owner == before.owner
    && before.updatedAt <= now == after.updatedAt && after.version == before.version + 1
  }

  /** The key of the request, and only it, names the new task from then on, for a day. */
  ghost predicate KeyNames(db: Db, db': Db, tenant: Id, scope: Scope, key: string, requestHash: string, resource: Id, now: int) {
    var k := IdempotencyKey(tenant, scope, key);
    && k in db'.keys && db'.keys[k].requestHash == requestHash && db'.keys[k].resource == Some(resource)
    && db'.keys == db.keys[k := db'.keys[k]]
    && db'.keys[k].expiresAt == now + 24 * 3600 * 1_000_000_000
  }

  /** What a caller that starts a run has created, column by column. */
  lemma CreationIsRecorded(db: Db, req: TaskRequest, a: Attempt)
    requires DbInv(db) && CreateTaskTx(db, req, a).Success? && CreateTaskTx(db, req, a).value.2
    ensures var (db', row, _) := CreateTaskTx(db, req, a).value;
            && CreatesTask(db, db', req, a) && row == db'.tasks[a.taskId].row
            && KeyNames(db, db', req.tenant, Scope.CreateTask, req.key, req.requestHash, a.taskId, a.acceptedAt)
  {
    CreateTaskOutcome(db, req, a);
    CreateTaskKeeps(db, req, a);
    assert OwnedSession(db, req.tenant, req.user, req.sessionId).Success?;
    assert db.sessions[req.sessionId].id == req.sessionId;
  }

  /** What a committed session create leaves: the session the live key names, or a new one as asked for. */
  lemma SessionIsRecorded(db: Db, req: SessionRequest, now: int, storeNow: int, id: GeneratedId)
    requires DbInv(db) && CreateSessionTx(db, req, now, storeNow, id).Success?
    ensures var (db', session) := CreateSessionTx(db, req, now, storeNow, id).value;
            var key := IdempotencyKey(req.tenant, Scope.CreateSession, req.key);
            if key in db.keys && storeNow < db.keys[key].expiresAt then
              && db' == db && db.keys[key].requestHash == req.requestHash && db.keys[key].resource == Some(session.id)
              && session.id in db.sessions && db.sessions[session.id] == session
              && session.tenant == req.tenant && session.owner == req.user
            else
              && id !in db.sessions && db'.sessions == db.sessions[id := session] && db'.tasks == db.tasks && db'.rows == db.rows
              && session.id == id && session.tenant == req.tenant && session.owner == req.user
              && session.updatedAt == now && session.version == 1
              && KeyNames(db, db', req.tenant, Scope.CreateSession, req.key, req.requestHash, id, now)
  {
    CreateSessionKeeps(db, req, now, storeNow, id);
  }

  /** Every answer to a create-task request is a task of the caller's tenant in a session the caller owns. */
  lemma AnswerIsTheCallers(db: Db, req: TaskRequest, a: Attempt)
    requires DbInv(db) && CreateTaskTx(db, req, a).Success?
    ensures var (db', row, _) := CreateTaskTx(db, req, a).value;
            && row.tenant == req.tenant && row.sessionId in db'.sessions
            && db'.sessions[row.sessionId].tenant == req.tenant && db'.sessions[row.sessionId].owner == req.user
  {
    CreateTaskOutcome(db, req, a);
    if CreateTaskTx(db, req, a).value.2 {
      CreationIsRecorded(db, req, a);
    }
  }

  /** On a key that is free, or whose time is up, a well-formed attempt commits exactly if its rows can go in. */
  lemma FreeKeyOutcome(db: Db, req: TaskRequest, a: Attempt)
    requires req.tenant != "" && req.key != "" && req.requestHash != ""
    requires KeyOf(req) in db.keys ==> db.keys[KeyOf(req)].expiresAt <= a.storeNow
    ensures CreateTaskTx(db, req, a).Success? <==> Insertable(db, req, a)
  {
    var key := KeyOf(req);
    var reserved := db.(keys := db.keys[key := IdempotencyRecord(req.requestHash, None, a.acceptedAt + IDEMPOTENCY_TTL)]);
    assert Reserve(db, key, req.requestHash, a.storeNow, a.acceptedAt + IDEMPOTENCY_TTL) == Success((reserved, None));
    KeysDoNotMatter(db, reserved.keys, req, a);
    InsertTaskOutcome(reserved, req, a);
    if Insertable(reserved, req, a) {
      InsertedIsCompleted(db, req, a, reserved, InsertTask(reserved, req, a).value.0, InsertTask(reserved, req, a).value.1);
    }
  }

  lemma KeysDoNotMatter(db: Db, keys: map<IdempotencyKey, IdempotencyRecord>, req: TaskRequest, a: Attempt)
    ensures Insertable(db.(keys := keys), req, a) <==> Insertable(db, req, a)
  {
    assert db.(keys := keys).tasks == db.tasks;
  }

  ghost function CreatedDb(db: Db, req: TaskRequest, a: Attempt, session: Session, expiry: int): Db {
    WithTask(db, req, a, session).(keys := db.keys[KeyOf(req) := IdempotencyRecord(req.requestHash, Some(a.taskId), expiry)])
  }

  lemma CreatedDbKeeps(db: Db, req: TaskRequest, a: Attempt, session: Session, expiry: int)
    requires DbInv(db) && a.taskId !in db.tasks && !HasActiveTask(db, req.tenant, req.sessionId)
    requires req.sessionId in db.sessions && db.sessions[req.sessionId] == session && session.tenant == req.tenant
    ensures DbInv(CreatedDb(db, req, a, session, expiry))
  {
    var db' := CreatedDb(db, req, a, session, expiry);
    MoreRows(db.tasks, db.rows, db'.rows);
    FreshTaskInv(req, a, db'.rows);
    OneMoreTask(db.tasks, db'.rows, a.taskId, FreshTask(req, a));
    OneMoreActive(db.tasks, db.sessions, db'.sessions, a.taskId, FreshTask(req, a));
    CreatedKeysKeep(db, db', KeyOf(req), req.requestHash, expiry, a.taskId);
  }

  /** A committed create leaves no reservation behind, and says exactly who starts the run:
      the caller whose transaction inserted the task. */
  lemma CreateTaskKeeps(db: Db, req: TaskRequest, a: Attempt)
    requires DbInv(db) && CreateTaskTx(db, req, a).Success?
    ensures var (db', row, shouldRun) := CreateTaskTx(db, req, a).value;
            && DbInv(db')
            && (forall t :: t in db.tasks ==> t in db'.tasks && db'.tasks[t] == db.tasks[t])
            && KeyOf(req) in db'.keys && db'.keys[KeyOf(req)].requestHash == req.requestHash
            && db'.keys[KeyOf(req)].resource == Some(row.id)
            && (forall k :: k != KeyOf(req) ==> (k in db'.keys <==> k in db.keys) && (k in db.keys ==> db'.keys[k] == db.keys[k]))
            && (shouldRun <==> row.id !in db.tasks)
            && (shouldRun <==> KeyOf(req) !in db.keys || db.keys[KeyOf(req)].expiresAt <= a.storeNow)
            && (!shouldRun ==> db' == db)
  {
    CreateTaskOutcome(db, req, a);
    var (db', row, shouldRun) := CreateTaskTx(db, req, a).value;
    if shouldRun {
      var session := OwnedSession(db, req.tenant, req.user, req.sessionId).value;
      CreatedDbKeeps(db, req, a, session, db'.keys[KeyOf(req)].expiresAt);
    } else {
      var known := db.keys[KeyOf(req)].resource.value;
      assert TaskOk(db.tasks[known], known, db.rows);
    }
  }

  lemma CreateSessionKeeps(db: Db, req: SessionRequest, now: int, storeNow: int, id: GeneratedId)
    requires DbInv(db) && CreateSessionTx(db, req, now, storeNow, id).Success?
    ensures var (db', session) := CreateSessionTx(db, req, now, storeNow, id).value;
            && DbInv(db') && db'.tasks == db.tasks && db'.rows == db.rows
            && SessionKeyOf(req) in db'.keys && db'.keys[SessionKeyOf(req)].resource == Some(session.id)
            && session.owner == req.user && session.tenant == req.tenant
            && (forall k :: k != SessionKeyOf(req) ==> (k in db'.keys <==> k in db.keys) && (k in db.keys ==> db'.keys[k] == db.keys[k]))
  {
    if Reserve(db, SessionKeyOf(req), req.requestHash, storeNow, now + IDEMPOTENCY_TTL).value.1.None? {
      var db' := CreateSessionTx(db, req, now, storeNow, id).value.0;
      CreatedKeysKeep(db, db', SessionKeyOf(req), req.requestHash, db'.keys[SessionKeyOf(req)].expiresAt, id);
    }
  }
}
