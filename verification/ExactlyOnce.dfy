/** Exactly-once creation, over runs in which any other work is interleaved. */
module ExactlyOnce {
  import opened Basics
  import opened TaskLifecycle
  import opened EventLog
  import opened Database
  import opened Creation
  import opened WorkerInvariant
  import opened System

  ghost predicate AttemptsOn(l: Label, key: IdempotencyKey) {
    l.NewTask? && KeyOf(l.req) == key
  }

  /** Every attempt on the key happens before any attempt on it could have expired. */
  ghost predicate Unexpired(labels: seq<Label>, key: IdempotencyKey) {
    forall i, j :: 0 <= i < |labels| && 0 <= j < |labels| && AttemptsOn(labels[i], key) && AttemptsOn(labels[j], key) ==>
      labels[j].attempt.storeNow < labels[i].attempt.acceptedAt + IDEMPOTENCY_TTL
  }

  /** The transaction commits and tells its caller to start the run. */
  ghost predicate StartsRun(s: State, l: Label) {
    l.NewTask? && s.mode == Serving && CreateTaskTx(s.db, l.req, l.attempt).Success?
    && CreateTaskTx(s.db, l.req, l.attempt).value.2
  }

  ghost function RunsStarted(s: State, labels: seq<Label>, key: IdempotencyKey): nat {
    if |labels| == 0 then 0 else
      var before := labels[..|labels| - 1];
      var l := labels[|labels| - 1];
      RunsStarted(s, before, key) + if AttemptsOn(l, key) && StartsRun(Execute(s, before), l) then 1 else 0
  }

  /** Steps that are not attempts on a key leave its record alone. */
  lemma KeyUntouched(s: State, l: Label, key: IdempotencyKey)
    requires StateInv(s) && key.scope == CreateTask && !AttemptsOn(l, key)
    ensures key in Apply(s, l).db.keys <==> key in s.db.keys
    ensures key in s.db.keys ==> Apply(s, l).db.keys[key] == s.db.keys[key]
  {
    match l
    case Recover(now) => if s.mode.Recovering? && |s.mode.items| > 0 { RecoverKeeps(s, now); }
    case Run(k, c) => if s.mode == Serving && k in s.workers { RunKeeps(s, k, c); }
    case NewSession(_, _, _, _) => KeyUntouchedByCommand(s, l, key);
    case NewTask(_, _) => KeyUntouchedByCommand(s, l, key);
    case _ =>
  }

  lemma KeyUntouchedByCommand(s: State, l: Label, key: IdempotencyKey)
    requires DbInv(s.db) && key.scope == CreateTask && !AttemptsOn(l, key) && (l.NewSession? || l.NewTask?)
    ensures key in Apply(s, l).db.keys <==> key in s.db.keys
    ensures key in s.db.keys ==> Apply(s, l).db.keys[key] == s.db.keys[key]
  {
    match l
    case NewSession(req, clock, storeNow, id) =>
      if s.mode == Serving && CreateSessionTx(s.db, req, clock, storeNow, id).Success? {
        CreateSessionKeeps(s.db, req, clock, storeNow, id);
      }
    case NewTask(req, attempt) =>
      if s.mode == Serving && CreateTaskTx(s.db, req, attempt).Success? {
        CreateTaskKeeps(s.db, req, attempt);
      }
    case _ =>
  }

  /** An attempt on an unclaimed key that commits claims it and starts the run; an attempt on a live
      key either conflicts or answers with the task the key names, changing nothing. */
  lemma AttemptOutcome(s: State, req: TaskRequest, a: Attempt)
    requires StateInv(s) && s.mode == Serving
    ensures var key := KeyOf(req);
            var r := CreateTaskTx(s.db, req, a);
            var s' := Apply(s, NewTask(req, a));
            if key in s.db.keys && a.storeNow < s.db.keys[key].expiresAt then
              && s'.db == s.db
              && (s.db.keys[key].requestHash != req.requestHash ==>
                    r == Failure(if req.tenant == "" || req.key == "" || req.requestHash == "" then InvalidArgument else IdempotencyConflict))
              && (r.Success? ==> r.value.1.id == s.db.keys[key].resource.value && !r.value.2)
            else if r.Success? then
              && r.value.2 && key in s'.db.keys
              && s'.db.keys[key].expiresAt == a.acceptedAt + IDEMPOTENCY_TTL
              && s'.db.keys[key].resource == Some(r.value.1.id)
            else s' == s
  {
    if CreateTaskTx(s.db, req, a).Success? {
      CreateTaskOutcome(s.db, req, a);
      CreateTaskKeeps(s.db, req, a);
    }
  }

  /** At every transaction boundary of every run no key is merely reserved: each names a task or a
      session of its own tenant that exists, the log of the task starting with its creation. */
  lemma NoReservationLeft(labels: seq<Label>, key: IdempotencyKey)
    requires key in Execute(EMPTY, labels).db.keys
    ensures var db := Execute(EMPTY, labels).db;
            && db.keys[key].resource.Some?
            && var id := db.keys[key].resource.value;
               match key.scope
               case CreateTask =>
                 && id in db.tasks && db.tasks[id].row.id == id && db.tasks[id].row.tenant == key.tenant
                 && |db.tasks[id].log| > 0 && db.tasks[id].log[0].body == TaskCreated
               case CreateSession => id in db.sessions && db.sessions[id].id == id && db.sessions[id].tenant == key.tenant
  {
    ReachableIsSound(labels);
    var db := Execute(EMPTY, labels).db;
    var id := db.keys[key].resource.value;
    if key.scope == CreateTask {
      assert TaskOk(db.tasks[id], id, db.rows);
      LogStartsWithCreation(db.tasks[id].log);
    }
  }

  /** The task an attempt was answered with, if it committed. */
  ghost function AnswerTo(s: State, l: Label): Option<Id> {
    if l.NewTask? && s.mode == Serving && CreateTaskTx(s.db, l.req, l.attempt).Success? then
      Some(CreateTaskTx(s.db, l.req, l.attempt).value.1.id)
    else None
  }

  ghost function AnswerAt(s: State, labels: seq<Label>, j: nat): Option<Id>
    requires j < |labels|
  {
    AnswerTo(Execute(s, labels[..j]), labels[j])
  }

  /** Every attempt that committed was answered with the task the key names in the end. */
  ghost predicate AnswersAgree(s: State, labels: seq<Label>, key: IdempotencyKey) {
    var keys := Execute(s, labels).db.keys;
    forall j :: 0 <= j < |labels| && AttemptsOn(labels[j], key) && AnswerAt(s, labels, j).Some? ==>
      key in keys && keys[key].resource == AnswerAt(s, labels, j)
  }

  /** The record was written by one of the attempts. */
  ghost predicate ClaimedBy(db: Db, labels: seq<Label>, key: IdempotencyKey) {
    key in db.keys && db.keys[key].resource.Some? &&
    exists i :: 0 <= i < |labels| && AttemptsOn(labels[i], key)
                && db.keys[key].expiresAt == labels[i].attempt.acceptedAt + IDEMPOTENCY_TTL
  }

  lemma AttemptStep(s: State, l: Label, key: IdempotencyKey)
    requires StateInv(s) && key.scope == CreateTask && AttemptsOn(l, key)
    requires key in s.db.keys ==> l.attempt.storeNow < s.db.keys[key].expiresAt
    ensures var s' := Apply(s, l);
            && (key in s.db.keys ==> s'.db == s.db && !StartsRun(s, l)
                                     && (AnswerTo(s, l).Some? ==> AnswerTo(s, l) == s.db.keys[key].resource))
            && (key !in s.db.keys ==> (StartsRun(s, l) <==> key in s'.db.keys) && (AnswerTo(s, l).Some? <==> StartsRun(s, l)))
            && (StartsRun(s, l) ==> s'.db.keys[key].resource == AnswerTo(s, l)
                                    && s'.db.keys[key].expiresAt == l.attempt.acceptedAt + IDEMPOTENCY_TTL)
  {
    if s.mode == Serving {
      AttemptOutcome(s, l.req, l.attempt);
    }
  }

  /** From an unclaimed key, while nothing expires: exactly one attempt starts a run if any commits,
      and the key then names the task every committed attempt is answered with. */
  lemma {:induction false} ExactlyOneRun(s: State, labels: seq<Label>, key: IdempotencyKey)
    requires StateInv(s) && key.scope == CreateTask && key !in s.db.keys && Unexpired(labels, key)
    ensures var db' := Execute(s, labels).db;
            && RunsStarted(s, labels, key) == (if key in db'.keys then 1 else 0)
            && (key in db'.keys ==> ClaimedBy(db', labels, key))
            && AnswersAgree(s, labels, key)
  {
    if |labels| > 0 {
      var pre, l := labels[..|labels| - 1], labels[|labels| - 1];
      var before := Execute(s, pre);
      ExactlyOneRun(s, pre, key);
      RunsAreSound(s, pre);
      if AttemptsOn(l, key) {
        AttemptStep(before, l, key);
      } else {
        KeyUntouched(before, l, key);
      }
      ClaimStands(s, labels, key);
      AnswersStand(s, labels, key);
    }
  }

  lemma AnswersStand(s: State, labels: seq<Label>, key: IdempotencyKey)
    requires |labels| > 0 && AnswersAgree(s, labels[..|labels| - 1], key)
    requires var pre, l := labels[..|labels| - 1], labels[|labels| - 1];
             var before, after := Execute(s, pre), Execute(s, labels);
             && (key in before.db.keys ==> key in after.db.keys && after.db.keys[key] == before.db.keys[key])
             && (AttemptsOn(l, key) && AnswerTo(before, l).Some? ==>
                   key in after.db.keys && after.db.keys[key].resource == AnswerTo(before, l))
    ensures AnswersAgree(s, labels, key)
  {
    var pre := labels[..|labels| - 1];
    forall j | 0 <= j < |labels| && AttemptsOn(labels[j], key) && AnswerAt(s, labels, j).Some?
      ensures key in Execute(s, labels).db.keys && Execute(s, labels).db.keys[key].resource == AnswerAt(s, labels, j)
    {
      if j < |pre| {
        assert pre[..j] == labels[..j];
        assert AnswerAt(s, pre, j) == AnswerAt(s, labels, j);
      }
    }
  }

  lemma ClaimStands(s: State, labels: seq<Label>, key: IdempotencyKey)
    requires |labels| > 0
    requires var pre, l := labels[..|labels| - 1], labels[|labels| - 1];
             var before, after := Execute(s, pre), Execute(s, labels);
             && (key in before.db.keys ==> ClaimedBy(before.db, pre, key) && key in after.db.keys && after.db.keys[key] == before.db.keys[key])
             && (key !in before.db.keys && key in after.db.keys ==>
                   AttemptsOn(l, key) && after.db.keys[key].resource.Some?
                   && after.db.keys[key].expiresAt == l.attempt.acceptedAt + IDEMPOTENCY_TTL)
    ensures key in Execute(s, labels).db.keys ==> ClaimedBy(Execute(s, labels).db, labels, key)
  {
  }

  // ------------------------------------------------ the read before the transaction

  /** In a reachable database the early read settles every attempt on a known key, so the create-task
      transaction meets an existing key only when another attempt claimed it in between; in
      particular it never reuses an expired key that was there at the read. */
  lemma PreCheckSettlesKnownKeys(labels: seq<Label>, req: TaskRequest)
    ensures var db := Execute(EMPTY, labels).db;
            PreCheck(db, req).Some? <==> KeyOf(req) in db.keys
  {
    ReachableIsSound(labels);
  }

  /** While the key is live, the early answer is the transaction's answer. When it has expired they part:
      the read still answers with the old task, or refuses another hash, while the transaction commits
      exactly if its rows can go in, and then with a task of its own. */
  lemma PreCheckAgreesWhileLive(db: Db, req: TaskRequest, a: Attempt)
    requires DbInv(db) && KeyOf(req) in db.keys && req.tenant != "" && req.key != "" && req.requestHash != ""
    ensures a.storeNow < db.keys[KeyOf(req)].expiresAt ==>
              CreateTaskTx(db, req, a) ==
              match PreCheck(db, req).value
              case Success(row) => Success((db, row, false))
              case Failure(e) => Failure(e)
    ensures db.keys[KeyOf(req)].expiresAt <= a.storeNow ==>
              && (CreateTaskTx(db, req, a).Success? <==> Insertable(db, req, a))
              && (CreateTaskTx(db, req, a).Success? ==>
                    && CreateTaskTx(db, req, a).value.2
                    && (PreCheck(db, req).value.Success? ==> CreateTaskTx(db, req, a).value.1.id != PreCheck(db, req).value.value.id))
  {
    if db.keys[KeyOf(req)].expiresAt <= a.storeNow {
      FreeKeyOutcome(db, req, a);
    }
    if CreateTaskTx(db, req, a).Success? {
      CreateTaskKeeps(db, req, a);
      if PreCheck(db, req).value.Success? {
        var known := db.keys[KeyOf(req)].resource.value;
        assert TaskOk(db.tasks[known], known, db.rows);
      }
    }
  }
}
