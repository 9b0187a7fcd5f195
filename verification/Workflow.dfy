/** The analysis workflow: one run of a task, from the read of its row to the deferred cleanup. */
module Workflow {
  import opened Basics
  import opened TaskLifecycle
  import opened EventLog
  import opened Database
  import opened DurableStore
  import opened MockRuntime
  import W = Worker

  /** The worker took its last step from `pc`. */
  ghost predicate LastTaken(db: Db, w: W.Worker, taken: seq<W.Choice>, pc: W.Pc) {
    |taken| > 0 && W.Drive(db, w, taken[..|taken| - 1]).1.pc == pc
  }

  /** The last thing the worker did was to report completion. */
  ghost predicate ReportedLast(db: Db, w: W.Worker, taken: seq<W.Choice>) {
    LastTaken(db, w, taken, W.EmitCompleted)
  }

  ghost predicate LastFrom(t: Trail, pc: W.Pc) {
    t.Valid() && |t.choices| > 0 && t.states[|t.choices| - 1].1.pc == pc
  }

  lemma FinishedTrail(db0: Db, w0: W.Worker, t: Trail, db: Db, w: W.Worker)
    requires t.Leads(Begin(db0, w0), db, w)
    ensures W.Drive(db0, w0, t.choices) == (db, w)
    ensures |t.choices| > 0 ==> forall pc :: LastTaken(db0, w0, t.choices, pc) <==> LastFrom(t, pc)
  {
    TrailIsDrive(t, |t.choices|);
    assert t.choices[..|t.choices|] == t.choices;
    if |t.choices| > 0 {
      TrailIsDrive(t, |t.choices| - 1);
    }
  }

  /** The status steps a run takes, with the point each leads to. */
  ghost predicate PlainMove(pc: W.Pc, next: Status, then_: W.Pc) {
    || (pc == W.ToPlanning && next == Planning && then_ == W.ToRunning)
    || (pc == W.ToValidating && next == Validating && then_ == W.SaveMessage)
    || (pc == W.ToCompleted && next == Completed && then_ == W.EmitCompleted)
  }

  lemma MoveKeepsRow(db: Db, item: Task, next: Status, now: int)
    requires OnRow(db, item) && TransitionTx(db, item, next, now).Success?
    ensures var (db', item') := TransitionTx(db, item, next, now).value;
            OnRow(db', item') && item'.id == item.id
  {
  }

  lemma ReturnNext(db: Db, w: W.Worker, c: W.Choice, result: W.RunResult, t: Trail)
    requires w.pc == W.AtRuntime && c.move == W.Return(result) && t.At(db, w)
    ensures var w' := w.(result := result, pc := W.ToValidating); t.Then(c, db, w').Leads(t, db, w')
  {
    TrailGrows(t, db, w, c, db, w.(result := result, pc := W.ToValidating));
  }

  lemma AbortNext(db: Db, w: W.Worker, c: W.Choice, code: ErrorCode, t: Trail)
    requires w.pc == W.AtRuntime && c.move == W.Abort(code) && t.At(db, w)
    ensures var w' := w.(error := code, pc := W.ClosingTools); t.Then(c, db, w').Leads(t, db, w')
  {
    TrailGrows(t, db, w, c, db, w.(error := code, pc := W.ClosingTools));
  }

  class Analysis {
    const store: Store
    const runtime: Runtime

    constructor (store: Store, runtime: Runtime)
      ensures this.store == store && this.runtime == runtime
    {
      this.store, this.runtime := store, runtime;
    }

    method Move(item: AnalysisTask, next: Status, ghost then_: W.Pc, ghost w0: W.Worker, ghost trail: Trail)
      returns (err: Option<ErrorCode>, ghost w: W.Worker, ghost t: Trail)
      requires PlainMove(w0.pc, next, then_) && w0.item == item.value && trail.At(store.db, w0)
      modifies store, item
      ensures t.Leads(trail, store.db, w)
      ensures if err.None? then w == w0.(item := item.value, pc := then_) else w == W.Broken(w0, err.value)
      ensures w.item == item.value && (old(OnRow(store.db, item.value)) ==> OnRow(store.db, item.value))
    {
      ghost var before := store.db;
      ghost var c;
      err, c := store.Transition(item, next);
      w := W.Step(before, w0, c).1;
      TrailGrows(trail, before, w0, c, store.db, w);
      t := trail.Then(c, store.db, w);
      if err.None? && OnRow(before, w0.item) {
        MoveKeepsRow(before, w0.item, next, c.now);
      }
    }

    /** The step to running tools, after which the reply gets its id. */
    method MoveToRunning(item: AnalysisTask, ghost w0: W.Worker, ghost trail: Trail)
      returns (err: Option<ErrorCode>, messageId: Id, ghost w: W.Worker, ghost t: Trail)
      requires w0.pc == W.ToRunning && w0.item == item.value && trail.At(store.db, w0)
      modifies store, item
      ensures t.Leads(trail, store.db, w)
      ensures if err.None? then w == w0.(item := item.value, messageId := messageId, pc := W.AtRuntime)
              else w == W.Broken(w0.(messageId := messageId), err.value)
      ensures w.item == item.value && (old(OnRow(store.db, item.value)) ==> OnRow(store.db, item.value))
    {
      ghost var before := store.db;
      ghost var c;
      err, c := store.Transition(item, RunningTools);
      var id: GeneratedId := *;
      messageId := id;
      c := c.(id := id);
      w := W.Step(before, w0, c).1;
      TrailGrows(trail, before, w0, c, store.db, w);
      t := trail.Then(c, store.db, w);
      if err.None? && OnRow(before, w0.item) {
        MoveKeepsRow(before, w0.item, RunningTools, c.now);
      }
    }

    /** The runtime's turn, and what its answer means for the run. */
    method Consult(item: AnalysisTask, sink: DurableSink, views: seq<string>, ghost w0: W.Worker, ghost trail: Trail)
      returns (r: Result<W.RunResult>, ghost w: W.Worker, ghost t: Trail)
      requires sink.store == store && sink.task == item && sink.openCalls == map[]
      requires w0 == sink.Now() && trail.At(store.db, w0) && OnRow(store.db, item.value)
      modifies store, sink
      ensures t.Leads(trail, store.db, w) && w.item == item.value && w.open == sink.openCalls
      ensures if r.Success? then w.pc == W.ToValidating && w.result == r.value && w.messageId == sink.messageId && w.open == map[]
                                 && OnePerView(views, r.value.proposals)
              else w.pc == W.ClosingTools && w.error == r.error
    {
      var userMessage: string := *;
      ghost var ids, answers;
      r, t, ids, answers := runtime.Run(sink, userMessage, views, trail);
      w := sink.Now();
      ghost var outside: W.Choice := *;
      if r.Success? {
        ghost var c := outside.(move := W.Return(r.value));
        ReturnNext(store.db, w, c, r.value, t);
        w := w.(result := r.value, pc := W.ToValidating);
        t := t.Then(c, store.db, w);
      } else {
        ghost var c := outside.(move := W.Abort(r.error));
        AbortNext(store.db, w, c, r.error, t);
        w := w.(error := r.error, pc := W.ClosingTools);
        t := t.Then(c, store.db, w);
      }
    }

    /** The last append of a run. */
    method Report(item: AnalysisTask, ghost w0: W.Worker, ghost trail: Trail)
      returns (err: Option<ErrorCode>, ghost w: W.Worker, ghost t: Trail)
      requires w0.pc == W.EmitCompleted && w0.item == item.value && trail.At(store.db, w0)
      modifies store
      ensures t.Leads(trail, store.db, w) && LastFrom(t, W.EmitCompleted)
      ensures if err.None? then w == w0.(pc := W.Finished) else w == W.Broken(w0, err.value)
    {
      ghost var before := store.db;
      ghost var c;
      err, c := store.Emit(item.value, TaskCompleted);
      w := W.Step(before, w0, c).1;
      TrailGrows(trail, before, w0, c, store.db, w);
      t := trail.Then(c, store.db, w);
    }

    /** The run proper: the first error ends it, and `sink` tells whether the runtime was reached. */
    method Attempt(item: AnalysisTask, views: seq<string>, ghost w0: W.Worker, ghost trail: Trail)
      returns (err: Option<ErrorCode>, sink: DurableSink?, ghost w: W.Worker, ghost t: Trail)
      requires w0 == W.Start(item.value) && trail.At(store.db, w0) && OnRow(store.db, item.value)
      modifies store, item
      ensures t.Leads(trail, store.db, w) && w.item == item.value
      ensures sink != null ==> fresh(sink) && sink.store == store && sink.task == item && w.open == sink.openCalls
      ensures err.None? ==> w.pc == W.Finished && LastFrom(t, W.EmitCompleted) && w.open == map[]
                             && OnePerView(views, w.result.proposals)
      ensures err.Some? ==> w.error == err.value && w.pc == if sink == null then W.Failing else W.ClosingTools
    {
      sink := null;
      err, w, t := Move(item, Planning, W.ToRunning, w0, trail);
      if err.Some? {
        return;
      }
      var messageId;
      err, messageId, w, t := MoveToRunning(item, w, t);
      if err.Some? {
        return;
      }
      sink := new DurableSink(store, item, messageId, map[]);
      err, w, t := Conclude(item, sink, views, w, t);
    }

    /** From the runtime's turn to the report. */
    method Conclude(item: AnalysisTask, sink: DurableSink, views: seq<string>, ghost w0: W.Worker, ghost trail: Trail)
      returns (err: Option<ErrorCode>, ghost w: W.Worker, ghost t: Trail)
      requires sink.store == store && sink.task == item && sink.openCalls == map[]
      requires w0 == sink.Now() && trail.At(store.db, w0) && OnRow(store.db, item.value)
      modifies store, item, sink
      ensures t.Leads(trail, store.db, w) && w.item == item.value && w.open == sink.openCalls
      ensures err.None? ==> w.pc == W.Finished && LastFrom(t, W.EmitCompleted) && w.open == map[]
                             && OnePerView(views, w.result.proposals)
      ensures err.Some? ==> w.error == err.value && w.pc == W.ClosingTools
    {
      var r;
      r, w, t := Consult(item, sink, views, w0, trail);
      if r.Failure? {
        return Some(r.error), w, t;
      }
      err, w, t := Move(item, Validating, W.SaveMessage, w, t);
      if err.Some? {
        return;
      }
      err, w, t := store.PersistResult(item.value, sink.messageId, r.value, w, t);
      if err.Some? {
        return;
      }
      err, w, t := Finish(item, w, t);
    }

    method Finish(item: AnalysisTask, ghost w0: W.Worker, ghost trail: Trail)
      returns (err: Option<ErrorCode>, ghost w: W.Worker, ghost t: Trail)
      requires w0.pc == W.ToCompleted && w0.item == item.value && trail.At(store.db, w0)
      modifies store, item
      ensures t.Leads(trail, store.db, w) && w.item == item.value && w.open == w0.open && w.result == w0.result
      ensures err.None? ==> w.pc == W.Finished && LastFrom(t, W.EmitCompleted)
      ensures err.Some? ==> w.error == err.value && w.pc == W.ClosingTools
    {
      err, w, t := Move(item, Completed, W.EmitCompleted, w0, trail);
      if err.Some? {
        return;
      }
      err, w, t := Report(item, w, t);
    }

    /** The deferred cleanup: open calls are closed if the sink exists, and the task is failed
        whether or not that worked. */
    method CleanUp(item: AnalysisTask, sink: DurableSink?, code: ErrorCode, ghost w0: W.Worker, ghost trail: Trail)
      returns (ghost w: W.Worker, ghost t: Trail)
      requires trail.At(store.db, w0) && w0.item == item.value && w0.error == code
      requires w0.pc == if sink == null then W.Failing else W.ClosingTools
      requires sink != null ==> sink.store == store && sink.task == item && w0.open == sink.openCalls
      modifies store, item, sink
      ensures t.Leads(trail, store.db, w) && w.pc == W.Finished && w.error == code && LastFrom(t, W.Failing)
    {
      w, t := w0, trail;
      if sink != null {
        var ignored;
        ignored, w, t := sink.FailOpenTools(code, w, t);
      }
      ghost var before, holder := store.db, w;
      var ignored;
      ghost var c;
      ignored, c := store.Fail(item, code);
      w := W.Step(before, holder, c).1;
      TrailGrows(t, before, holder, c, store.db, w);
      t := t.Then(c, store.db, w);
    }

    /** Runs a task. A task that cannot be read or has been started is left alone; otherwise the
        whole run is a finished drive of the worker model from the row that was read. It reports
        success exactly when task.completed was committed, with no call left open, and otherwise the
        first error, after its deferred failure. */
    method Run(tenant: Id, taskId: Id) returns (err: Option<ErrorCode>, ghost w: W.Worker, ghost taken: seq<W.Choice>)
      requires forall t :: t in store.db.tasks ==> store.db.tasks[t].row.id == t
      modifies store
      ensures match FindTask(old(store.db), tenant, taskId)
              case Failure(code) => err == Some(code) && store.db == old(store.db)
              case Success(td) =>
                if td.row.status != Created then err == Some(InvalidStateTransition) && store.db == old(store.db)
                else
                  && (store.db, w) == W.Drive(old(store.db), W.Start(td.row), taken) && w.pc == W.Finished
                  && (err.None? <==> ReportedLast(old(store.db), W.Start(td.row), taken))
                  && (err.None? ==> w.open == map[] && OnePerView(td.row.views, w.result.proposals))
                  && (err.Some? ==> LastTaken(old(store.db), W.Start(td.row), taken, W.Failing))
                  && (err.Some? ==> err == Some(w.error))
    {
      var found := FindTask(store.db, tenant, taskId);
      taken := [];
      if found.Failure? {
        w := *;
        return Some(found.error), w, taken;
      }
      w := W.Start(found.value.row);
      if found.value.row.status != Created {
        return Some(InvalidStateTransition), w, taken;
      }
      ghost var db0, w0 := store.db, w;
      var item := new AnalysisTask(found.value.row);
      var sink: DurableSink?;
      ghost var t;
      err, sink, w, t := Attempt(item, found.value.row.views, w, Begin(store.db, w));
      if err.Some? {
        w, t := CleanUp(item, sink, err.value, w, t);
      }
      FinishedTrail(db0, w0, t, store.db, w);
      taken := t.choices;
    }
  }
}
