/** What the store holds of a tool call, field by field: who opened it and when, how it ended and when. */
module CallRecords {
  import opened Basics
  import opened TaskLifecycle
  import opened EventLog
  import opened Database
  import opened TaskInvariant
  import opened Worker
  import opened WorkerInvariant
  import opened System
  import opened Ordering
  import R = Recovery

  /** An accepted start of a named tool puts the call on record as opened at the clock of that step. */
  lemma EmittedStartIsRecorded(db: Db, w: Worker, c: Choice, e: AgentEvent)
    requires Sound(db, w) && w.pc == AtRuntime && e.kind == ToolStart && e.toolName != ""
    requires Sink(db, w, c, e).2.None?
    ensures var (db', w', _) := Sink(db, w, c, e);
            && c.id !in db.tasks[w.item.id].calls
            && HoldsOpened(db', w.item.id, c.id, e.sourceCallId, e.toolName, c.now)
            && OthersStand(db, db', w.item.id, c.id)
            && e.sourceCallId in w'.open && w'.open[e.sourceCallId] == db'.tasks[w.item.id].calls[c.id]
  {
    OpeningIsRecorded(db, w.item, c, e);
    StartOutcome(db, w.item, OpenedCall(c, e));
  }

  /** An accepted completion of an open call closes it at the clock of that step, without an error. */
  lemma EmittedCompletionIsRecorded(db: Db, w: Worker, c: Choice, e: AgentEvent)
    requires Sound(db, w) && w.pc == AtRuntime && e.kind == ToolDone && e.toolName != "" && e.sourceCallId in w.open
    requires Sink(db, w, c, e).2.None?
    ensures var (db', w', _) := Sink(db, w, c, e);
            var before := w.open[e.sourceCallId];
            && HoldsClosed(db', w.item.id, before, ToolCallCompleted, None, c.now)
            && OthersStand(db, db', w.item.id, before.id)
            && w'.open == w.open - {e.sourceCallId}
  {
    ClosingIsRecorded(db, w.item, w.open[e.sourceCallId], ToolCallCompleted, None, c.now, ToolCompleted(Some(w.open[e.sourceCallId].id)));
  }

  /** Each closing of a run's cleanup fails the first open call in source order, at the clock of that
      step and with the run's error. */
  lemma CleanupIsRecorded(db: Db, w: Worker, c: Choice)
    requires Sound(db, w) && w.pc == ClosingTools && w.open != map[] && !c.fault
    ensures var (db', w') := Step(db, w, c);
            var source := LeastText(w.open.Keys);
            var before := w.open[source];
            && HoldsClosed(db', w.item.id, before, ToolCallFailed, Some(w.error), c.now)
            && OthersStand(db, db', w.item.id, before.id)
            && w'.open == w.open - {source}
  {
    var source := LeastText(w.open.Keys);
    CloseToolOk(db, w, source, ToolCallFailed, Some(w.error), c.now, ToolFailed(w.open[source].id));
    ClosingIsRecorded(db, w.item, w.open[source], ToolCallFailed, Some(w.error), c.now, ToolFailed(w.open[source].id));
    CloseGoes(db, w, c, source);
  }

  lemma FirstClosedIsRecorded(td: TaskData, now: int)
    requires OpenCalls(td) != {} && forall id :: id in td.calls ==> td.calls[id].id == id
    ensures var before, td' := td.calls[FirstOpen(td)], ClosedFirst(td, now);
            && before.id in td'.calls && WasClosed(before, td'.calls[before.id], ToolCallFailed, Some(ExecutionInterrupted), now)
            && td'.calls == td.calls[before.id := td'.calls[before.id]]
  {
    ClosedCallWasClosed(td.calls[FirstOpen(td)], ToolCallFailed, Some(ExecutionInterrupted), now);
  }

  /** Each closing of recovery fails the first filed call at the clock of that transaction, as interrupted. */
  lemma RecoveryIsRecorded(s: State, now: int)
    requires StateInv(s) && s.mode.Recovering? && |s.mode.items| > 0
    requires s.mode.items[0].id in s.db.tasks && OpenCalls(s.db.tasks[s.mode.items[0].id]) != {}
    ensures var task := s.mode.items[0].id;
            var before := s.db.tasks[task].calls[FirstOpen(s.db.tasks[task])];
            && HoldsClosed(Apply(s, Recover(now)).db, task, before, ToolCallFailed, Some(ExecutionInterrupted), now)
            && OthersStand(s.db, Apply(s, Recover(now)).db, task, before.id)
  {
    R.RecoverApplied(s, now);
    FirstClosedIsRecorded(s.db.tasks[s.mode.items[0].id], now);
  }
}
