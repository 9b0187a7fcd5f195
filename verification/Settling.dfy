/** What a run of the workflow leaves behind when its own transactions do not fault, whatever other
    workers and commands do in between. */
module Settling {
  import opened Basics
  import opened TaskLifecycle
  import opened EventLog
  import opened Database
  import opened TaskInvariant
  import opened Worker
  import opened WorkerInvariant
  import opened Creation
  import opened System
  import opened Guarantees
  import opened RunGuarantees
  import opened Workflow

  /** Past its first transition and not yet cleaning up. */
  ghost predicate Working(w: Worker) {
    w.item.version > 1 && w.pc != ClosingTools && w.pc != Failing && w.pc != Finished
  }

  /** The worker alone may move its task, and has its cleanup in hand. */
  ghost predicate Holding(db: Db, w: Worker) {
    InHand(db, w) && (w.pc != Finished ==> w.item.version > 1)
  }

  lemma WorkingHolds(s: State, k: nat)
    requires StateInv(s) && k in s.workers && Working(s.workers[k])
    ensures Holding(s.db, s.workers[k])
  {
    RunnerIsSound(s, k);
  }

  /** The worker does not notice what happens to other tasks. */
  lemma HoldStays(db: Db, db': Db, w: Worker)
    requires Holding(db, w) && w.item.id in db'.tasks && db.rows <= db'.rows
    requires db'.tasks[w.item.id] == db.tasks[w.item.id]
    ensures Holding(db', w)
  {
  }

  lemma OwnStepHolds(db: Db, w: Worker, c: Choice)
    requires Holding(db, w) && !c.fault
    ensures var (db', w') := Step(db, w, c); Holding(db', w') && w'.item.id == w.item.id
  {
    if w.pc != Finished {
      StepInHand(db, w, c);
      StepIsOk(db, w, c);
      VersionsRise(db, w, Step(db, w, c).0, Step(db, w, c).1);
    }
  }

  lemma VersionsRise(db: Db, w: Worker, db': Db, w': Worker)
    requires StepOk(db, w, db', w') && InHand(db', w') && w.item.version == db.tasks[w.item.id].row.version
    ensures w'.pc != Finished ==> w'.item.version >= w.item.version
  {
    assert Evolves(db.tasks[w.item.id], db'.tasks[w.item.id]);
  }

  /** A held task is not moved by a step that is not its holder's: the other worker's copy is stale. */
  lemma RivalLeaves(db: Db, w: Worker, db': Db, w': Worker, holder: Worker)
    requires StepOk(db, w, db', w') && Holding(db, holder)
    requires w.item.id == holder.item.id && holder.pc != Finished ==> w.item.version == 1
    ensures Holding(db', holder)
  {
    if w.item.id == holder.item.id {
      assert Evolves(db.tasks[w.item.id], db'.tasks[w.item.id]);
    }
    HoldStays(db, db', holder);
  }

  lemma RivalIsStale(workers: map<nat, Worker>, j: nat, k: nat)
    requires OneHolder(workers) && j in workers && k in workers && j != k
    requires workers[j].pc != Finished && workers[k].pc != Finished && workers[k].item.version > 1
    requires workers[j].item.id == workers[k].item.id
    ensures workers[j].item.version == 1
  {
  }

  lemma OthersStepHolds(s: State, j: nat, c: Choice, k: nat)
    requires StateInv(s) && j in s.workers && k in s.workers && j != k && s.workers[j].pc != Finished
    requires Holding(s.db, s.workers[k])
    ensures Holding(Step(s.db, s.workers[j], c).0, s.workers[k])
  {
    RunnerIsSound(s, j);
    StepIsOk(s.db, s.workers[j], c);
    if s.workers[j].item.id == s.workers[k].item.id && s.workers[k].pc != Finished {
      RivalIsStale(s.workers, j, k);
    }
    RivalLeaves(s.db, s.workers[j], Step(s.db, s.workers[j], c).0, Step(s.db, s.workers[j], c).1, s.workers[k]);
  }

  lemma RunApplied(s: State, j: nat, c: Choice)
    requires s.mode == Serving && j in s.workers
    ensures var s' := Apply(s, Run(j, c));
            && s'.mode == Serving && s'.db == Step(s.db, s.workers[j], c).0
            && s'.workers == s.workers[j := Step(s.db, s.workers[j], c).1]
  {
  }

  lemma FinishedStep(db: Db, w: Worker, c: Choice)
    requires w.pc == Finished
    ensures Step(db, w, c) == (db, w)
  {
  }

  /** Where the worker stands after `l`: still holding its task, and unmoved if the step was not its own. */
  ghost predicate Held(s: State, l: Label, s': State, k: nat)
    requires k in s.workers
  {
    && s'.mode == Serving && k in s'.workers && Holding(s'.db, s'.workers[k])
    && s'.workers[k].item.id == s.workers[k].item.id
    && (!(l.Run? && l.runner == k) ==> s'.workers[k] == s.workers[k])
  }

  lemma OthersRunHolds(s: State, j: nat, c: Choice, k: nat)
    requires StateInv(s) && s.mode == Serving && j in s.workers && k in s.workers && j != k && Holding(s.db, s.workers[k])
    ensures Held(s, Run(j, c), Apply(s, Run(j, c)), k)
  {
    RunApplied(s, j, c);
    if s.workers[j].pc == Finished {
      FinishedStep(s.db, s.workers[j], c);
    } else {
      OthersStepHolds(s, j, c, k);
    }
  }

  lemma OwnRunHolds(s: State, k: nat, c: Choice)
    requires s.mode == Serving && k in s.workers && Holding(s.db, s.workers[k]) && !c.fault
    ensures Held(s, Run(k, c), Apply(s, Run(k, c)), k)
  {
    RunApplied(s, k, c);
    OwnStepHolds(s.db, s.workers[k], c);
  }

  lemma CommandHolds(s: State, l: Label, k: nat)
    requires StateInv(s) && s.mode == Serving && k in s.workers && Holding(s.db, s.workers[k]) && (l.NewSession? || l.NewTask?)
    ensures Held(s, l, Apply(s, l), k)
  {
    match l
    case NewSession(req, clock, storeNow, id) =>
      if CreateSessionTx(s.db, req, clock, storeNow, id).Success? {
        CreateSessionKeeps(s.db, req, clock, storeNow, id);
        HoldStays(s.db, Apply(s, l).db, s.workers[k]);
      }
    case NewTask(req, attempt) =>
      if CreateTaskTx(s.db, req, attempt).Success? {
        CreateTaskKeeps(s.db, req, attempt);
        CreateTaskGrowsRows(s.db, req, attempt);
        HoldStays(s.db, Apply(s, l).db, s.workers[k]);
      }
  }

  lemma CreateTaskGrowsRows(db: Db, req: TaskRequest, a: Attempt)
    requires CreateTaskTx(db, req, a).Success?
    ensures db.rows <= CreateTaskTx(db, req, a).value.0.rows
  {
    CreateTaskOutcome(db, req, a);
  }

  lemma QuietHolds(s: State, l: Label, k: nat)
    requires s.mode == Serving && k in s.workers && Holding(s.db, s.workers[k])
    requires l.Boot? || l.Recover? || l.Serve? || l.StartRun?
    ensures Held(s, l, Apply(s, l), k)
  {
    assert Apply(s, l).db == s.db && Apply(s, l).mode == s.mode;
  }

  /** No step takes the task out of the worker's hand: not its own, if the store does not fault, and no other's. */
  lemma StepHolds(s: State, l: Label, k: nat)
    requires StateInv(s) && s.mode == Serving && k in s.workers && Holding(s.db, s.workers[k])
    requires !l.Crash? && (l.Run? && l.runner == k ==> !l.choice.fault)
    ensures Held(s, l, Apply(s, l), k)
  {
    match l
    case Run(j, c) =>
      if j == k {
        OwnRunHolds(s, k, c);
      } else if j in s.workers {
        OthersRunHolds(s, j, c, k);
      } else {
        assert Apply(s, l) == s;
      }
    case NewSession(_, _, _, _) => CommandHolds(s, l, k);
    case NewTask(_, _) => CommandHolds(s, l, k);
    case _ => QuietHolds(s, l, k);
  }

  ghost predicate Undisturbed(labels: seq<Label>, k: nat) {
    forall l :: l in labels ==> !l.Crash? && (l.Run? && l.runner == k ==> !l.choice.fault)
  }

  lemma {:induction false} RunHolds(s: State, labels: seq<Label>, k: nat)
    requires StateInv(s) && s.mode == Serving && k in s.workers && Holding(s.db, s.workers[k]) && Undisturbed(labels, k)
    ensures var s' := Execute(s, labels);
            && StateInv(s') && s'.mode == Serving && k in s'.workers && Holding(s'.db, s'.workers[k])
            && s'.workers[k].item.id == s.workers[k].item.id
  {
    if |labels| > 0 {
      var pre := labels[..|labels| - 1];
      RunHolds(s, pre, k);
      StepHolds(Execute(s, pre), labels[|labels| - 1], k);
      ApplyKeeps(Execute(s, pre), labels[|labels| - 1]);
    }
  }

  /** Whatever else runs: a worker past its first transition whose own transactions do not fault and
      that is not cut off by a crash leaves, once it is finished, its task settled: over, with the
      terminal event in the log, and with every call of a failed run closed. */
  lemma FaultFreeWorkerSettles(s: State, labels: seq<Label>, k: nat)
    requires StateInv(s) && s.mode == Serving && k in s.workers && Working(s.workers[k]) && Undisturbed(labels, k)
    ensures var s' := Execute(s, labels);
            && k in s'.workers && s'.workers[k].item.id == s.workers[k].item.id && s.workers[k].item.id in s'.db.tasks
            && (s'.workers[k].pc == Finished ==> Settled(s'.workers[k], s'.db.tasks[s.workers[k].item.id]))
  {
    WorkingHolds(s, k);
    RunHolds(s, labels, k);
  }

  // -------------------------------------------------- closing every call exactly once

  /** Once the runtime has returned there is no call left to close, nor is there at the end. */
  ghost predicate Tidy(w: Worker) {
    w.pc == ToValidating || w.pc == SaveMessage || w.pc.SaveChart? || w.pc.SaveExecution?
    || w.pc == ToCompleted || w.pc == EmitCompleted || w.pc == Finished
    ==> w.open == map[]
  }

  /** The runtime returns only when every call it started is closed. */
  ghost predicate ReturnsTidy(w: Worker, c: Choice) {
    w.pc == AtRuntime && c.move.Return? ==> w.open == map[]
  }

  lemma RuntimeStaysTidy(db: Db, w: Worker, c: Choice)
    requires w.pc == AtRuntime && ReturnsTidy(w, c)
    ensures Tidy(RuntimeStep(db, w, c).1)
  {
    match c.move
    case Emit(e) => SinkKeepsPc(db, w, c, e);
    case _ =>
  }

  lemma SinkKeepsPc(db: Db, w: Worker, c: Choice, e: AgentEvent)
    ensures Sink(db, w, c, e).1.pc == w.pc
  {
  }

  /** Only the runtime's turn and the closing of tools touch the open calls. */
  lemma OpenUntouched(db: Db, w: Worker, c: Choice)
    requires w.pc != AtRuntime && w.pc != ClosingTools
    ensures Step(db, w, c).1.open == w.open
  {
  }

  lemma EarlyStepStaysEarly(db: Db, w: Worker, c: Choice)
    requires w.pc == ToPlanning || w.pc == ToRunning || w.pc == ClosingTools
    ensures var pc := Step(db, w, c).1.pc;
            pc == ToRunning || pc == AtRuntime || pc == ClosingTools || pc == Failing
  {
  }

  lemma StepStaysTidy(db: Db, w: Worker, c: Choice)
    requires Tidy(w) && ReturnsTidy(w, c) && (w.pc == Failing ==> w.open == map[])
    ensures Tidy(Step(db, w, c).1)
  {
    if w.pc == AtRuntime {
      RuntimeStaysTidy(db, w, c);
    } else if w.pc == ToPlanning || w.pc == ToRunning || w.pc == ClosingTools {
      EarlyStepStaysEarly(db, w, c);
    } else {
      OpenUntouched(db, w, c);
    }
  }

  ghost predicate RuntimeIsTidy(s: State, labels: seq<Label>, k: nat) {
    forall i :: 0 <= i < |labels| && labels[i].Run? && labels[i].runner == k ==>
      var before := Execute(s, labels[..i]);
      k in before.workers ==> ReturnsTidy(before.workers[k], labels[i].choice)
  }

  lemma TidyBefore(s: State, labels: seq<Label>, k: nat)
    requires |labels| > 0 && RuntimeIsTidy(s, labels, k)
    ensures RuntimeIsTidy(s, labels[..|labels| - 1], k)
  {
    var pre := labels[..|labels| - 1];
    forall i | 0 <= i < |pre| && pre[i].Run? && pre[i].runner == k
      ensures k in Execute(s, pre[..i]).workers ==> ReturnsTidy(Execute(s, pre[..i]).workers[k], pre[i].choice)
    {
      assert pre[..i] == labels[..i] && pre[i] == labels[i];
    }
  }

  lemma LabelStaysTidy(s: State, l: Label, k: nat)
    requires StateInv(s) && s.mode == Serving && k in s.workers && Holding(s.db, s.workers[k]) && Tidy(s.workers[k])
    requires !l.Crash? && (l.Run? && l.runner == k ==> !l.choice.fault && ReturnsTidy(s.workers[k], l.choice))
    ensures k in Apply(s, l).workers && Tidy(Apply(s, l).workers[k])
  {
    StepHolds(s, l, k);
    if l.Run? && l.runner == k {
      StepStaysTidy(s.db, s.workers[k], l.choice);
    }
  }

  lemma {:induction false} RunStaysTidy(s: State, labels: seq<Label>, k: nat)
    requires StateInv(s) && s.mode == Serving && k in s.workers && Holding(s.db, s.workers[k]) && Undisturbed(labels, k)
    requires Tidy(s.workers[k]) && RuntimeIsTidy(s, labels, k)
    ensures var s' := Execute(s, labels); k in s'.workers && Tidy(s'.workers[k])
  {
    if |labels| > 0 {
      var pre := labels[..|labels| - 1];
      TidyBefore(s, labels, k);
      RunStaysTidy(s, pre, k);
      RunHolds(s, pre, k);
      LabelStaysTidy(Execute(s, pre), labels[|labels| - 1], k);
    }
  }

  /** Every recorded call was opened once and closed once, by one of the two kinds of event. */
  ghost predicate EachClosedOnce(td: TaskData) {
    forall id :: id in td.calls ==>
      && Count(td.log, ToolStarted(Some(id))) == 1
      && Count(td.log, ToolCompleted(Some(id))) + Count(td.log, ToolFailed(id)) == 1
  }

  lemma SettledClosesEach(w: Worker, td: TaskData)
    requires TaskInv(td) && OpenInv(w.open, td) && w.open == map[]
    ensures EachClosedOnce(td)
  {
    forall id | id in td.calls
      ensures Count(td.log, ToolStarted(Some(id))) == 1
      ensures Count(td.log, ToolCompleted(Some(id))) + Count(td.log, ToolFailed(id)) == 1
    {
      PairingCounts(td.log, id);
      assert td.calls[id].status != ToolCallStarted;
    }
  }

  /** Without store faults, and with a runtime that closes what it starts before it returns, every call
      of a finished run was opened once and closed exactly once, whatever else ran in between. */
  lemma FaultFreeRunClosesEachCall(s: State, labels: seq<Label>, k: nat)
    requires StateInv(s) && s.mode == Serving && k in s.workers && Working(s.workers[k]) && Undisturbed(labels, k)
    requires Tidy(s.workers[k]) && RuntimeIsTidy(s, labels, k)
    requires k in Execute(s, labels).workers && Execute(s, labels).workers[k].pc == Finished
    ensures var s' := Execute(s, labels);
            && s.workers[k].item.id in s'.db.tasks && IsClosed(s'.db.tasks[s.workers[k].item.id].log)
            && EachClosedOnce(s'.db.tasks[s.workers[k].item.id])
  {
    WorkingHolds(s, k);
    RunHolds(s, labels, k);
    RunStaysTidy(s, labels, k);
    SettledClosesEach(Execute(s, labels).workers[k], Execute(s, labels).db.tasks[s.workers[k].item.id]);
  }

  /** The workflow as written, with the runtime that is wired in, needs no such premise: that runtime
      leaves no call open when it returns. What a fault-free call of it leaves is a task that is over,
      reported, and has every call closed exactly once. The premises are what that method promises. */
  lemma WiredRunClosesEachCall(db: Db, t: Id, taken: seq<Choice>)
    requires DbInv(db) && t in db.tasks && db.tasks[t].row.status == Created && forall c :: c in taken ==> !c.fault
    requires Drive(db, Start(db.tasks[t].row), taken).1.pc == Finished
    requires var w := Drive(db, Start(db.tasks[t].row), taken).1;
             || (ReportedLast(db, Start(db.tasks[t].row), taken) && w.open == map[])
             || LastTaken(db, Start(db.tasks[t].row), taken, Failing)
    ensures var (db', w) := Drive(db, Start(db.tasks[t].row), taken);
            w.item.id in db'.tasks && IsClosed(db'.tasks[w.item.id].log) && EachClosedOnce(db'.tasks[w.item.id])
  {
    var w0 := Start(db.tasks[t].row);
    var pre := taken[..|taken| - 1];
    StartInHand(db, t);
    DriveInHand(db, w0, pre);
    DriveInHand(db, w0, taken);
    var (mid, m) := Drive(db, w0, pre);
    if m.pc == Failing {
      FailingKeepsOpen(mid, m, taken[|taken| - 1]);
    }
    SettledClosesEach(Drive(db, w0, taken).1, Drive(db, w0, taken).0.tasks[Drive(db, w0, taken).1.item.id]);
  }

  lemma FailingKeepsOpen(db: Db, w: Worker, c: Choice)
    requires w.pc == Failing
    ensures Step(db, w, c).1.open == w.open
  {
  }
}
