/** The task entity and its status machine. */
module TaskLifecycle {
  import opened Basics

  datatype Status = Created | Planning | RunningTools | Validating | Completed | Failed

  predicate Terminal(s: Status) {
    s == Completed || s == Failed
  }

  predicate CanTransition(current: Status, next: Status) {
    match current
    case Created => next == Planning || next == Failed
    case Planning => next == RunningTools || next == Failed
    case RunningTools => next == Validating || next == Failed
    case Validating => next == Completed || next == Failed
    case _ => false
  }

  /** One row of the tasks table, and the in-memory copy a workflow holds. */
  datatype Task = Task(
    id: Id, tenant: Id, sessionId: Id, inputMessageId: Id, views: seq<string>,
    status: Status, latestSequence: int, error: Option<ErrorCode>,
    createdAt: int, startedAt: Option<int>, completedAt: Option<int>, version: int)

  /** What a permitted transition turns a task into. */
  function Advance(t: Task, next: Status, now: int): Task {
    t.(status := next,
       startedAt := if t.startedAt.None? && next != Created then Some(now) else t.startedAt,
       completedAt := if Terminal(next) then Some(now) else t.completedAt,
       version := t.version + 1)
  }

  /** What a permitted step leaves, column by column: the first start is kept, an end is recorded when the
      task ends, the version counts one more, and nothing else moves. */
  ghost predicate Advanced(before: Task, after: Task, next: Status, now: int) {
    && after.status == next && after.version == before.version + 1
    && (before.startedAt.Some? ==> after.startedAt == before.startedAt)
    && (before.startedAt.None? ==> after.startedAt == if next == Created then None else Some(now))
    && after.completedAt == (if next == Completed || next == Failed then Some(now) else before.completedAt)
    && after.id == before.id && after.tenant == before.tenant && after.sessionId == before.sessionId
    && after.inputMessageId == before.inputMessageId && after.views == before.views
    && after.latestSequence == before.latestSequence && after.createdAt == before.createdAt
  }

  class AnalysisTask {
    var value: Task

    constructor (value: Task)
      ensures this.value == value
    {
      this.value := value;
    }

    method Transition(next: Status, now: int) returns (ok: bool)
      modifies this
      ensures ok == CanTransition(old(value).status, next)
      ensures value == if ok then Advance(old(value), next, now) else old(value)
      ensures ok ==> Advanced(old(value), value, next, now) && value.error == old(value).error
    {
      if !CanTransition(value.status, next) {
        return false;
      }
      if value.startedAt.None? && next != Created {
        value := value.(startedAt := Some(now));
      }
      if next == Completed || next == Failed {
        value := value.(completedAt := Some(now));
      }
      value := value.(status := next);
      value := value.(version := value.version + 1);
      return true;
    }

    method Fail(code: ErrorCode, now: int) returns (ok: bool)
      modifies this
      ensures ok == CanTransition(old(value).status, Failed)
      ensures value == if ok then Advance(old(value), Failed, now).(error := Some(code)) else old(value)
      ensures ok ==> Advanced(old(value), value, Failed, now) && value.error == Some(code)
    {
      ok := Transition(Failed, now);
      if ok {
        value := value.(error := Some(code));
      }
    }
  }
}
