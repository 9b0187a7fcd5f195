/** Task events, the per-task log, and the grammar every committed log obeys. */
module EventLog {
  import opened Basics
  import opened TaskLifecycle

  datatype Payload =
    | TaskCreated
    | StatusChanged(previous: Status, status: Status)
    | MessageStarted(messageId: Id)
    | MessageDelta(delta: string, ordinal: nat)
    | MessageCompleted(content: string)
    | ToolStarted(call: Option<Id>)
    | ToolCompleted(call: Option<Id>)
    | ToolFailed(callId: Id)
    | MetricCandidatesCreated
    | ChartCreated(chartId: Id, title: string)
    | ExecutionCompleted(chartId: Id, executionId: Id)
    | TaskCompleted
    | TaskFailed(code: ErrorCode)

  datatype Event = Event(sequence: int, body: Payload)

  type Log = seq<Event>

  /** Sequences are exactly 1, 2, ..., n in order. */
  ghost predicate Gapless(log: Log) {
    forall i :: 0 <= i < |log| ==> log[i].sequence == i + 1
  }

  predicate TerminalBody(body: Payload) {
    body.TaskCompleted? || body.TaskFailed?
  }

  datatype CallStatus = ToolCallStarted | ToolCallCompleted | ToolCallFailed

  /** Where a log stands after the events read so far. */
  datatype Phase =
    | Empty
    | At(status: Status)
    | JustCompleted
    | CompletedOpen
    | AwaitFailed
    | Closed(final: Status)

  datatype Grammar =
    | Bad
    | Good(phase: Phase, calls: map<Id, CallStatus>, charts: map<Id, Option<Id>>, replied: bool)

  /** Reads one more event. Anything the protocol rules out leads to Bad, which absorbs. */
  ghost function Read(g: Grammar, body: Payload): Grammar {
    if g.Bad? then Bad else
    match body
    case TaskCreated =>
      if g.phase == Empty then g.(phase := At(Created)) else Bad
    case StatusChanged(previous, status) =>
      if g.phase == At(previous) && CanTransition(previous, status)
         && (status == Completed ==> g.replied && forall id :: id in g.charts ==> g.charts[id].Some?) then
        g.(phase := if status == Completed then JustCompleted
                    else if status == Failed then AwaitFailed
                    else At(status))
      else Bad
    case MessageStarted(_) => if g.phase == At(RunningTools) then g else Bad
    case MessageDelta(_, _) => if g.phase == At(RunningTools) then g else Bad
    case MetricCandidatesCreated => if g.phase == At(RunningTools) then g else Bad
    case ToolStarted(call) =>
      if g.phase != At(RunningTools) then Bad
      else if call.None? then g
      else if call.value in g.calls then Bad
      else g.(calls := g.calls[call.value := ToolCallStarted])
    case ToolCompleted(call) =>
      if g.phase != At(RunningTools) then Bad
      else if call.None? then g
      else if call.value in g.calls && g.calls[call.value] == ToolCallStarted then
        g.(calls := g.calls[call.value := ToolCallCompleted])
      else Bad
    case ToolFailed(id) =>
      if !(g.phase == At(RunningTools) || g.phase == At(Validating) || g.phase == JustCompleted || g.phase == CompletedOpen) then Bad
      else if id in g.calls && g.calls[id] == ToolCallStarted then
        g.(calls := g.calls[id := ToolCallFailed],
           phase := if g.phase == JustCompleted then CompletedOpen else g.phase)
      else Bad
    case MessageCompleted(_) =>
      if g.phase == At(Validating) && !g.replied then g.(replied := true) else Bad
    case ChartCreated(id, _) =>
      if g.phase == At(Validating) && g.replied && id !in g.charts then g.(charts := g.charts[id := None]) else Bad
    case ExecutionCompleted(id, execution) =>
      if g.phase == At(Validating) && id in g.charts && g.charts[id].None? then
        g.(charts := g.charts[id := Some(execution)])
      else Bad
    case TaskCompleted => if g.phase == JustCompleted then g.(phase := Closed(Completed)) else Bad
    case TaskFailed(_) => if g.phase == AwaitFailed then g.(phase := Closed(Failed)) else Bad
  }

  ghost function Scan(log: Log): Grammar {
    if |log| == 0 then Good(Empty, map[], map[], false)
    else Read(Scan(log[..|log| - 1]), log[|log| - 1].body)
  }

  ghost predicate InPhase(log: Log, p: Phase) {
    Scan(log).Good? && Scan(log).phase == p
  }

  /** The log has its terminal event. */
  ghost predicate IsClosed(log: Log) {
    Scan(log).Good? && Scan(log).phase.Closed?
  }

  lemma ScanAppend(log: Log, e: Event)
    ensures Scan(log + [e]) == Read(Scan(log), e.body)
  {
    assert (log + [e])[..|log|] == log;
  }

  /** Number of status changes in a log. */
  ghost function StatusSteps(log: Log): nat {
    if |log| == 0 then 0
    else StatusSteps(log[..|log| - 1]) + if log[|log| - 1].body.StatusChanged? then 1 else 0
  }

  lemma StepsAppend(log: Log, e: Event)
    ensures StatusSteps(log + [e]) == StatusSteps(log) + if e.body.StatusChanged? then 1 else 0
  {
    assert (log + [e])[..|log|] == log;
  }

  /** The status a reader of the log knows: the target of the last status change. */
  ghost function StatusAfter(log: Log): Option<Status> {
    if |log| == 0 then None
    else
      match log[|log| - 1].body
      case TaskCreated => Some(Created)
      case StatusChanged(_, s) => Some(s)
      case _ => StatusAfter(log[..|log| - 1])
  }

  ghost function PhaseStatus(p: Phase): Option<Status> {
    match p
    case Empty => None
    case At(s) => Some(s)
    case JustCompleted => Some(Completed)
    case CompletedOpen => Some(Completed)
    case AwaitFailed => Some(Failed)
    case Closed(s) => Some(s)
  }

  /** A prefix of a well-formed log is well formed. */
  lemma {:induction false} ScanPrefix(log: Log, n: nat)
    requires n <= |log| && Scan(log).Good?
    ensures Scan(log[..n]).Good?
    decreases |log| - n
  {
    if n == |log| {
      assert log[..n] == log;
    } else {
      ScanPrefix(log, n + 1);
      assert log[..n + 1][..n] == log[..n];
    }
  }

  ghost predicate WellFormedPhase(g: Grammar) {
    g.Good? ==>
      && (g.phase.At? ==> !Terminal(g.phase.status))
      && (g.phase.Closed? ==> Terminal(g.phase.final))
  }

  lemma {:induction false} PhaseKnowsStatus(log: Log)
    requires Scan(log).Good?
    ensures WellFormedPhase(Scan(log))
    ensures PhaseStatus(Scan(log).phase) == StatusAfter(log)
    ensures Scan(log).phase == Empty <==> |log| == 0
  {
    if |log| > 0 {
      ScanPrefix(log, |log| - 1);
      PhaseKnowsStatus(log[..|log| - 1]);
    }
  }

  /** The grammar read as statements about positions in the log. */
  ghost predicate ProtocolAt(log: Log, i: nat)
    requires i < |log|
  {
    var before := StatusAfter(log[..i]);
    match log[i].body
    case TaskCreated => i == 0
    case StatusChanged(previous, status) => before == Some(previous) && CanTransition(previous, status)
    case MessageStarted(_) => before == Some(RunningTools)
    case MessageDelta(_, _) => before == Some(RunningTools)
    case MetricCandidatesCreated => before == Some(RunningTools)
    case ToolStarted(_) => before == Some(RunningTools)
    case ToolCompleted(_) => before == Some(RunningTools)
    case ToolFailed(_) => before == Some(RunningTools) || before == Some(Validating) || before == Some(Completed)
    case MessageCompleted(_) => before == Some(Validating)
    case ChartCreated(_, _) => before == Some(Validating)
    case ExecutionCompleted(_, _) => before == Some(Validating)
    case TaskCompleted =>
      i == |log| - 1 && i > 0 && log[i - 1].body == StatusChanged(Validating, Completed)
    case TaskFailed(_) =>
      i == |log| - 1 && i > 0 && log[i - 1].body.StatusChanged? && log[i - 1].body.status == Failed
  }

  /** Nothing can follow a terminal event. */
  lemma {:induction false} TerminalEventIsLast(log: Log, i: nat)
    requires i < |log| && Scan(log).Good? && TerminalBody(log[i].body)
    ensures i == |log| - 1 && Scan(log).phase.Closed?
  {
    ScanPrefix(log, i + 1);
    assert log[..i + 1][..i] == log[..i];
    if i + 1 < |log| {
      assert log[..i + 2][..i + 1] == log[..i + 1];
      ScanPrefix(log, i + 2);
    } else {
      assert log[..i + 1] == log;
    }
  }

  lemma {:induction false} PhaseNamesLastChange(log: Log)
    requires |log| > 0 && Scan(log).Good?
    ensures Scan(log).phase == JustCompleted ==> log[|log| - 1].body == StatusChanged(Validating, Completed)
    ensures Scan(log).phase == AwaitFailed ==> log[|log| - 1].body.StatusChanged? && log[|log| - 1].body.status == Failed
  {
    ScanPrefix(log, |log| - 1);
    PhaseKnowsStatus(log[..|log| - 1]);
  }

  lemma {:induction false} GrammarMeansProtocol(log: Log, i: nat)
    requires i < |log| && Scan(log).Good?
    ensures ProtocolAt(log, i)
  {
    ScanPrefix(log, i);
    ScanPrefix(log, i + 1);
    assert log[..i + 1][..i] == log[..i];
    PhaseKnowsStatus(log[..i]);
    if TerminalBody(log[i].body) {
      TerminalEventIsLast(log, i);
      PhaseNamesLastChange(log[..i]);
    }
  }

  /** A log that starts at all starts with task.created, and only there. */
  lemma {:induction false} LogStartsWithCreation(log: Log)
    requires |log| > 0 && Scan(log).Good?
    ensures log[0].body == TaskCreated
    ensures forall i :: 0 < i < |log| ==> log[i].body != TaskCreated
  {
    ScanPrefix(log, 1);
    assert log[..1][..0] == [];
    forall i | 0 < i < |log| ensures log[i].body != TaskCreated {
      GrammarMeansProtocol(log, i);
    }
  }
}
