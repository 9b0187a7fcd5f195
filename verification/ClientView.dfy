/** The browser's per-task reducer: a fold over task events that rejects gaps and repeats. */
module ClientView {
  import opened Basics
  import opened TaskLifecycle
  import opened EventLog

  datatype ViewChart = ViewChart(title: string, execution: Option<Id>)

  datatype View = View(
    latestSequence: int, assistantText: string, taskStatus: Option<Status>,
    error: Option<ErrorCode>, charts: map<Id, ViewChart>)

  const INITIAL_VIEW := View(0, "", None, None, map[])

  function Absorb(v: View, body: Payload): View {
    match body
    case MessageDelta(delta, _) => v.(assistantText := v.assistantText + delta)
    case MessageCompleted(content) => v.(assistantText := content)
    case StatusChanged(_, status) => v.(taskStatus := Some(status))
    case TaskCompleted => v.(taskStatus := Some(Completed))
    case TaskFailed(code) => v.(taskStatus := Some(Failed), error := Some(code))
    case ChartCreated(id, title) =>
      if id == "" then v else v.(charts := v.charts[id := ViewChart(title, None)])
    case ExecutionCompleted(chartId, execution) =>
      if chartId == "" || chartId !in v.charts then v
      else v.(charts := v.charts[chartId := v.charts[chartId].(execution := Some(execution))])
    case _ => v
  }

  function Reduce(v: View, incoming: Event): View {
    if incoming.sequence <= v.latestSequence then v
    else if incoming.sequence != v.latestSequence + 1 then v
    else Absorb(v.(latestSequence := incoming.sequence), incoming.body)
  }

  function Deliver(v: View, deliveries: seq<Event>): View {
    if |deliveries| == 0 then v
    else Reduce(Deliver(v, deliveries[..|deliveries| - 1]), deliveries[|deliveries| - 1])
  }

  /** The view of a log read once, in order, with no rejection rule at all. */
  ghost function Fold(log: Log): View {
    if |log| == 0 then INITIAL_VIEW
    else Absorb(Fold(log[..|log| - 1]).(latestSequence := |log|), log[|log| - 1].body)
  }

  lemma FoldAppend(log: Log, e: Event)
    ensures Fold(log + [e]) == Absorb(Fold(log).(latestSequence := |log| + 1), e.body)
  {
    assert (log + [e])[..|log|] == log;
  }

  lemma {:induction false} FoldCounts(log: Log)
    ensures Fold(log).latestSequence == |log|
  {
    if |log| > 0 {
      FoldCounts(log[..|log| - 1]);
    }
  }

  /** The view is the fold of the prefix it has counted. */
  ghost predicate IsPrefixFold(v: View, log: Log) {
    0 <= v.latestSequence <= |log| && v == Fold(log[..v.latestSequence])
  }

  /** Whatever event of the log arrives next, the view stays the fold of a prefix. */
  lemma ReduceStaysPrefix(v: View, log: Log, e: Event)
    requires Gapless(log) && IsPrefixFold(v, log) && e in log
    ensures IsPrefixFold(Reduce(v, e), log)
  {
    if e.sequence == v.latestSequence + 1 {
      var i :| 0 <= i < |log| && log[i] == e;
      assert i == v.latestSequence;
      assert log[..i + 1] == log[..i] + [e];
      FoldAppend(log[..i], e);
      FoldCounts(log[..i + 1]);
    }
  }

  /** At-least-once delivery in any order is exactly-once application: whatever is delivered
      from a gapless log, the view is the in-order fold of the prefix it has counted. */
  lemma {:induction false} DeliveryIsPrefixFold(log: Log, deliveries: seq<Event>)
    requires Gapless(log)
    requires forall e :: e in deliveries ==> e in log
    ensures IsPrefixFold(Deliver(INITIAL_VIEW, deliveries), log)
  {
    if |deliveries| > 0 {
      DeliveryIsPrefixFold(log, deliveries[..|deliveries| - 1]);
      ReduceStaysPrefix(Deliver(INITIAL_VIEW, deliveries[..|deliveries| - 1]), log, deliveries[|deliveries| - 1]);
    }
  }

  /** A delivery list that contains the whole log in order, however it is padded with
      repeats and strays, brings the view to the whole log. */
  ghost predicate Covers(log: Log, deliveries: seq<Event>, n: nat)
    requires n <= |log|
  {
    n == 0 ||
    exists k: nat :: k < |deliveries| && deliveries[k] == log[n - 1] && Covers(log, deliveries[..k], n - 1)
  }

  lemma {:induction false} DeliverIsMonotone(v: View, deliveries: seq<Event>, k: nat)
    requires k <= |deliveries|
    ensures Deliver(v, deliveries[..k]).latestSequence <= Deliver(v, deliveries).latestSequence
    decreases |deliveries| - k
  {
    if k == |deliveries| {
      assert deliveries[..k] == deliveries;
    } else {
      DeliverIsMonotone(v, deliveries, k + 1);
      assert deliveries[..k + 1][..k] == deliveries[..k];
    }
  }

  lemma {:induction false} CoveringDeliveryCatchesUp(log: Log, deliveries: seq<Event>, n: nat)
    requires Gapless(log) && n <= |log|
    requires forall e :: e in deliveries ==> e in log
    requires Covers(log, deliveries, n)
    ensures Deliver(INITIAL_VIEW, deliveries).latestSequence >= n
  {
    if n == 0 {
      DeliveryIsPrefixFold(log, deliveries);
    } else {
      var k: nat :| k < |deliveries| && deliveries[k] == log[n - 1] && Covers(log, deliveries[..k], n - 1);
      CoveringDeliveryCatchesUp(log, deliveries[..k], n - 1);
      assert deliveries[..k + 1][..k] == deliveries[..k];
      DeliverIsMonotone(INITIAL_VIEW, deliveries, k + 1);
    }
  }
}
