/** What a client shows, said of the log alone: the reply's text, the status, the error and each chart. */
module ViewMeaning {
  import opened Basics
  import opened TaskLifecycle
  import opened EventLog
  import opened ClientView

  /** All the pieces of text in a log, in order. */
  ghost function Deltas(log: Log): string {
    if |log| == 0 then ""
    else (if log[0].body.MessageDelta? then log[0].body.delta else "") + Deltas(log[1..])
  }

  lemma {:induction false} DeltasAppend(log: Log, e: Event)
    ensures Deltas(log + [e]) == Deltas(log) + if e.body.MessageDelta? then e.body.delta else ""
  {
    if |log| == 0 {
      assert (log + [e])[1..] == [];
    } else {
      DeltasAppend(log[1..], e);
      assert (log + [e])[0] == log[0] && (log + [e])[1..] == log[1..] + [e];
    }
  }

  /** The text is the last completed reply followed by the pieces that came after it, or all pieces if
      no reply was completed. */
  ghost predicate TextIs(text: string, log: Log) {
    && ((forall i :: 0 <= i < |log| ==> !log[i].body.MessageCompleted?) ==> text == Deltas(log))
    && (forall k :: LastReply(log, k) ==> text == log[k].body.content + Deltas(log[k + 1..]))
  }

  ghost predicate LastReply(log: Log, k: int) {
    && 0 <= k < |log| && log[k].body.MessageCompleted?
    && forall i :: k < i < |log| ==> !log[i].body.MessageCompleted?
  }

  /** The status an event reports, if it reports one. */
  ghost function StatusIn(body: Payload): Option<Status> {
    if body.StatusChanged? then Some(body.status)
    else if body.TaskCompleted? then Some(Completed)
    else if body.TaskFailed? then Some(Failed)
    else None
  }

  ghost predicate LastReport(log: Log, k: int) {
    && 0 <= k < |log| && StatusIn(log[k].body).Some?
    && forall i :: k < i < |log| ==> StatusIn(log[i].body).None?
  }

  ghost predicate NoReport(log: Log) {
    forall i :: 0 <= i < |log| ==> StatusIn(log[i].body).None?
  }

  /** The status is the one reported last. */
  ghost predicate StatusIs(status: Option<Status>, log: Log) {
    && (NoReport(log) ==> status == None)
    && (forall k :: LastReport(log, k) ==> status == StatusIn(log[k].body))
  }

  ghost predicate LastFailure(log: Log, k: int) {
    && 0 <= k < |log| && log[k].body.TaskFailed?
    && forall i :: k < i < |log| ==> !log[i].body.TaskFailed?
  }

  /** The error is the one reported last. */
  ghost predicate ErrorIs(error: Option<ErrorCode>, log: Log) {
    && ((forall i :: 0 <= i < |log| ==> !log[i].body.TaskFailed?) ==> error == None)
    && (forall k :: LastFailure(log, k) ==> error == Some(log[k].body.code))
  }

  ghost predicate Creates(body: Payload, id: Id) {
    body.ChartCreated? && body.chartId == id
  }

  ghost predicate Executes(body: Payload, id: Id) {
    body.ExecutionCompleted? && body.chartId == id
  }

  ghost predicate LastCreation(log: Log, id: Id, k: int) {
    && 0 <= k < |log| && Creates(log[k].body, id)
    && forall i :: k < i < |log| ==> !Creates(log[i].body, id)
  }

  ghost predicate LastExecution(log: Log, id: Id, from: int, k: int) {
    && from < k < |log| && 0 <= k && Executes(log[k].body, id)
    && forall i :: k < i < |log| ==> !Executes(log[i].body, id)
  }

  /** The execution reported last since position `k`, if any. */
  ghost predicate ExecutionIs(execution: Option<Id>, log: Log, id: Id, k: int)
    requires 0 <= k
  {
    && ((forall i :: k < i < |log| ==> !Executes(log[i].body, id)) ==> execution == None)
    && (forall j :: LastExecution(log, id, k, j) ==> execution == Some(log[j].body.executionId))
  }

  /** A named chart is shown exactly if the log creates it, with the title of its last creation and the
      execution reported last since then, or none if none was. */
  ghost predicate ChartIs(charts: map<Id, ViewChart>, log: Log, id: Id) {
    && (id in charts <==> id != "" && exists k :: 0 <= k < |log| && Creates(log[k].body, id))
    && (id in charts ==> forall k :: LastCreation(log, id, k) ==>
          charts[id].title == log[k].body.title && ExecutionIs(charts[id].execution, log, id, k))
  }

  lemma TailGoesOn(log: Log, e: Event, k: int)
    requires 0 <= k < |log|
    ensures (log + [e])[k] == log[k] && (log + [e])[k + 1..] == log[k + 1..] + [e]
    ensures Deltas((log + [e])[k + 1..]) == Deltas(log[k + 1..]) + if e.body.MessageDelta? then e.body.delta else ""
  {
    DeltasAppend(log[k + 1..], e);
  }

  lemma LastReplyBefore(log: Log, e: Event, k: int)
    requires LastReply(log + [e], k) && k < |log|
    ensures LastReply(log, k) && !e.body.MessageCompleted?
  {
    assert (log + [e])[|log|] == e;
    forall i | k <= i < |log| ensures (log + [e])[i] == log[i] {
    }
  }

  lemma TextAfterReply(v: View, log: Log, e: Event, k: int)
    requires TextIs(v.assistantText, log) && LastReply(log + [e], k)
    ensures Absorb(v, e.body).assistantText == (log + [e])[k].body.content + Deltas((log + [e])[k + 1..])
  {
    if k < |log| {
      LastReplyBefore(log, e, k);
      TailGoesOn(log, e, k);
    } else {
      assert (log + [e])[k] == e && (log + [e])[k + 1..] == [];
    }
  }

  lemma TextGoesOn(v: View, log: Log, e: Event)
    requires TextIs(v.assistantText, log)
    ensures TextIs(Absorb(v, e.body).assistantText, log + [e])
  {
    var longer := log + [e];
    if forall i :: 0 <= i < |longer| ==> !longer[i].body.MessageCompleted? {
      DeltasAppend(log, e);
      assert longer[|log|] == e;
      forall i | 0 <= i < |log| ensures !log[i].body.MessageCompleted? {
        assert longer[i] == log[i];
      }
    }
    forall k | LastReply(longer, k) ensures Absorb(v, e.body).assistantText == longer[k].body.content + Deltas(longer[k + 1..]) {
      TextAfterReply(v, log, e, k);
    }
  }

  lemma StatusGoesOn(v: View, log: Log, e: Event)
    requires StatusIs(v.taskStatus, log)
    ensures StatusIs(Absorb(v, e.body).taskStatus, log + [e])
  {
    var longer := log + [e];
    assert longer[|log|] == e;
    assert forall i :: 0 <= i < |log| ==> longer[i] == log[i];
    forall k | LastReport(longer, k) ensures Absorb(v, e.body).taskStatus == StatusIn(longer[k].body) {
      if k < |log| {
        assert LastReport(log, k);
      }
    }
  }

  lemma ErrorGoesOn(v: View, log: Log, e: Event)
    requires ErrorIs(v.error, log)
    ensures ErrorIs(Absorb(v, e.body).error, log + [e])
  {
    var longer := log + [e];
    assert longer[|log|] == e;
    assert forall i :: 0 <= i < |log| ==> longer[i] == log[i];
    forall k | LastFailure(longer, k) ensures Absorb(v, e.body).error == Some(longer[k].body.code) {
      if k < |log| {
        assert LastFailure(log, k);
      }
    }
  }

  lemma ChartAbsorbs(v: View, body: Payload, id: Id)
    requires id in v.charts && id != "" && !Creates(body, id)
    ensures var c := Absorb(v, body).charts;
            && id in c && c[id].title == v.charts[id].title
            && c[id].execution == if Executes(body, id) then Some(body.executionId) else v.charts[id].execution
  {
  }

  lemma LastExecutionBefore(log: Log, e: Event, id: Id, k: int, j: int)
    requires LastExecution(log + [e], id, k, j) && j < |log|
    ensures LastExecution(log, id, k, j) && (log + [e])[j] == log[j] && !Executes(e.body, id)
  {
    assert (log + [e])[|log|] == e;
    forall i | j <= i < |log| ensures (log + [e])[i] == log[i] {
    }
  }

  lemma NoneBefore(log: Log, e: Event, id: Id, k: int)
    requires 0 <= k < |log| && forall i :: k < i < |log + [e]| ==> !Executes((log + [e])[i].body, id)
    ensures !Executes(e.body, id) && forall i :: k < i < |log| ==> !Executes(log[i].body, id)
  {
    assert (log + [e])[|log|] == e;
    forall i | k < i < |log| ensures !Executes(log[i].body, id) {
      assert (log + [e])[i] == log[i];
    }
  }

  lemma ExecutionGoesOn(execution: Option<Id>, log: Log, e: Event, id: Id, k: int)
    requires 0 <= k < |log| && ExecutionIs(execution, log, id, k)
    ensures ExecutionIs(if Executes(e.body, id) then Some(e.body.executionId) else execution, log + [e], id, k)
  {
    var longer := log + [e];
    var after := if Executes(e.body, id) then Some(e.body.executionId) else execution;
    if forall i :: k < i < |longer| ==> !Executes(longer[i].body, id) {
      NoneBefore(log, e, id, k);
    }
    forall j | LastExecution(longer, id, k, j) ensures after == Some(longer[j].body.executionId) {
      if j < |log| {
        LastExecutionBefore(log, e, id, k, j);
      } else {
        assert longer[j] == e;
      }
    }
  }

  lemma LastCreationBefore(log: Log, e: Event, id: Id, k: int)
    requires LastCreation(log + [e], id, k) && k < |log|
    ensures LastCreation(log, id, k) && !Creates(e.body, id)
  {
    assert (log + [e])[|log|] == e;
    forall i | k <= i < |log| ensures (log + [e])[i] == log[i] {
    }
  }

  lemma ShownGoesOn(v: View, log: Log, e: Event, id: Id)
    requires ChartIs(v.charts, log, id)
    ensures id in Absorb(v, e.body).charts <==> id != "" && exists k :: 0 <= k < |log + [e]| && Creates((log + [e])[k].body, id)
  {
    var longer := log + [e];
    assert longer[|log|] == e;
    assert forall i :: 0 <= i < |log| ==> longer[i] == log[i];
  }

  lemma ChartGoesOn(v: View, log: Log, e: Event, id: Id)
    requires ChartIs(v.charts, log, id)
    ensures ChartIs(Absorb(v, e.body).charts, log + [e], id)
  {
    var longer, charts := log + [e], Absorb(v, e.body).charts;
    ShownGoesOn(v, log, e, id);
    if id in charts {
      forall k | LastCreation(longer, id, k)
        ensures charts[id].title == longer[k].body.title && ExecutionIs(charts[id].execution, longer, id, k)
      {
        if k < |log| {
          LastCreationBefore(log, e, id, k);
          ChartAbsorbs(v, e.body, id);
          ExecutionGoesOn(v.charts[id].execution, log, e, id, k);
        } else {
          assert longer[k] == e;
        }
      }
    }
  }

  /** Reading a log once, in order, shows what the log says and nothing else. */
  lemma {:induction false} FoldMeans(log: Log, id: Id)
    ensures var v := Fold(log);
            && TextIs(v.assistantText, log) && StatusIs(v.taskStatus, log) && ErrorIs(v.error, log)
            && ChartIs(v.charts, log, id)
  {
    if |log| > 0 {
      var before, e := log[..|log| - 1], log[|log| - 1];
      assert log == before + [e];
      FoldMeans(before, id);
      var v := Fold(before).(latestSequence := |log|);
      TextGoesOn(v, before, e);
      StatusGoesOn(v, before, e);
      ErrorGoesOn(v, before, e);
      ChartGoesOn(v, before, e, id);
    }
  }

  /** So whatever is delivered of a gapless log, in any order, with repeats and losses, the view shows
      what the log says up to the event it has counted. */
  lemma DeliveryMeans(log: Log, deliveries: seq<Event>, id: Id)
    requires Gapless(log) && forall e :: e in deliveries ==> e in log
    ensures var v := Deliver(INITIAL_VIEW, deliveries);
            && 0 <= v.latestSequence <= |log|
            && TextIs(v.assistantText, log[..v.latestSequence]) && StatusIs(v.taskStatus, log[..v.latestSequence])
            && ErrorIs(v.error, log[..v.latestSequence]) && ChartIs(v.charts, log[..v.latestSequence], id)
  {
    DeliveryIsPrefixFold(log, deliveries);
    FoldMeans(log[..Deliver(INITIAL_VIEW, deliveries).latestSequence], id);
  }
}
