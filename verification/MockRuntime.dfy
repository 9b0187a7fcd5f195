/** The runtime that is wired in: a fixed protocol of events, one query per view of the plan. */
module MockRuntime {
  import opened Basics
  import opened TaskLifecycle
  import opened EventLog
  import opened Database
  import opened DurableStore
  import W = Worker

  datatype View = View(key: string, title: string, unit: string)

  const VIEWS := [View("cpu", "CPU 使用率", "percent"), View("memory", "内存可用率", "percent"), View("load", "系统负载", "short")]
  const UNSUPPORTED_TEXT := "当前仅支持 node_exporter 的 CPU、内存和系统负载视图。"
  const PROGRESS_TEXT := "正在执行已冻结的 node_exporter 分析计划…"
  const QUERY_TOOL := "grafana.query_prometheus"

  /** The view that has this key. */
  function ViewForKey(key: string): (view: Option<View>)
    ensures view.Some? ==> view.value in VIEWS && view.value.key == key
    ensures view.None? ==> forall v :: v in VIEWS ==> v.key != key
  {
    if key == VIEWS[0].key then Some(VIEWS[0])
    else if key == VIEWS[1].key then Some(VIEWS[1])
    else if key == VIEWS[2].key then Some(VIEWS[2])
    else None
  }

  /** What the query engine answers for one view: an error, or whether the query validated and its data. */
  datatype Answer = Unavailable(code: ErrorCode) | Answer(valid: bool, queryOk: bool, data: string)

  function Bodies(log: Log): seq<Payload> {
    if |log| == 0 then [] else Bodies(log[..|log| - 1]) + [log[|log| - 1].body]
  }

  lemma BodiesAppend(log: Log, e: Event)
    ensures Bodies(log + [e]) == Bodies(log) + [e.body]
  {
    assert (log + [e])[..|log|] == log;
  }

  /** The bodies on record for a task. */
  function Told(db: Db, id: Id): seq<Payload> {
    if id in db.tasks then Bodies(db.tasks[id].log) else []
  }

  function Pairs(ids: seq<Id>): seq<Payload> {
    if |ids| == 0 then []
    else Pairs(ids[..|ids| - 1]) + [ToolStarted(Some(ids[|ids| - 1])), ToolCompleted(Some(ids[|ids| - 1]))]
  }

  lemma PairsAppend(ids: seq<Id>, id: Id)
    ensures Pairs(ids + [id]) == Pairs(ids) + [ToolStarted(Some(id)), ToolCompleted(Some(id))]
  {
    assert (ids + [id])[..|ids|] == ids;
  }

  /** What an accepted agent event is logged as. */
  function SinkBody(w: W.Worker, c: W.Choice, e: W.AgentEvent): Payload {
    match e.kind
    case MessageStart => MessageStarted(w.messageId)
    case Delta => MessageDelta(e.text, w.ordinal + 1)
    case ToolStart => ToolStarted(if e.toolName != "" then Some(c.id) else None)
    case ToolDone => ToolCompleted(if e.toolName != "" && e.sourceCallId in w.open then Some(w.open[e.sourceCallId].id) else None)
    case _ => MetricCandidatesCreated
  }

  lemma AppendTells(db: Db, item: Task, td: TaskData, body: Payload)
    requires item.id in db.tasks && td.row.id == item.id && td.log == db.tasks[item.id].log
    requires AppendEvent(td, item, body).Success?
    ensures AppendEvent(td, item, body).value.row.id == item.id
    ensures Bodies(AppendEvent(td, item, body).value.log) == Told(db, item.id) + [body]
  {
    BodiesAppend(td.log, Event(td.row.latestSequence + 1, body));
  }

  ghost predicate TellsOne(db: Db, db': Db, id: Id, body: Payload) {
    && id in db'.tasks && db'.tasks[id].row.id == id
    && Told(db', id) == Told(db, id) + [body]
  }

  lemma AppendTxTells(db: Db, item: Task, body: Payload)
    requires item.id in db.tasks && db.tasks[item.id].row.id == item.id && AppendTx(db, item, body).Success?
    ensures TellsOne(db, AppendTx(db, item, body).value, item.id, body)
  {
    AppendTells(db, item, db.tasks[item.id], body);
  }

  lemma StartTxTells(db: Db, item: Task, call: ToolCall)
    requires item.id in db.tasks && db.tasks[item.id].row.id == item.id && StartToolTx(db, item, call).Success?
    ensures TellsOne(db, StartToolTx(db, item, call).value, item.id, ToolStarted(Some(call.id)))
  {
    AppendTells(db, item, CreateCall(db.tasks[item.id], call).value, ToolStarted(Some(call.id)));
  }

  lemma CloseTxTells(db: Db, item: Task, call: ToolCall, body: Payload)
    requires item.id in db.tasks && db.tasks[item.id].row.id == item.id && CloseToolTx(db, item, call, body).Success?
    ensures TellsOne(db, CloseToolTx(db, item, call, body).value, item.id, body)
  {
    AppendTells(db, item, CompleteCall(db.tasks[item.id], call, call.version - 1).value, body);
  }

  /** An accepted agent event is exactly one event more in the log. */
  lemma SinkLogsOne(db: Db, w: W.Worker, c: W.Choice, e: W.AgentEvent)
    requires W.Sink(db, w, c, e).2.None? && w.item.id in db.tasks && db.tasks[w.item.id].row.id == w.item.id
    ensures TellsOne(db, W.Sink(db, w, c, e).0, w.item.id, SinkBody(w, c, e))
  {
    if e.kind == W.ToolStart && e.toolName != "" {
      StartTxTells(db, w.item, W.OpenedCall(c, e));
    } else if e.kind == W.ToolDone && e.toolName != "" && e.sourceCallId in w.open {
      var call := W.ClosedCall(w.open[e.sourceCallId], ToolCallCompleted, None, c.now);
      CloseTxTells(db, w.item, call, ToolCompleted(Some(call.id)));
    } else {
      AppendTxTells(db, w.item, SinkBody(w, c, e));
    }
  }

  lemma EmitNext(db: Db, w: W.Worker, c: W.Choice, e: W.AgentEvent)
    requires w.pc == W.AtRuntime && c.move == W.Emit(e)
    ensures W.Step(db, w, c) == (W.Sink(db, w, c, e).0, W.Sink(db, w, c, e).1)
  {
  }

  /** The proposal is the view's, with the data the query engine answered. */
  ghost predicate Draws(p: W.Proposal, view: View, a: Answer) {
    a.Answer? && a.valid && p.title == view.title && p.unit == view.unit && p.queryOk == a.queryOk && p.data == a.data
  }

  ghost predicate DrawnFrom(proposals: seq<W.Proposal>, answers: seq<Answer>) {
    && |answers| == |proposals|
    && forall i :: 0 <= i < |proposals| ==>
         answers[i].Answer? && answers[i].valid && proposals[i].queryOk == answers[i].queryOk && proposals[i].data == answers[i].data
  }

  class Runtime {
    constructor () {}

    /** Emits one event, keeping the account of the run. */
    method Tell(sink: DurableSink, e: W.AgentEvent, ghost trail: Trail)
      returns (err: Option<ErrorCode>, ghost t: Trail, ghost c: W.Choice)
      requires trail.At(sink.store.db, sink.Now()) && OnRow(sink.store.db, sink.task.value)
      modifies sink, sink.store
      ensures t.Leads(trail, sink.store.db, sink.Now())
      ensures W.Sink(old(sink.store.db), old(sink.Now()), c, e) == (sink.store.db, sink.Now(), err)
      ensures err.None? ==> TellsOne(old(sink.store.db), sink.store.db, sink.task.value.id, SinkBody(old(sink.Now()), c, e))
    {
      ghost var db, w := sink.store.db, sink.Now();
      err, c := sink.Emit(e);
      EmitNext(db, w, c, e);
      TrailGrows(trail, db, w, c, sink.store.db, sink.Now());
      t := trail.Then(c, sink.store.db, sink.Now());
      if err.None? {
        SinkLogsOne(db, w, c, e);
      }
    }

    /** Opens a call: logged, and kept open under its source id. */
    method TellStart(sink: DurableSink, callId: Id, ghost trail: Trail)
      returns (err: Option<ErrorCode>, ghost t: Trail, ghost id: Id)
      requires trail.At(sink.store.db, sink.Now())
      requires OnRow(sink.store.db, sink.task.value) && callId != ""
      modifies sink, sink.store
      ensures t.Leads(trail, sink.store.db, sink.Now())
      ensures err.None? ==>
                && TellsOne(old(sink.store.db), sink.store.db, sink.task.value.id, ToolStarted(Some(id)))
                && sink.openCalls.Keys == old(sink.openCalls.Keys) + {callId} && sink.openCalls[callId].id == id
    {
      ghost var c;
      err, t, c := Tell(sink, W.AgentEvent(W.ToolStart, callId, QUERY_TOOL, ""), trail);
      id := c.id;
    }

    /** Completes an open call: logged, and no longer open. */
    method TellDone(sink: DurableSink, callId: Id, ghost trail: Trail)
      returns (err: Option<ErrorCode>, ghost t: Trail)
      requires trail.At(sink.store.db, sink.Now())
      requires OnRow(sink.store.db, sink.task.value) && callId != "" && callId in sink.openCalls
      modifies sink, sink.store
      ensures t.Leads(trail, sink.store.db, sink.Now())
      ensures err.None? ==>
                && TellsOne(old(sink.store.db), sink.store.db, sink.task.value.id, ToolCompleted(Some(old(sink.openCalls[callId].id))))
                && sink.openCalls.Keys == old(sink.openCalls.Keys) - {callId}
    {
      ghost var c;
      err, t, c := Tell(sink, W.AgentEvent(W.ToolDone, callId, QUERY_TOOL, ""), trail);
    }

    /** A piece of the reply, which touches no call. */
    method TellReply(sink: DurableSink, kind: W.AgentKind, text: string, ghost trail: Trail)
      returns (err: Option<ErrorCode>, ghost t: Trail)
      requires trail.At(sink.store.db, sink.Now()) && OnRow(sink.store.db, sink.task.value)
      requires kind == W.MessageStart || kind == W.Delta
      modifies sink, sink.store
      ensures t.Leads(trail, sink.store.db, sink.Now())
      ensures err.None? ==>
                && sink.openCalls == old(sink.openCalls)
                && sink.deltaOrdinal == old(sink.deltaOrdinal) + (if kind == W.Delta then 1 else 0)
                && TellsOne(old(sink.store.db), sink.store.db, sink.task.value.id,
                            if kind == W.Delta then MessageDelta(text, old(sink.deltaOrdinal) + 1) else MessageStarted(sink.messageId))
    {
      ghost var c;
      err, t, c := Tell(sink, W.AgentEvent(kind, "", "", text), trail);
    }

    /** The opening of the reply: its start and one piece of text. */
    method TellOpening(sink: DurableSink, text: string, ghost trail: Trail)
      returns (err: Option<ErrorCode>, ghost t: Trail)
      requires OnRow(sink.store.db, sink.task.value) && trail.At(sink.store.db, sink.Now())
      modifies sink, sink.store
      ensures t.Leads(trail, sink.store.db, sink.Now())
      ensures err.None? ==>
                && OnRow(sink.store.db, sink.task.value) && sink.openCalls == old(sink.openCalls)
                && Told(sink.store.db, sink.task.value.id)
                   == old(Told(sink.store.db, sink.task.value.id))
                      + [MessageStarted(sink.messageId), MessageDelta(text, old(sink.deltaOrdinal) + 1)]
    {
      err, t := TellReply(sink, W.MessageStart, "", trail);
      if err.Some? {
        return;
      }
      err, t := TellReply(sink, W.Delta, text, t);
    }

    /** On success the log has grown by the opening of the reply and one start and one completion per
        view, in plan order; no call is left open; and there is one proposal per view. */
    method Run(sink: DurableSink, userMessage: string, views: seq<string>, ghost trail: Trail)
      returns (r: Result<W.RunResult>, ghost t: Trail, ghost ids: seq<Id>, ghost answers: seq<Answer>)
      requires sink.openCalls == map[] && OnRow(sink.store.db, sink.task.value)
      requires trail.At(sink.store.db, sink.Now())
      modifies sink, sink.store
      ensures t.Leads(trail, sink.store.db, sink.Now())
      ensures W.Blank(userMessage) ==> r == Failure(InvalidArgument) && t == trail
      ensures r.Success? ==>
                && sink.openCalls == map[] && OnRow(sink.store.db, sink.task.value)
                && OnePerView(views, r.value.proposals) && |ids| == |views| && DrawnFrom(r.value.proposals, answers)
                && Told(sink.store.db, sink.task.value.id)
                   == old(Told(sink.store.db, sink.task.value.id))
                      + [MessageStarted(sink.messageId),
                         MessageDelta(if views == [] then UNSUPPORTED_TEXT else PROGRESS_TEXT, old(sink.deltaOrdinal) + 1)]
                      + Pairs(ids)
    {
      t, ids, answers := trail, [], [];
      if W.Blank(userMessage) {
        return Failure(InvalidArgument), t, ids, answers;
      }
      var err;
      err, t := TellOpening(sink, if |views| == 0 then UNSUPPORTED_TEXT else PROGRESS_TEXT, trail);
      if err.Some? {
        return Failure(err.value), t, ids, answers;
      }
      if |views| == 0 {
        return Success(W.RunResult(UNSUPPORTED_TEXT, [])), t, ids, answers;
      }
      var proposals;
      proposals, t, ids, answers := RunViews(sink, views, t);
      if proposals.Failure? {
        return Failure(proposals.error), t, ids, answers;
      }
      var reply: string := *;
      return Success(W.RunResult(reply, proposals.value)), t, ids, answers;
    }

    /** The views in plan order. */
    method RunViews(sink: DurableSink, views: seq<string>, ghost trail: Trail)
      returns (r: Result<seq<W.Proposal>>, ghost t: Trail, ghost ids: seq<Id>, ghost answers: seq<Answer>)
      requires sink.openCalls == map[] && OnRow(sink.store.db, sink.task.value)
      requires trail.At(sink.store.db, sink.Now())
      modifies sink, sink.store
      ensures t.Leads(trail, sink.store.db, sink.Now())
      ensures r.Success? ==>
                && sink.openCalls == map[] && OnRow(sink.store.db, sink.task.value)
                && OnePerView(views, r.value) && |ids| == |views| && DrawnFrom(r.value, answers)
                && Told(sink.store.db, sink.task.value.id) == old(Told(sink.store.db, sink.task.value.id)) + Pairs(ids)
    {
      var proposals: seq<W.Proposal> := [];
      t, ids, answers := trail, [], [];
      ghost var opening := Told(sink.store.db, sink.task.value.id);
      var i := 0;
      while i < |views|
        invariant i <= |views| && |ids| == i && OnePerView(views[..i], proposals) && DrawnFrom(proposals, answers)
        invariant sink.openCalls == map[] && OnRow(sink.store.db, sink.task.value)
        invariant t.Leads(trail, sink.store.db, sink.Now())
        invariant Told(sink.store.db, sink.task.value.id) == opening + Pairs(ids)
      {
        var view := ViewForKey(views[i]);
        if view.None? {
          return Failure(SchemaValidationFailed), t, ids, answers;
        }
        var proposal;
        ghost var id;
        ghost var answer;
        proposal, t, id, answer := RunView(sink, view.value, t);
        if proposal.Failure? {
          return Failure(proposal.error), t, ids, answers;
        }
        OneMorePair(opening, ids, id);
        OneMoreView(views, i, proposals, proposal.value);
        OneMoreDrawn(proposals, answers, proposal.value, view.value, answer);
        ids, answers := ids + [id], answers + [answer];
        proposals := proposals + [proposal.value];
        i := i + 1;
      }
      assert views[..i] == views;
      return Success(proposals), t, ids, answers;
    }

    /** One view: tool.started, the query, tool.completed. */
    method RunView(sink: DurableSink, view: View, ghost trail: Trail)
      returns (r: Result<W.Proposal>, ghost t: Trail, ghost id: Id, ghost answered: Answer)
      requires sink.openCalls == map[] && OnRow(sink.store.db, sink.task.value)
      requires trail.At(sink.store.db, sink.Now())
      modifies sink, sink.store
      ensures t.Leads(trail, sink.store.db, sink.Now())
      ensures r.Success? ==>
                && Draws(r.value, view, answered)
                && sink.openCalls == map[] && OnRow(sink.store.db, sink.task.value)
                && Told(sink.store.db, sink.task.value.id)
                   == old(Told(sink.store.db, sink.task.value.id)) + [ToolStarted(Some(id)), ToolCompleted(Some(id))]
    {
      var callId := "query-" + view.key;
      var answer: Answer := *;
      answered := answer;
      var err;
      err, t, id := TellStart(sink, callId, trail);
      if err.Some? {
        return Failure(err.value), t, id, answered;
      }
      match answer
      case Unavailable(code) => return Failure(code), t, id, answered;
      case Answer(valid, queryOk, data) =>
        if !valid {
          return Failure(SchemaValidationFailed), t, id, answered;
        }
        err, t := TellDone(sink, callId, t);
        if err.Some? {
          return Failure(err.value), t, id, answered;
        }
        assert sink.openCalls.Keys == {};
        return Success(W.Proposal(view.title, view.unit, queryOk, data)), t, id, answered;
    }
  }

  lemma OneMoreDrawn(proposals: seq<W.Proposal>, answers: seq<Answer>, p: W.Proposal, view: View, a: Answer)
    requires DrawnFrom(proposals, answers) && Draws(p, view, a)
    ensures DrawnFrom(proposals + [p], answers + [a])
  {
  }

  lemma OneMorePair(opening: seq<Payload>, ids: seq<Id>, id: Id)
    ensures opening + Pairs(ids) + [ToolStarted(Some(id)), ToolCompleted(Some(id))] == opening + Pairs(ids + [id])
  {
    PairsAppend(ids, id);
  }

  lemma OneMoreView(views: seq<string>, i: nat, proposals: seq<W.Proposal>, p: W.Proposal)
    requires i < |views| && OnePerView(views[..i], proposals) && ViewForKey(views[i]).Some?
    requires p.title == ViewForKey(views[i]).value.title && p.unit == ViewForKey(views[i]).value.unit
    ensures OnePerView(views[..i + 1], proposals + [p])
  {
  }

  ghost predicate OnePerView(views: seq<string>, proposals: seq<W.Proposal>) {
    && |proposals| == |views|
    && forall i :: 0 <= i < |views| ==>
         && ViewForKey(views[i]).Some?
         && proposals[i].title == ViewForKey(views[i]).value.title
         && proposals[i].unit == ViewForKey(views[i]).value.unit
  }
}
