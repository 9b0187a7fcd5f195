/** What task events do to the session: the runtime counts on, the status follows the log, and a task
    that is over is no longer active. */
module SessionEvents {
  import opened Basics
  import opened TaskLifecycle
  import opened EventLog
  import opened ClientView
  import opened SessionReducer
  import opened PageLoading
  import opened ViewMeaning
  import opened Ordering

  /** The status a client shows after this much of the log: the one reported last, or, while none has
      been, the one it showed before. */
  ghost predicate Follows(status: Status, log: Log, before: Status) {
    && (NoReport(log) ==> status == before)
    && (forall k :: LastReport(log, k) ==> Some(status) == StatusIn(log[k].body))
  }

  /** Nothing but the task `t` and its runtime, and whether it is active, has changed. */
  ghost predicate OnlyTask(s: SessionState, s': SessionState, t: Id)
    requires t in s.tasksById && t in s'.tasksById && t in s'.runtimeByTaskId
  {
    && s' == s.(tasksById := s'.tasksById, runtimeByTaskId := s'.runtimeByTaskId, activeTaskId := s'.activeTaskId)
    && s'.tasksById == s.tasksById[t := s.tasksById[t].(status := s'.tasksById[t].status)]
    && s'.runtimeByTaskId == s.runtimeByTaskId[t := s'.runtimeByTaskId[t]]
  }

  lemma NextIsCounted(log: Log, n: nat)
    requires Gapless(log) && n < |log|
    ensures Reduce(Fold(log[..n]), log[n]) == Fold(log[..n + 1])
    ensures Fold(log[..n]).latestSequence == n && Fold(log[..n + 1]).latestSequence == n + 1
  {
    FoldCounts(log[..n]);
    FoldCounts(log[..n + 1]);
    assert log[..n + 1] == log[..n] + [log[n]];
    FoldAppend(log[..n], log[n]);
  }

  lemma AcceptedEventApplies(s: SessionState, session: Id, t: Id, e: Event, runtime: View)
    requires Ordered(s) && s.sessionId == Some(session) && t in s.tasksById && t in s.runtimeByTaskId
    requires Reduce(s.runtimeByTaskId[t], e) == runtime && runtime.latestSequence != s.runtimeByTaskId[t].latestSequence
    ensures var s' := Next(s, TaskEvent(session, t, e));
            && t in s'.tasksById && t in s'.runtimeByTaskId && OnlyTask(s, s', t)
            && s'.runtimeByTaskId[t] == runtime
            && s'.tasksById[t].status
               == StatusFrom(e.body, if runtime.taskStatus.Some? then runtime.taskStatus.value else s.tasksById[t].status)
            && s'.activeTaskId == (if s.activeTaskId == Some(t) && Terminal(s'.tasksById[t].status) then None else s.activeTaskId)
  {
    assert s.tasksById[t := s.tasksById[t]] == s.tasksById;
  }

  /** The event after those counted moves the task's runtime on by that event, gives the task the status
      its log tells by then, and takes it out of the active place exactly if that is a final one. */
  lemma NextEventAdvances(s: SessionState, session: Id, t: Id, log: Log, n: nat)
    requires Ordered(s) && s.sessionId == Some(session) && t in s.tasksById
    requires Gapless(log) && n < |log| && t in s.runtimeByTaskId && s.runtimeByTaskId[t] == Fold(log[..n])
    ensures var s' := Next(s, TaskEvent(session, t, log[n]));
            && t in s'.tasksById && t in s'.runtimeByTaskId && OnlyTask(s, s', t)
            && s'.runtimeByTaskId[t] == Fold(log[..n + 1]) && s'.runtimeByTaskId[t].latestSequence == n + 1
            && Follows(s'.tasksById[t].status, log[..n + 1], s.tasksById[t].status)
            && s'.activeTaskId == (if s.activeTaskId == Some(t) && Terminal(s'.tasksById[t].status) then None else s.activeTaskId)
  {
    NextIsCounted(log, n);
    AcceptedEventApplies(s, session, t, log[n], Fold(log[..n + 1]));
    FoldMeans(log[..n + 1], "");
    StatusIsFollowed(Fold(log[..n + 1]).taskStatus, log[..n + 1], log[n], s.tasksById[t].status);
  }

  lemma StatusIsFollowed(shown: Option<Status>, log: Log, last: Event, before: Status)
    requires |log| > 0 && log[|log| - 1] == last && StatusIs(shown, log)
    ensures Follows(StatusFrom(last.body, if shown.Some? then shown.value else before), log, before)
  {
    if StatusIn(last.body).Some? {
      assert LastReport(log, |log| - 1);
    }
  }

  /** Any other event of the task, already counted or ahead of the count, changes nothing. */
  lemma OtherEventsAreDropped(s: SessionState, session: Id, t: Id, e: Event)
    requires Ordered(s) && t in s.runtimeByTaskId && e.sequence != s.runtimeByTaskId[t].latestSequence + 1
    ensures Next(s, TaskEvent(session, t, e)) == s
  {
  }

  /** Events of tasks the session does not know are dropped too. */
  lemma UnknownTasksAreDropped(s: SessionState, session: Id, t: Id, e: Event)
    requires Ordered(s) && t !in s.tasksById
    ensures Next(s, TaskEvent(session, t, e)) == s
  {
  }

  // --------------------------------------------------------------- the other actions

  /** A created task replaces what was known of it, becomes the active one, and has a runtime. */
  lemma CreatedTaskIsActive(s: SessionState, session: Id, task: ClientTask)
    requires Ordered(s) && s.sessionId == Some(session) && task.sessionId == session
    ensures var s' := Next(s, TaskWasCreated(session, task));
            && s'.tasksById == s.tasksById[task.id := task] && s'.activeTaskId == Some(task.id)
            && task.id in s'.runtimeByTaskId
            && (forall t :: t in s'.runtimeByTaskId <==> t in s.runtimeByTaskId || t == task.id)
            && (forall t :: t in s'.runtimeByTaskId ==>
                  s'.runtimeByTaskId[t] == if t in s.runtimeByTaskId then s.runtimeByTaskId[t] else INITIAL_VIEW)
            && s' == s.(tasksById := s'.tasksById, taskOrder := s'.taskOrder, activeTaskId := s'.activeTaskId,
                        runtimeByTaskId := s'.runtimeByTaskId)
  {
    RuntimesCover(s.runtimeByTaskId, OrderTasks(s.tasksById[task.id := task]));
  }

  /** A finished replay is remembered and changes nothing else; a selected session starts with nothing. */
  lemma MarksAndSelections(s: SessionState, session: Id, t: Id, selected: Option<Id>)
    requires Ordered(s) && s.sessionId == Some(session)
    ensures Next(s, TaskReplayed(session, t)) == s.(replayedTaskIds := s.replayedTaskIds + {t})
    ensures var chosen := Next(s, SessionSelected(selected));
            && chosen.sessionId == selected && chosen.messagesById == map[] && chosen.messageOrder == []
            && chosen.tasksById == map[] && chosen.taskOrder == [] && chosen.runtimeByTaskId == map[]
            && chosen.replayedTaskIds == {} && chosen.activeTaskId == None
            && chosen.messageNextPageToken == None && chosen.taskNextPageToken == None
  {
  }

  /** A loaded page leaves its tokens, keeps every runtime, and gives the new tasks one. */
  lemma LoadedPageLeaves(s: SessionState, session: Id, page: History, messageToken: Option<string>, taskToken: Option<string>)
    requires Ordered(s) && s.sessionId == Some(session)
    ensures var s' := Next(s, HistoryLoaded(session, page, messageToken, taskToken));
            && s'.messageNextPageToken == messageToken && s'.taskNextPageToken == taskToken
            && s'.sessionId == s.sessionId && s'.replayedTaskIds == s.replayedTaskIds
            && (forall t :: t in s'.runtimeByTaskId <==> t in s.runtimeByTaskId || t in s'.tasksById)
            && (forall t :: t in s'.runtimeByTaskId ==>
                  s'.runtimeByTaskId[t] == if t in s.runtimeByTaskId then s.runtimeByTaskId[t] else INITIAL_VIEW)
  {
    AddTasksKeyed(s.tasksById, page.tasks, s.activeTaskId);
    RuntimesCover(s.runtimeByTaskId, OrderTasks(AddTasks(s.tasksById, page.tasks, s.activeTaskId)));
  }

  /** The task in progress that comes last by creation time and id, if any is in progress. */
  ghost predicate NewestInProgress(active: Option<Id>, tasks: map<Id, ClientTask>) {
    match active
    case None => forall t :: t in tasks ==> Terminal(tasks[t].status)
    case Some(a) =>
      && a in tasks && !Terminal(tasks[a].status)
      && forall t :: t in tasks && t != a && !Terminal(tasks[t].status) ==> Before(TaskKey(tasks[t]), TaskKey(tasks[a]))
  }

  lemma {:induction false} FirstIsNewestInProgress(tasks: map<Id, ClientTask>, order: seq<Id>)
    requires forall t :: t in order ==> t in tasks
    requires forall i, j :: 0 <= i < j < |order| ==> Before(TaskKey(tasks[order[j]]), TaskKey(tasks[order[i]]))
    ensures match FirstUnfinished(tasks, order)
            case None => forall t :: t in order ==> Terminal(tasks[t].status)
            case Some(a) =>
              && a in order && !Terminal(tasks[a].status)
              && forall t :: t in order && t != a && !Terminal(tasks[t].status) ==> Before(TaskKey(tasks[t]), TaskKey(tasks[a]))
  {
    if |order| > 0 {
      assert order == [order[0]] + order[1..];
      if Terminal(tasks[order[0]].status) {
        FirstIsNewestInProgress(tasks, order[1..]);
      }
    }
  }

  ghost predicate LastMessage(messages: seq<Message>, id: Id, k: int) {
    0 <= k < |messages| && messages[k].id == id && forall i :: k < i < |messages| ==> messages[i].id != id
  }

  ghost predicate LastTask(tasks: seq<ClientTask>, id: Id, k: int) {
    0 <= k < |tasks| && tasks[k].id == id && forall i :: k < i < |tasks| ==> tasks[i].id != id
  }

  /** The last row the page has of this id replaces what was known of it; without one that stands. */
  ghost predicate TakesMessage(known: map<Id, Message>, known': map<Id, Message>, messages: seq<Message>, id: Id) {
    && ((forall k :: 0 <= k < |messages| ==> messages[k].id != id) ==>
          (id in known' <==> id in known) && (id in known ==> known'[id] == known[id]))
    && (forall k :: LastMessage(messages, id, k) ==> id in known' && known'[id] == messages[k])
  }

  ghost predicate TakesTask(known: map<Id, ClientTask>, known': map<Id, ClientTask>, tasks: seq<ClientTask>, id: Id) {
    && ((forall k :: 0 <= k < |tasks| ==> tasks[k].id != id) ==>
          (id in known' <==> id in known) && (id in known ==> known'[id] == known[id]))
    && (forall k :: LastTask(tasks, id, k) ==> id in known' && known'[id] == tasks[k])
  }

  lemma {:induction false} MessageTakenOver(known: map<Id, Message>, messages: seq<Message>, id: Id)
    ensures TakesMessage(known, AddMessages(known, messages), messages, id)
  {
    if |messages| > 0 {
      var pre := messages[..|messages| - 1];
      MessageTakenOver(known, pre, id);
      forall k | LastMessage(messages, id, k)
        ensures id in AddMessages(known, messages) && AddMessages(known, messages)[id] == messages[k]
      {
        if k < |pre| {
          assert LastMessage(pre, id, k);
        }
      }
    }
  }

  lemma {:induction false} TaskTakenOver(known: map<Id, ClientTask>, tasks: seq<ClientTask>, active: Option<Id>, id: Id)
    requires active != Some(id)
    ensures TakesTask(known, AddTasks(known, tasks, active), tasks, id)
  {
    if |tasks| > 0 {
      var pre := tasks[..|tasks| - 1];
      TaskTakenOver(known, pre, active, id);
      forall k | LastTask(tasks, id, k)
        ensures id in AddTasks(known, tasks, active) && AddTasks(known, tasks, active)[id] == tasks[k]
      {
        if k < |pre| {
          assert LastTask(pre, id, k);
        }
      }
    }
  }

  lemma {:induction false} ActiveTaskStands(known: map<Id, ClientTask>, tasks: seq<ClientTask>, id: Id)
    requires id in known && !Terminal(known[id].status)
    ensures id in AddTasks(known, tasks, Some(id)) && AddTasks(known, tasks, Some(id))[id] == known[id]
  {
    if |tasks| > 0 {
      ActiveTaskStands(known, tasks[..|tasks| - 1], id);
    }
  }

  /** What a page brings, row by row: its last row of an id replaces what was known of it, except that the
      active task stays as it is known; and the newest task in progress becomes the active one. */
  lemma LoadedPageBrings(s: SessionState, session: Id, page: History, messageToken: Option<string>, taskToken: Option<string>, id: Id)
    requires Ordered(s) && ActiveOpen(s) && s.sessionId == Some(session)
    ensures var s' := Next(s, HistoryLoaded(session, page, messageToken, taskToken));
            && TakesMessage(s.messagesById, s'.messagesById, page.messages, id)
            && (if s.activeTaskId == Some(id) then id in s'.tasksById && s'.tasksById[id] == s.tasksById[id]
                else TakesTask(s.tasksById, s'.tasksById, page.tasks, id))
            && NewestInProgress(s'.activeTaskId, s'.tasksById)
  {
    MessageTakenOver(s.messagesById, page.messages, id);
    if s.activeTaskId == Some(id) {
      ActiveTaskStands(s.tasksById, page.tasks, id);
    } else {
      TaskTakenOver(s.tasksById, page.tasks, s.activeTaskId, id);
    }
    AddTasksKeyed(s.tasksById, page.tasks, s.activeTaskId);
    NewestIsActive(AddTasks(s.tasksById, page.tasks, s.activeTaskId));
  }

  lemma NewestIsActive(tasks: map<Id, ClientTask>)
    requires forall t :: t in tasks ==> tasks[t].id == t
    ensures NewestInProgress(FirstUnfinished(tasks, OrderTasks(tasks)), tasks)
  {
    FirstIsNewestInProgress(tasks, OrderTasks(tasks));
  }

  // ------------------------------------------------------------- a task followed for long

  /** The events of `t` among the actions, in order. */
  ghost function EventsOf(actions: seq<Action>, session: Id, t: Id): seq<Event> {
    if |actions| == 0 then []
    else
      var a := actions[|actions| - 1];
      EventsOf(actions[..|actions| - 1], session, t)
        + if a.TaskEvent? && a.eventSession == session && a.taskId == t then [a.event] else []
  }

  /** The action does not put `t` itself into the session, nor leave the session. */
  ghost predicate Leaves(a: Action, session: Id, t: Id) {
    !a.SessionSelected? && forall u :: InstallsTask(a, session, u) ==> u.id != t
  }

  /** Where `t` stands after its events `events`, taken up with status `before` and an empty runtime. */
  ghost predicate Standing(s: SessionState, session: Id, t: Id, events: seq<Event>, log: Log, before: Status) {
    && s.sessionId == Some(session) && t in s.tasksById && t in s.runtimeByTaskId
    && s.runtimeByTaskId[t] == Deliver(INITIAL_VIEW, events) && IsPrefixFold(s.runtimeByTaskId[t], log)
    && Follows(s.tasksById[t].status, log[..s.runtimeByTaskId[t].latestSequence], before)
  }

  lemma FollowsOn(status: Status, log: Log, n: nat, mid: Status, before: Status)
    requires n < |log| && Follows(mid, log[..n], before) && Follows(status, log[..n + 1], mid)
    ensures Follows(status, log[..n + 1], before)
  {
    if NoReport(log[..n + 1]) {
      forall i | 0 <= i < |log[..n]| ensures StatusIn(log[..n][i].body).None? {
        assert log[..n][i] == log[..n + 1][i];
      }
    }
  }

  lemma OwnEventStands(s: SessionState, session: Id, t: Id, events: seq<Event>, log: Log, before: Status, e: Event)
    requires Ordered(s) && Gapless(log) && e in log && Standing(s, session, t, events, log, before)
    ensures Standing(Next(s, TaskEvent(session, t, e)), session, t, events + [e], log, before)
  {
    var n := s.runtimeByTaskId[t].latestSequence;
    if e.sequence == n + 1 {
      var i :| 0 <= i < |log| && log[i] == e;
      NextEventAdvances(s, session, t, log, n);
      DeliverOne(events, e);
      FollowsOn(Next(s, TaskEvent(session, t, e)).tasksById[t].status, log, n, s.tasksById[t].status, before);
      ReduceStaysPrefix(s.runtimeByTaskId[t], log, e);
    } else {
      OtherEventsAreDropped(s, session, t, e);
      DeliverOne(events, e);
    }
  }

  lemma DeliverOne(events: seq<Event>, e: Event)
    ensures Deliver(INITIAL_VIEW, events + [e]) == Reduce(Deliver(INITIAL_VIEW, events), e)
  {
    assert (events + [e])[..|events|] == events;
  }

  lemma {:induction false} UntouchedByPage(known: map<Id, ClientTask>, page: seq<ClientTask>, active: Option<Id>, t: Id)
    requires t in known && forall u :: u in page ==> u.id != t
    ensures t in AddTasks(known, page, active) && AddTasks(known, page, active)[t] == known[t]
  {
    if |page| > 0 {
      UntouchedByPage(known, page[..|page| - 1], active, t);
    }
  }

  /** Actions about anything else leave the task and its runtime where they stand. */
  lemma OthersLeaveTask(s: SessionState, session: Id, t: Id, a: Action)
    requires Ordered(s) && s.sessionId == Some(session) && t in s.tasksById && t in s.runtimeByTaskId
    requires Leaves(a, session, t) && !(a.TaskEvent? && a.eventSession == session && a.taskId == t)
    ensures var s' := Next(s, a);
            && s'.sessionId == Some(session) && t in s'.tasksById && s'.tasksById[t] == s.tasksById[t]
            && t in s'.runtimeByTaskId && s'.runtimeByTaskId[t] == s.runtimeByTaskId[t]
  {
    match a
    case HistoryLoaded(id, page, messageToken, taskToken) =>
      if id == session {
        forall u | u in page.tasks ensures u.id != t {
          assert InstallsTask(a, session, u);
        }
        LoadedPageLeaves(s, session, page, messageToken, taskToken);
        AddTasksKeyed(s.tasksById, page.tasks, s.activeTaskId);
        UntouchedByPage(s.tasksById, page.tasks, s.activeTaskId, t);
      }
    case TaskWasCreated(id, task) =>
      if id == session && task.sessionId == session {
        assert InstallsTask(a, session, task);
        CreatedTaskIsActive(s, session, task);
      }
    case _ =>
  }

  lemma OneActionStands(s: SessionState, session: Id, t: Id, events: seq<Event>, log: Log, before: Status, a: Action)
    requires Ordered(s) && Gapless(log) && Leaves(a, session, t) && Standing(s, session, t, events, log, before)
    requires a.TaskEvent? && a.eventSession == session && a.taskId == t ==> a.event in log
    ensures Standing(Next(s, a), session, t,
                     events + if a.TaskEvent? && a.eventSession == session && a.taskId == t then [a.event] else [], log, before)
  {
    if a.TaskEvent? && a.eventSession == session && a.taskId == t {
      OwnEventStands(s, session, t, events, log, before, a.event);
    } else {
      OthersLeaveTask(s, session, t, a);
      assert events + [] == events;
    }
  }

  /** From a task just taken up, over any actions that do not put it in again: its runtime is what its own
      events make of an empty one, and its status is the one its log tells as far as they reach. */
  lemma {:induction false} TaskFollowsItsEvents(s: SessionState, actions: seq<Action>, session: Id, t: Id, log: Log)
    requires Ordered(s) && s.sessionId == Some(session) && Gapless(log)
    requires t in s.tasksById && t in s.runtimeByTaskId && s.runtimeByTaskId[t] == INITIAL_VIEW
    requires forall a :: a in actions ==> Leaves(a, session, t)
    requires forall a :: a in actions && a.TaskEvent? && a.eventSession == session && a.taskId == t ==> a.event in log
    ensures Standing(After(s, actions), session, t, EventsOf(actions, session, t), log, s.tasksById[t].status)
  {
    if |actions| == 0 {
      assert log[..0] == [];
    } else {
      var pre, a := actions[..|actions| - 1], actions[|actions| - 1];
      TaskFollowsItsEvents(s, pre, session, t, log);
      OneActionStands(After(s, pre), session, t, EventsOf(pre, session, t), log, s.tasksById[t].status, a);
    }
  }

  lemma {:induction false} EventsAreFromLog(actions: seq<Action>, session: Id, t: Id, log: Log)
    requires forall a :: a in actions && a.TaskEvent? && a.eventSession == session && a.taskId == t ==> a.event in log
    ensures forall e :: e in EventsOf(actions, session, t) ==> e in log
  {
    if |actions| > 0 {
      EventsAreFromLog(actions[..|actions| - 1], session, t, log);
    }
  }

  /** If the events reach the whole log in order, however repeated and strewn with others, the task ends
      as the whole log says, with the view of the whole log; and once that status is final the task is
      not the active one. */
  lemma FollowedTaskIsItsLog(s: SessionState, actions: seq<Action>, session: Id, t: Id, log: Log)
    requires Ordered(s) && s.sessionId == Some(session) && Gapless(log)
    requires t in s.tasksById && t in s.runtimeByTaskId && s.runtimeByTaskId[t] == INITIAL_VIEW
    requires forall a :: a in actions ==> Leaves(a, session, t)
    requires forall a :: a in actions && a.TaskEvent? && a.eventSession == session && a.taskId == t ==> a.event in log
    requires Covers(log, EventsOf(actions, session, t), |log|)
    requires ActiveOpen(s) && forall a :: a in actions && a.TaskWasCreated? ==> !Terminal(a.task.status)
    ensures var s' := After(s, actions);
            && t in s'.tasksById && t in s'.runtimeByTaskId && s'.runtimeByTaskId[t] == Fold(log)
            && Follows(s'.tasksById[t].status, log, s.tasksById[t].status)
            && (Terminal(s'.tasksById[t].status) ==> s'.activeTaskId != Some(t))
  {
    TaskFollowsItsEvents(s, actions, session, t, log);
    EventsAreFromLog(actions, session, t, log);
    CoveringDeliveryCatchesUp(log, EventsOf(actions, session, t), |log|);
    ActiveTaskIsOpen(s, actions);
    assert log[..|log|] == log;
  }
}
