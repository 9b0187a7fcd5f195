/** History pages arriving in one order or another: what never depends on it, and what does. */
module PageLoading {
  import opened Basics
  import opened TaskLifecycle
  import opened EventLog
  import opened ClientView
  import opened Ordering
  import opened SessionReducer

  lemma AfterOneMore(s: SessionState, actions: seq<Action>, a: Action)
    requires Ordered(s)
    ensures After(s, actions + [a]) == Next(After(s, actions), a)
  {
    assert (actions + [a])[..|actions|] == actions;
  }

  lemma {:induction false} AfterInTwo(s: SessionState, actions: seq<Action>, more: seq<Action>)
    requires Ordered(s)
    ensures After(s, actions + more) == After(After(s, actions), more)
  {
    if |more| == 0 {
      assert actions + more == actions;
    } else {
      AfterInTwo(s, actions, more[..|more| - 1]);
      assert (actions + more)[..|actions + more| - 1] == actions + more[..|more| - 1];
    }
  }

  // ------------------------------------------------- the orders, over all action sequences

  /** The action puts this row into the session: a loaded one, or a created one. */
  ghost predicate InstallsTask(a: Action, session: Id, t: ClientTask) {
    match a
    case HistoryLoaded(id, page, _, _) => id == session && t in page.tasks
    case TaskWasCreated(id, task) => id == session && task.sessionId == session && t == task
    case _ => false
  }

  ghost predicate InstallsMessage(a: Action, session: Id, m: Message) {
    a.HistoryLoaded? && a.sessionId == session && m in a.page.messages
  }

  ghost predicate TaskArrives(actions: seq<Action>, session: Id, id: Id) {
    exists a, t :: a in actions && InstallsTask(a, session, t) && t.id == id
  }

  ghost predicate MessageArrives(actions: seq<Action>, session: Id, id: Id) {
    exists a, m :: a in actions && InstallsMessage(a, session, m) && m.id == id
  }

  /** All that is known and all that arrives agrees on when each row was created. */
  ghost predicate TimesAgree(s: SessionState, actions: seq<Action>, session: Id, born: Id -> int, sent: Id -> int) {
    && (forall id :: id in s.tasksById ==> s.tasksById[id].createdAt == born(id))
    && (forall id :: id in s.messagesById ==> s.messagesById[id].createdAt == sent(id))
    && (forall a, t :: a in actions && InstallsTask(a, session, t) ==> t.createdAt == born(t.id))
    && (forall a, m :: a in actions && InstallsMessage(a, session, m) ==> m.createdAt == sent(m.id))
  }

  lemma {:induction false} AddTasksRows(known: map<Id, ClientTask>, tasks: seq<ClientTask>, active: Option<Id>, born: Id -> int)
    requires forall id :: id in known ==> known[id].createdAt == born(id)
    requires forall t :: t in tasks ==> t.createdAt == born(t.id)
    ensures var r := AddTasks(known, tasks, active);
            && (forall id :: id in r ==> r[id].createdAt == born(id))
            && (forall id :: id in r <==> id in known || exists t :: t in tasks && t.id == id)
  {
    if |tasks| > 0 {
      var pre, t := tasks[..|tasks| - 1], tasks[|tasks| - 1];
      assert tasks == pre + [t];
      assert forall u :: u in tasks <==> u in pre || u == t;
      AddTasksRows(known, pre, active, born);
    }
  }

  lemma {:induction false} AddMessagesRows(known: map<Id, Message>, messages: seq<Message>, sent: Id -> int)
    requires forall id :: id in known ==> known[id].createdAt == sent(id)
    requires forall m :: m in messages ==> m.createdAt == sent(m.id)
    ensures var r := AddMessages(known, messages);
            && (forall id :: id in r ==> r[id].createdAt == sent(id))
            && (forall id :: id in r <==> id in known || exists m :: m in messages && m.id == id)
  {
    if |messages| > 0 {
      var pre, m := messages[..|messages| - 1], messages[|messages| - 1];
      assert messages == pre + [m];
      assert forall u :: u in messages <==> u in pre || u == m;
      AddMessagesRows(known, pre, sent);
    }
  }

  ghost predicate TasksAdded(s: SessionState, a: Action, s': SessionState, session: Id, born: Id -> int) {
    && (forall id :: id in s'.tasksById ==> s'.tasksById[id].createdAt == born(id))
    && (forall id :: id in s'.tasksById <==> id in s.tasksById || TaskArrives([a], session, id))
  }

  ghost predicate MessagesAdded(s: SessionState, a: Action, s': SessionState, session: Id, sent: Id -> int) {
    && (forall id :: id in s'.messagesById ==> s'.messagesById[id].createdAt == sent(id))
    && (forall id :: id in s'.messagesById <==> id in s.messagesById || MessageArrives([a], session, id))
  }

  lemma OneArrival(a: Action, session: Id, id: Id)
    ensures TaskArrives([a], session, id) <==> exists t :: InstallsTask(a, session, t) && t.id == id
    ensures MessageArrives([a], session, id) <==> exists m :: InstallsMessage(a, session, m) && m.id == id
  {
    assert a in [a];
  }

  lemma LoadAddsTasks(s: SessionState, a: Action, session: Id, born: Id -> int, sent: Id -> int)
    requires Ordered(s) && s.sessionId == Some(session) && a.HistoryLoaded? && a.sessionId == session
    requires TimesAgree(s, [a], session, born, sent)
    ensures TasksAdded(s, a, Next(s, a), session, born)
  {
    assert a in [a];
    forall t | t in a.page.tasks ensures t.createdAt == born(t.id) {
      assert InstallsTask(a, session, t);
    }
    AddTasksRows(s.tasksById, a.page.tasks, s.activeTaskId, born);
    forall id ensures TaskArrives([a], session, id) <==> exists t :: t in a.page.tasks && t.id == id {
      OneArrival(a, session, id);
      assert forall t :: t in a.page.tasks <==> InstallsTask(a, session, t);
    }
  }

  lemma LoadAddsMessages(s: SessionState, a: Action, session: Id, born: Id -> int, sent: Id -> int)
    requires Ordered(s) && s.sessionId == Some(session) && a.HistoryLoaded? && a.sessionId == session
    requires TimesAgree(s, [a], session, born, sent)
    ensures MessagesAdded(s, a, Next(s, a), session, sent)
  {
    assert a in [a];
    forall m | m in a.page.messages ensures m.createdAt == sent(m.id) {
      assert InstallsMessage(a, session, m);
    }
    AddMessagesRows(s.messagesById, a.page.messages, sent);
    forall id ensures MessageArrives([a], session, id) <==> exists m :: m in a.page.messages && m.id == id {
      OneArrival(a, session, id);
      assert forall m :: m in a.page.messages <==> InstallsMessage(a, session, m);
    }
  }

  lemma OthersAddTasks(s: SessionState, a: Action, session: Id, born: Id -> int, sent: Id -> int)
    requires Ordered(s) && s.sessionId == Some(session) && !a.SessionSelected? && !(a.HistoryLoaded? && a.sessionId == session)
    requires TimesAgree(s, [a], session, born, sent)
    ensures TasksAdded(s, a, Next(s, a), session, born)
  {
    assert a in [a];
    forall id ensures TaskArrives([a], session, id) <==> exists t :: InstallsTask(a, session, t) && t.id == id {
      OneArrival(a, session, id);
    }
    match a
    case TaskWasCreated(id, task) => if id == session && task.sessionId == session { assert InstallsTask(a, session, task); }
    case _ =>
  }

  lemma OthersAddMessages(s: SessionState, a: Action, session: Id, born: Id -> int, sent: Id -> int)
    requires Ordered(s) && s.sessionId == Some(session) && !a.SessionSelected? && !(a.HistoryLoaded? && a.sessionId == session)
    requires TimesAgree(s, [a], session, born, sent)
    ensures MessagesAdded(s, a, Next(s, a), session, sent) && Next(s, a).messagesById == s.messagesById
  {
    forall id ensures !MessageArrives([a], session, id) {
      OneArrival(a, session, id);
    }
  }

  /** One action adds the rows it installs, changes no creation time, and loses nothing. */
  lemma NextRows(s: SessionState, a: Action, session: Id, born: Id -> int, sent: Id -> int)
    requires Ordered(s) && s.sessionId == Some(session) && !a.SessionSelected? && TimesAgree(s, [a], session, born, sent)
    ensures Next(s, a).sessionId == Some(session)
    ensures TasksAdded(s, a, Next(s, a), session, born) && MessagesAdded(s, a, Next(s, a), session, sent)
  {
    if a.HistoryLoaded? && a.sessionId == session {
      LoadAddsTasks(s, a, session, born, sent);
      LoadAddsMessages(s, a, session, born, sent);
    } else {
      OthersAddTasks(s, a, session, born, sent);
      OthersAddMessages(s, a, session, born, sent);
    }
  }

  lemma ArrivalsAdd(pre: seq<Action>, a: Action, session: Id, id: Id)
    ensures TaskArrives(pre + [a], session, id) <==> TaskArrives(pre, session, id) || TaskArrives([a], session, id)
    ensures MessageArrives(pre + [a], session, id) <==> MessageArrives(pre, session, id) || MessageArrives([a], session, id)
  {
    assert forall b :: b in pre + [a] <==> b in pre || b in [a];
  }

  /** The rows there are after a list of actions: those known, and those that arrived. */
  ghost predicate RowsAfter(s: SessionState, actions: seq<Action>, s': SessionState, session: Id, born: Id -> int, sent: Id -> int) {
    && s'.sessionId == Some(session)
    && (forall id :: id in s'.tasksById ==> s'.tasksById[id].createdAt == born(id))
    && (forall id :: id in s'.messagesById ==> s'.messagesById[id].createdAt == sent(id))
    && (forall id :: id in s'.tasksById <==> id in s.tasksById || TaskArrives(actions, session, id))
    && (forall id :: id in s'.messagesById <==> id in s.messagesById || MessageArrives(actions, session, id))
  }

  lemma RowsGoOn(s: SessionState, pre: seq<Action>, a: Action, mid: SessionState, s': SessionState, session: Id, born: Id -> int, sent: Id -> int)
    requires RowsAfter(s, pre, mid, session, born, sent) && s'.sessionId == Some(session)
    requires TasksAdded(mid, a, s', session, born) && MessagesAdded(mid, a, s', session, sent)
    ensures RowsAfter(s, pre + [a], s', session, born, sent)
  {
    forall id
      ensures TaskArrives(pre + [a], session, id) <==> TaskArrives(pre, session, id) || TaskArrives([a], session, id)
      ensures MessageArrives(pre + [a], session, id) <==> MessageArrives(pre, session, id) || MessageArrives([a], session, id)
    {
      ArrivalsAdd(pre, a, session, id);
    }
  }

  lemma TimesAgreeParts(s: SessionState, pre: seq<Action>, a: Action, mid: SessionState, session: Id, born: Id -> int, sent: Id -> int)
    requires TimesAgree(s, pre + [a], session, born, sent)
    ensures TimesAgree(s, pre, session, born, sent)
    ensures RowsAfter(s, pre, mid, session, born, sent) ==> TimesAgree(mid, [a], session, born, sent)
  {
    assert forall b :: b in pre + [a] <==> b in pre || b in [a];
  }

  lemma {:induction false} RowsAreKnownOrArrived(s: SessionState, actions: seq<Action>, session: Id, born: Id -> int, sent: Id -> int)
    requires Ordered(s) && s.sessionId == Some(session) && TimesAgree(s, actions, session, born, sent)
    requires forall a :: a in actions ==> !a.SessionSelected?
    ensures RowsAfter(s, actions, After(s, actions), session, born, sent)
  {
    if |actions| > 0 {
      var pre, a := actions[..|actions| - 1], actions[|actions| - 1];
      assert actions == pre + [a];
      TimesAgreeParts(s, pre, a, After(s, pre), session, born, sent);
      RowsAreKnownOrArrived(s, pre, session, born, sent);
      NextRows(After(s, pre), a, session, born, sent);
      RowsGoOn(s, pre, a, After(s, pre), After(s, actions), session, born, sent);
    }
  }

  lemma SameRowsSameOrder(a: SessionState, b: SessionState, born: Id -> int, sent: Id -> int)
    requires Ordered(a) && Ordered(b)
    requires (forall id :: id in a.tasksById <==> id in b.tasksById) && (forall id :: id in a.messagesById <==> id in b.messagesById)
    requires forall id :: id in a.tasksById ==> a.tasksById[id].createdAt == born(id) == b.tasksById[id].createdAt
    requires forall id :: id in a.messagesById ==> a.messagesById[id].createdAt == sent(id) == b.messagesById[id].createdAt
    ensures a.taskOrder == b.taskOrder && a.messageOrder == b.messageOrder
  {
    TasksOrderedAlike(b.taskOrder, b.tasksById, a.tasksById);
    TaskOrderUnique(a.taskOrder, b.taskOrder, a.tasksById);
    MessagesOrderedAlike(b.messageOrder, b.messagesById, a.messagesById);
    MessageOrderUnique(a.messageOrder, b.messageOrder, a.messagesById);
  }

  lemma TasksOrderedAlike(order: seq<Id>, one: map<Id, ClientTask>, other: map<Id, ClientTask>)
    requires NewestFirst(order, one) && forall id :: id in one <==> id in other
    requires forall id :: id in one ==> TaskKey(one[id]) == TaskKey(other[id])
    ensures NewestFirst(order, other)
  {
    forall i, j | 0 <= i < j < |order| ensures Before(TaskKey(other[order[j]]), TaskKey(other[order[i]])) {
      assert order[i] in order && order[j] in order;
    }
  }

  lemma MessagesOrderedAlike(order: seq<Id>, one: map<Id, Message>, other: map<Id, Message>)
    requires OldestFirst(order, one) && forall id :: id in one <==> id in other
    requires forall id :: id in one ==> MessageKey(one[id]) == MessageKey(other[id])
    ensures OldestFirst(order, other)
  {
    forall i, j | 0 <= i < j < |order| ensures Before(MessageKey(other[order[i]]), MessageKey(other[order[j]])) {
      assert order[i] in order && order[j] in order;
    }
  }

  /** The orders do not depend on arrival: from any state, two lists of actions that bring the same rows,
      in whatever order and pages, and with whatever created tasks, events and replays between them,
      leave the same task order and the same message order. */
  lemma OrdersDoNotDependOnArrival(s: SessionState, one: seq<Action>, other: seq<Action>, session: Id, born: Id -> int, sent: Id -> int)
    requires Ordered(s) && s.sessionId == Some(session)
    requires TimesAgree(s, one, session, born, sent) && TimesAgree(s, other, session, born, sent)
    requires (forall a :: a in one ==> !a.SessionSelected?) && (forall a :: a in other ==> !a.SessionSelected?)
    requires forall id :: TaskArrives(one, session, id) <==> TaskArrives(other, session, id)
    requires forall id :: MessageArrives(one, session, id) <==> MessageArrives(other, session, id)
    ensures After(s, one).taskOrder == After(s, other).taskOrder && After(s, one).messageOrder == After(s, other).messageOrder
  {
    RowsAreKnownOrArrived(s, one, session, born, sent);
    RowsAreKnownOrArrived(s, other, session, born, sent);
    SameRowsSameOrder(After(s, one), After(s, other), born, sent);
  }
}
