/** Loading the same history rows in different pages and orders: exactly when it makes no difference. */
module PageConfluence {
  import opened Basics
  import opened TaskLifecycle
  import opened ClientView
  import opened Ordering
  import opened SessionReducer
  import opened PageLoading

  datatype PageLoad = PageLoad(page: History, messageToken: Option<string>, taskToken: Option<string>)

  function Load(session: Id, p: PageLoad): Action {
    HistoryLoaded(session, p.page, p.messageToken, p.taskToken)
  }

  function Loads(session: Id, pages: seq<PageLoad>): seq<Action> {
    seq(|pages|, i requires 0 <= i < |pages| => Load(session, pages[i]))
  }

  ghost function RowsIn(tasks: seq<ClientTask>): set<ClientTask> {
    set t | t in tasks
  }

  ghost function MessagesIn(messages: seq<Message>): set<Message> {
    set m | m in messages
  }

  ghost function RowsOf(pages: seq<PageLoad>): set<ClientTask> {
    if |pages| == 0 then {} else RowsOf(pages[..|pages| - 1]) + RowsIn(pages[|pages| - 1].page.tasks)
  }

  ghost function MessagesOf(pages: seq<PageLoad>): set<Message> {
    if |pages| == 0 then {} else MessagesOf(pages[..|pages| - 1]) + MessagesIn(pages[|pages| - 1].page.messages)
  }

  /** At least one page, and all of them together carry exactly these rows, however cut, ordered and repeated. */
  ghost predicate Carries(pages: seq<PageLoad>, rows: set<ClientTask>, messages: set<Message>) {
    |pages| > 0 && RowsOf(pages) == rows && MessagesOf(pages) == messages
  }

  /** The same but for the page tokens, which are those of the page loaded last. */
  ghost predicate SameSession(a: SessionState, b: SessionState) {
    a.(messageNextPageToken := None, taskNextPageToken := None) == b.(messageNextPageToken := None, taskNextPageToken := None)
  }

  /** The rows tell of each task and message once, and agree with the known tasks on creation times. */
  ghost predicate Consistent(s: SessionState, rows: set<ClientTask>, messages: set<Message>) {
    && (forall t, u :: t in rows && u in rows && t.id == u.id ==> t == u)
    && (forall m, n :: m in messages && n in messages && m.id == n.id ==> m == n)
    && (forall t :: t in rows && t.id in s.tasksById ==> t.createdAt == s.tasksById[t.id].createdAt)
  }

  // ---------------------------------------------------------------- the exact condition

  /** The newest known task in progress: what any load makes the active task. */
  ghost function NewestOpen(s: SessionState): Option<Id>
    requires Ordered(s)
  {
    FirstUnfinished(s.tasksById, s.taskOrder)
  }

  /** A known task in progress of which the rows tell otherwise. */
  ghost predicate Contested(s: SessionState, rows: set<ClientTask>, x: Id) {
    x in s.tasksById && !Terminal(s.tasksById[x].status) && exists t :: t in rows && t.id == x && t != s.tasksById[x]
  }

  /** `x` is the active task and stays it whatever is loaded when: no known task in progress is newer,
      and no row in progress is. */
  ghost predicate Shielded(s: SessionState, rows: set<ClientTask>, x: Id)
    requires Ordered(s)
  {
    && s.activeTaskId == Some(x) && NewestOpen(s) == Some(x) && x in s.tasksById
    && forall t :: t in rows && t.id != x && !Terminal(t.status) ==> Before(TaskKey(t), TaskKey(s.tasksById[x]))
  }

  /** If the rows contradict the active task or the newest one in progress, that is one task, and shielded. */
  ghost predicate Calm(s: SessionState, rows: set<ClientTask>)
    requires Ordered(s)
  {
    forall x :: Contested(s, rows, x) && (s.activeTaskId == Some(x) || NewestOpen(s) == Some(x)) ==> Shielded(s, rows, x)
  }

  /** The one contradicted task that every load leaves as it is known. */
  ghost function Keep(s: SessionState, rows: set<ClientTask>): Option<Id> {
    if s.activeTaskId.Some? && Contested(s, rows, s.activeTaskId.value) then s.activeTaskId else None
  }

  // ------------------------------------------------------- what loading makes of the rows

  ghost predicate Has(rows: set<ClientTask>, id: Id) {
    exists t :: t in rows && t.id == id
  }

  ghost predicate Knows(tasks: map<Id, ClientTask>, known: map<Id, ClientTask>, rows: set<ClientTask>) {
    forall id :: id in tasks <==> id in known || Has(rows, id)
  }

  ghost predicate TakesRows(tasks: map<Id, ClientTask>, rows: set<ClientTask>, keep: Option<Id>) {
    forall t :: t in rows && keep != Some(t.id) ==> t.id in tasks && tasks[t.id] == t
  }

  ghost predicate LeavesRest(tasks: map<Id, ClientTask>, known: map<Id, ClientTask>, rows: set<ClientTask>, keep: Option<Id>) {
    forall id :: id in known && (keep == Some(id) || !Has(rows, id)) ==> id in tasks && tasks[id] == known[id]
  }

  /** `tasks` is `known` with `rows` laid over it, except for the task `keep`. */
  ghost predicate Overlay(tasks: map<Id, ClientTask>, known: map<Id, ClientTask>, rows: set<ClientTask>, keep: Option<Id>) {
    Knows(tasks, known, rows) && TakesRows(tasks, rows, keep) && LeavesRest(tasks, known, rows, keep)
  }

  lemma OverlayIsOne(a: map<Id, ClientTask>, b: map<Id, ClientTask>, known: map<Id, ClientTask>, rows: set<ClientTask>, keep: Option<Id>)
    requires Overlay(a, known, rows, keep) && Overlay(b, known, rows, keep) && (keep.Some? ==> keep.value in known)
    ensures a == b
  {
    forall id | id in a ensures id in b && a[id] == b[id] {
      if !(id in known && (keep == Some(id) || !Has(rows, id))) {
        var t :| t in rows && t.id == id;
      }
    }
  }

  ghost predicate MessageOverlay(shown: map<Id, Message>, known: map<Id, Message>, messages: set<Message>) {
    && (forall id :: id in shown <==> id in known || exists m :: m in messages && m.id == id)
    && (forall m :: m in messages ==> m.id in shown && shown[m.id] == m)
    && (forall id :: id in known && (forall m :: m in messages ==> m.id != id) ==> id in shown && shown[id] == known[id])
  }

  lemma MessageOverlayIsOne(a: map<Id, Message>, b: map<Id, Message>, known: map<Id, Message>, messages: set<Message>)
    requires MessageOverlay(a, known, messages) && MessageOverlay(b, known, messages)
    ensures a == b
  {
    forall id | id in a ensures id in b && a[id] == b[id] {
      if !(id in known && forall m :: m in messages ==> m.id != id) {
        var m :| m in messages && m.id == id;
      }
    }
  }

  /** The active task at a load: the kept one if there is one; else one whose row says what is known. */
  ghost predicate Harmless(active: Option<Id>, known: map<Id, ClientTask>, rows: set<ClientTask>, keep: Option<Id>) {
    && (keep.Some? ==> active == keep && keep.value in known && !Terminal(known[keep.value].status))
    && (active.Some? && active != keep && active.value in known && !Terminal(known[active.value].status) ==>
          forall t :: t in rows && t.id == active.value ==> t == known[active.value])
  }

  ghost predicate Distinct(rows: set<ClientTask>) {
    forall t, u :: t in rows && u in rows && t.id == u.id ==> t == u
  }

  lemma OneRowOver(tasks: map<Id, ClientTask>, known: map<Id, ClientTask>, some: set<ClientTask>, rows: set<ClientTask>,
                   t: ClientTask, active: Option<Id>, keep: Option<Id>)
    requires Overlay(tasks, known, some, keep) && Distinct(rows) && some <= rows && t in rows && Harmless(active, known, rows, keep)
    ensures Kept(tasks, t, active) == if keep == Some(t.id) then known[t.id] else t
  {
    if keep != Some(t.id) && active == Some(t.id) && t.id in tasks && !Terminal(tasks[t.id].status) {
      if Has(some, t.id) {
        var u :| u in some && u.id == t.id;
        assert u == t;
      } else {
        assert tasks[t.id] == known[t.id];
      }
    }
  }

  lemma HasGrows(some: set<ClientTask>, t: ClientTask, id: Id)
    ensures Has(some + {t}, id) <==> Has(some, id) || id == t.id
  {
    if Has(some, id) {
      var u :| u in some && u.id == id;
      assert u in some + {t};
    }
    if id == t.id {
      assert t in some + {t};
    }
  }

  lemma RowIsKnown(tasks: map<Id, ClientTask>, known: map<Id, ClientTask>, some: set<ClientTask>, t: ClientTask, value: ClientTask)
    requires Knows(tasks, known, some)
    ensures Knows(tasks[t.id := value], known, some + {t})
  {
    forall id ensures id in tasks[t.id := value] <==> id in known || Has(some + {t}, id) {
      HasGrows(some, t, id);
    }
  }

  lemma RowIsTaken(tasks: map<Id, ClientTask>, some: set<ClientTask>, t: ClientTask, value: ClientTask, keep: Option<Id>)
    requires TakesRows(tasks, some, keep) && Distinct(some + {t}) && (keep != Some(t.id) ==> value == t)
    ensures TakesRows(tasks[t.id := value], some + {t}, keep)
  {
    assert t in some + {t};
  }

  lemma RowLeavesRest(tasks: map<Id, ClientTask>, known: map<Id, ClientTask>, some: set<ClientTask>, t: ClientTask, value: ClientTask, keep: Option<Id>)
    requires LeavesRest(tasks, known, some, keep) && (keep == Some(t.id) && t.id in known ==> value == known[t.id])
    ensures LeavesRest(tasks[t.id := value], known, some + {t}, keep)
  {
    forall id | id in known && (keep == Some(id) || !Has(some + {t}, id)) ensures tasks[t.id := value][id] == known[id] {
      HasGrows(some, t, id);
    }
  }

  lemma RowOverlays(tasks: map<Id, ClientTask>, known: map<Id, ClientTask>, some: set<ClientTask>, t: ClientTask, keep: Option<Id>)
    requires Overlay(tasks, known, some, keep) && Distinct(some + {t}) && (keep.Some? ==> keep.value in known)
    ensures Overlay(tasks[t.id := if keep == Some(t.id) then known[t.id] else t], known, some + {t}, keep)
  {
    var value := if keep == Some(t.id) then known[t.id] else t;
    RowIsKnown(tasks, known, some, t, value);
    RowIsTaken(tasks, some, t, value, keep);
    RowLeavesRest(tasks, known, some, t, value, keep);
  }

  lemma {:induction false} AddTasksOverlays(tasks: map<Id, ClientTask>, known: map<Id, ClientTask>, some: set<ClientTask>, rows: set<ClientTask>,
                                            page: seq<ClientTask>, active: Option<Id>, keep: Option<Id>)
    requires Overlay(tasks, known, some, keep) && Distinct(rows) && some + RowsIn(page) <= rows && Harmless(active, known, rows, keep)
    ensures Overlay(AddTasks(tasks, page, active), known, some + RowsIn(page), keep)
  {
    if |page| == 0 {
      assert some + RowsIn(page) == some;
    } else {
      var pre, t := page[..|page| - 1], page[|page| - 1];
      assert page == pre + [t];
      assert RowsIn(page) == RowsIn(pre) + {t};
      assert some + RowsIn(page) == some + RowsIn(pre) + {t};
      AddTasksOverlays(tasks, known, some, rows, pre, active, keep);
      OneRowOver(AddTasks(tasks, pre, active), known, some + RowsIn(pre), rows, t, active, keep);
      RowOverlays(AddTasks(tasks, pre, active), known, some + RowsIn(pre), t, keep);
    }
  }

  lemma {:induction false} AddMessagesOverlays(shown: map<Id, Message>, known: map<Id, Message>, some: set<Message>, page: seq<Message>)
    requires MessageOverlay(shown, known, some)
    requires forall m, n :: m in some + MessagesIn(page) && n in some + MessagesIn(page) && m.id == n.id ==> m == n
    ensures MessageOverlay(AddMessages(shown, page), known, some + MessagesIn(page))
  {
    if |page| == 0 {
      assert some + MessagesIn(page) == some;
    } else {
      var pre, m := page[..|page| - 1], page[|page| - 1];
      assert page == pre + [m];
      assert MessagesIn(page) == MessagesIn(pre) + {m};
      assert some + MessagesIn(page) == some + MessagesIn(pre) + {m};
      AddMessagesOverlays(shown, known, some, pre);
      MessageOverlays(AddMessages(shown, pre), known, some + MessagesIn(pre), m);
    }
  }

  lemma MessageOverlays(shown: map<Id, Message>, known: map<Id, Message>, some: set<Message>, m: Message)
    requires MessageOverlay(shown, known, some) && forall a, b :: a in some + {m} && b in some + {m} && a.id == b.id ==> a == b
    ensures MessageOverlay(shown[m.id := m], known, some + {m})
  {
    assert m in some + {m};
    forall a | a in some ensures a in some + {m} {
    }
  }

  // --------------------------------------------------------------- the active task at a load

  /** The first unfinished task of an order is the newest one in progress. */
  lemma {:induction false} FirstIsNewest(tasks: map<Id, ClientTask>, order: seq<Id>)
    requires forall id :: id in order ==> id in tasks
    requires forall i, j :: 0 <= i < j < |order| ==> Before(TaskKey(tasks[order[j]]), TaskKey(tasks[order[i]]))
    ensures match FirstUnfinished(tasks, order)
            case Some(x) =>
              && x in order && !Terminal(tasks[x].status)
              && forall y :: y in order && y != x && !Terminal(tasks[y].status) ==> Before(TaskKey(tasks[y]), TaskKey(tasks[x]))
            case None => forall y :: y in order ==> Terminal(tasks[y].status)
  {
    if |order| > 0 {
      assert order == [order[0]] + order[1..];
      if Terminal(tasks[order[0]].status) {
        FirstIsNewest(tasks, order[1..]);
      }
    }
  }

  lemma NewestIsFirst(tasks: map<Id, ClientTask>, order: seq<Id>, x: Id)
    requires NewestFirst(order, tasks) && x in tasks && !Terminal(tasks[x].status)
    requires forall y :: y in tasks && y != x && !Terminal(tasks[y].status) ==> Before(TaskKey(tasks[y]), TaskKey(tasks[x]))
    ensures FirstUnfinished(tasks, order) == Some(x)
  {
    FirstIsNewest(tasks, order);
    var first := FirstUnfinished(tasks, order);
    if first.Some? {
      BeforeTotal(TaskKey(tasks[first.value]), TaskKey(tasks[x]));
    }
  }

  lemma FirstLoadIsHarmless(s: SessionState, rows: set<ClientTask>)
    ensures Harmless(s.activeTaskId, s.tasksById, rows, Keep(s, rows))
  {
  }

  lemma ShieldedStaysActive(s: SessionState, rows: set<ClientTask>, some: set<ClientTask>, tasks: map<Id, ClientTask>, order: seq<Id>, x: Id)
    requires Ordered(s) && Shielded(s, rows, x) && some <= rows && !Terminal(s.tasksById[x].status)
    requires Overlay(tasks, s.tasksById, some, Some(x)) && NewestFirst(order, tasks)
    ensures FirstUnfinished(tasks, order) == Some(x)
  {
    FirstIsNewest(s.tasksById, s.taskOrder);
    forall y | y in tasks && y != x && !Terminal(tasks[y].status) ensures Before(TaskKey(tasks[y]), TaskKey(tasks[x])) {
      if Has(some, y) {
        var t :| t in some && t.id == y;
      }
    }
    NewestIsFirst(tasks, order, x);
  }

  lemma UncontestedStands(s: SessionState, rows: set<ClientTask>, some: set<ClientTask>, tasks: map<Id, ClientTask>, n: Id)
    requires n in s.tasksById && !Terminal(s.tasksById[n].status) && !Contested(s, rows, n) && some <= rows
    requires Overlay(tasks, s.tasksById, some, None)
    ensures n in tasks && tasks[n] == s.tasksById[n]
  {
    if Has(some, n) {
      var t :| t in some && t.id == n;
    }
  }

  lemma KeyStands(s: SessionState, rows: set<ClientTask>, messages: set<Message>, some: set<ClientTask>, tasks: map<Id, ClientTask>, x: Id)
    requires Ordered(s) && Consistent(s, rows, messages) && some <= rows && x in s.tasksById
    requires Overlay(tasks, s.tasksById, some, None)
    ensures x in tasks && TaskKey(tasks[x]) == TaskKey(s.tasksById[x])
  {
    if Has(some, x) {
      var t :| t in some && t.id == x;
    }
  }

  /** With nothing kept, no later load makes a contradicted task active: a newer, uncontradicted one is in progress. */
  lemma ActiveIsUncontested(s: SessionState, rows: set<ClientTask>, messages: set<Message>, some: set<ClientTask>,
                            tasks: map<Id, ClientTask>, order: seq<Id>, a: Id)
    requires Ordered(s) && Calm(s, rows) && Keep(s, rows) == None && Consistent(s, rows, messages) && some <= rows
    requires Overlay(tasks, s.tasksById, some, None) && NewestFirst(order, tasks) && FirstUnfinished(tasks, order) == Some(a)
    ensures !Contested(s, rows, a)
  {
    if Contested(s, rows, a) {
      FirstIsNewest(s.tasksById, s.taskOrder);
      FirstIsNewest(tasks, order);
      var n := NewestOpen(s).value;
      UncontestedStands(s, rows, some, tasks, n);
      KeyStands(s, rows, messages, some, tasks, a);
      BeforeTotal(TaskKey(s.tasksById[a]), TaskKey(s.tasksById[n]));
    }
  }

  lemma LaterLoadIsHarmless(s: SessionState, rows: set<ClientTask>, messages: set<Message>, some: set<ClientTask>,
                            tasks: map<Id, ClientTask>, order: seq<Id>)
    requires Ordered(s) && Calm(s, rows) && Consistent(s, rows, messages) && some <= rows
    requires Overlay(tasks, s.tasksById, some, Keep(s, rows)) && NewestFirst(order, tasks)
    ensures Harmless(FirstUnfinished(tasks, order), s.tasksById, rows, Keep(s, rows))
  {
    var keep := Keep(s, rows);
    if keep.Some? {
      ShieldedStaysActive(s, rows, some, tasks, order, keep.value);
    } else if FirstUnfinished(tasks, order).Some? {
      ActiveIsUncontested(s, rows, messages, some, tasks, order, FirstUnfinished(tasks, order).value);
    }
  }

  // ------------------------------------------------------------------ enough to be calm

  /** Rows, messages and runtimes after some loads from `s0`. */
  ghost predicate Laid(s0: SessionState, s: SessionState, rows: set<ClientTask>, messages: set<Message>, keep: Option<Id>) {
    && s.sessionId == s0.sessionId && s.replayedTaskIds == s0.replayedTaskIds
    && Overlay(s.tasksById, s0.tasksById, rows, keep) && MessageOverlay(s.messagesById, s0.messagesById, messages)
    && (forall id :: id in s.runtimeByTaskId <==> id in s0.runtimeByTaskId || id in s.tasksById)
    && (forall id :: id in s.runtimeByTaskId ==>
          s.runtimeByTaskId[id] == if id in s0.runtimeByTaskId then s0.runtimeByTaskId[id] else INITIAL_VIEW)
  }

  /** What a load always leaves: the orders of the maps, and their newest task in progress active. */
  ghost predicate Settled(s: SessionState) {
    && Keyed(s.messagesById, s.tasksById)
    && s.taskOrder == OrderTasks(s.tasksById) && s.messageOrder == OrderMessages(s.messagesById)
    && s.activeTaskId == FirstUnfinished(s.tasksById, s.taskOrder)
  }

  lemma LoadSettles(s: SessionState, p: PageLoad)
    requires Ordered(s)
    ensures Settled(LoadHistory(s, p.page, p.messageToken, p.taskToken))
  {
    AddMessagesKeyed(s.messagesById, p.page.messages);
    AddTasksKeyed(s.tasksById, p.page.tasks, s.activeTaskId);
  }

  lemma LoadLays(s0: SessionState, s: SessionState, p: PageLoad, some: set<ClientTask>, told: set<Message>,
                 rows: set<ClientTask>, messages: set<Message>, keep: Option<Id>)
    requires Ordered(s) && Consistent(s0, rows, messages) && Laid(s0, s, some, told, keep)
    requires some + RowsIn(p.page.tasks) <= rows && told + MessagesIn(p.page.messages) <= messages
    requires Harmless(s.activeTaskId, s0.tasksById, rows, keep)
    ensures Laid(s0, LoadHistory(s, p.page, p.messageToken, p.taskToken),
                 some + RowsIn(p.page.tasks), told + MessagesIn(p.page.messages), keep)
  {
    AddTasksOverlays(s.tasksById, s0.tasksById, some, rows, p.page.tasks, s.activeTaskId, keep);
    AddMessagesOverlays(s.messagesById, s0.messagesById, told, p.page.messages);
    AddTasksKeyed(s.tasksById, p.page.tasks, s.activeTaskId);
    RuntimesCover(s.runtimeByTaskId, OrderTasks(AddTasks(s.tasksById, p.page.tasks, s.activeTaskId)));
    NoTaskLost(s.tasksById, p.page.tasks, s.activeTaskId);
  }

  lemma {:induction false} NoTaskLost(known: map<Id, ClientTask>, tasks: seq<ClientTask>, active: Option<Id>)
    ensures forall id :: id in known ==> id in AddTasks(known, tasks, active)
  {
    if |tasks| > 0 {
      NoTaskLost(known, tasks[..|tasks| - 1], active);
    }
  }

  lemma LastLoad(s: SessionState, session: Id, pages: seq<PageLoad>)
    requires Ordered(s) && s.sessionId == Some(session) && |pages| > 0
    requires After(s, Loads(session, pages[..|pages| - 1])).sessionId == Some(session)
    ensures var p := pages[|pages| - 1];
            After(s, Loads(session, pages)) ==
            LoadHistory(After(s, Loads(session, pages[..|pages| - 1])), p.page, p.messageToken, p.taskToken)
  {
    var pre, p := pages[..|pages| - 1], pages[|pages| - 1];
    assert Loads(session, pages) == Loads(session, pre) + [Load(session, p)];
    AfterOneMore(s, Loads(session, pre), Load(session, p));
  }

  lemma {:induction false} LoadsLay(s: SessionState, session: Id, pages: seq<PageLoad>, rows: set<ClientTask>, messages: set<Message>)
    requires Ordered(s) && s.sessionId == Some(session) && Calm(s, rows) && Consistent(s, rows, messages)
    requires RowsOf(pages) <= rows && MessagesOf(pages) <= messages
    ensures var s' := After(s, Loads(session, pages));
            && Laid(s, s', RowsOf(pages), MessagesOf(pages), Keep(s, rows))
            && (if |pages| > 0 then Settled(s') else s' == s)
  {
    if |pages| > 0 {
      var pre, p := pages[..|pages| - 1], pages[|pages| - 1];
      LoadsLay(s, session, pre, rows, messages);
      LastLoad(s, session, pages);
      var before := After(s, Loads(session, pre));
      if |pre| > 0 {
        LaterLoadIsHarmless(s, rows, messages, RowsOf(pre), before.tasksById, before.taskOrder);
      } else {
        FirstLoadIsHarmless(s, rows);
      }
      LoadLays(s, before, p, RowsOf(pre), MessagesOf(pre), rows, messages, Keep(s, rows));
      LoadSettles(before, p);
    }
  }

  lemma LaidIsOne(s: SessionState, a: SessionState, b: SessionState, rows: set<ClientTask>, messages: set<Message>, keep: Option<Id>)
    requires Laid(s, a, rows, messages, keep) && Laid(s, b, rows, messages, keep) && (keep.Some? ==> keep.value in s.tasksById)
    requires Settled(a) && Settled(b)
    ensures SameSession(a, b)
  {
    OverlayIsOne(a.tasksById, b.tasksById, s.tasksById, rows, keep);
    MessageOverlayIsOne(a.messagesById, b.messagesById, s.messagesById, messages);
    RuntimesAreOne(a.runtimeByTaskId, b.runtimeByTaskId, s.runtimeByTaskId, a.tasksById);
  }

  lemma RuntimesAreOne(a: map<Id, View>, b: map<Id, View>, known: map<Id, View>, tasks: map<Id, ClientTask>)
    requires (forall id :: id in a <==> id in known || id in tasks) && (forall id :: id in b <==> id in known || id in tasks)
    requires forall id :: id in a ==> a[id] == if id in known then known[id] else INITIAL_VIEW
    requires forall id :: id in b ==> b[id] == if id in known then known[id] else INITIAL_VIEW
    ensures a == b
  {
  }

  lemma CalmCommutes(s: SessionState, session: Id, rows: set<ClientTask>, messages: set<Message>, one: seq<PageLoad>, other: seq<PageLoad>)
    requires Ordered(s) && s.sessionId == Some(session) && Consistent(s, rows, messages) && Calm(s, rows)
    requires Carries(one, rows, messages) && Carries(other, rows, messages)
    ensures SameSession(After(s, Loads(session, one)), After(s, Loads(session, other)))
  {
    LoadsLay(s, session, one, rows, messages);
    LoadsLay(s, session, other, rows, messages);
    LaidIsOne(s, After(s, Loads(session, one)), After(s, Loads(session, other)), rows, messages, Keep(s, rows));
  }

  // --------------------------------------------------------------------- and needed

  lemma {:induction false} MissedRow(known: map<Id, ClientTask>, page: seq<ClientTask>, active: Option<Id>, id: Id)
    requires id in known && forall t :: t in page ==> t.id != id
    ensures id in AddTasks(known, page, active) && AddTasks(known, page, active)[id] == known[id]
  {
    if |page| > 0 {
      MissedRow(known, page[..|page| - 1], active, id);
    }
  }

  function Only(messages: seq<Message>, tasks: seq<ClientTask>): PageLoad {
    PageLoad(History(messages, tasks), None, None)
  }

  lemma LoadOne(s: SessionState, session: Id, p: PageLoad)
    requires Ordered(s) && s.sessionId == Some(session)
    ensures After(s, Loads(session, [p])) == LoadHistory(s, p.page, p.messageToken, p.taskToken)
  {
    assert Loads(session, [p]) == [] + [Load(session, p)];
    AfterOneMore(s, [], Load(session, p));
  }

  lemma LoadFirst(s: SessionState, session: Id, p: PageLoad, pages: seq<PageLoad>)
    requires Ordered(s) && s.sessionId == Some(session)
    ensures After(s, Loads(session, [p] + pages)) == After(After(s, Loads(session, [p])), Loads(session, pages))
    ensures After(s, Loads(session, [p])).sessionId == Some(session)
  {
    assert Loads(session, [p] + pages) == Loads(session, [p]) + Loads(session, pages);
    AfterInTwo(s, Loads(session, [p]), Loads(session, pages));
    LoadOne(s, session, p);
  }

  /** A row loaded before pages that do not tell of it is settled by that load alone. */
  lemma RowThenRest(s: SessionState, session: Id, r: ClientTask, messages: seq<Message>, rest: seq<ClientTask>)
    requires Ordered(s) && s.sessionId == Some(session) && forall t :: t in rest ==> t.id != r.id
    ensures var s' := After(s, Loads(session, [Only(messages, [r])] + [Only([], rest)]));
            r.id in s'.tasksById && s'.tasksById[r.id] == Kept(s.tasksById, r, s.activeTaskId)
  {
    var mid := After(s, Loads(session, [Only(messages, [r])]));
    LoadFirst(s, session, Only(messages, [r]), [Only([], rest)]);
    LoadOne(s, session, Only(messages, [r]));
    LoadOne(mid, session, Only([], rest));
    OneRow(s.tasksById, r, s.activeTaskId);
    MissedRow(mid.tasksById, rest, mid.activeTaskId, r.id);
  }

  lemma OneRow(known: map<Id, ClientTask>, r: ClientTask, active: Option<Id>)
    ensures AddTasks(known, [r], active) == known[r.id := Kept(known, r, active)]
  {
    assert [r][..0] == [];
  }

  /** An empty page changes no row, and makes the newest task in progress the active one. */
  lemma EmptyPage(s: SessionState, session: Id)
    requires Ordered(s) && s.sessionId == Some(session)
    ensures var s' := After(s, Loads(session, [Only([], [])]));
            s'.tasksById == s.tasksById && s'.activeTaskId == NewestOpen(s) && s'.sessionId == Some(session)
  {
    LoadOne(s, session, Only([], []));
    TaskOrderUnique(OrderTasks(s.tasksById), s.taskOrder, s.tasksById);
  }

  /** A newer row in progress takes the active place. */
  lemma NewerRowTakesOver(s: SessionState, session: Id, x: Id, rest: seq<ClientTask>, u: ClientTask)
    requires Ordered(s) && s.sessionId == Some(session) && s.activeTaskId == Some(x) && x in s.tasksById
    requires Distinct(RowsIn(rest)) && (forall t :: t in rest ==> t.id != x)
    requires u in rest && !Terminal(u.status) && !Before(TaskKey(u), TaskKey(s.tasksById[x]))
    ensures var s' := After(s, Loads(session, [Only([], rest)]));
            s'.sessionId == Some(session) && s'.activeTaskId != Some(x)
  {
    LoadOne(s, session, Only([], rest));
    var s' := After(s, Loads(session, [Only([], rest)]));
    assert {} + RowsIn(rest) == RowsIn(rest);
    AddTasksOverlays(s.tasksById, s.tasksById, {}, RowsIn(rest), rest, s.activeTaskId, None);
    assert u in RowsIn(rest);
    FirstIsNewest(s'.tasksById, s'.taskOrder);
    MissedRow(s.tasksById, rest, s.activeTaskId, x);
  }

  lemma Listing(rows: set<ClientTask>) returns (l: seq<ClientTask>)
    ensures RowsIn(l) == rows
  {
    l := [];
    var left := rows;
    while left != {}
      invariant left <= rows && RowsIn(l) == rows - left
      decreases left
    {
      var t :| t in left;
      assert RowsIn(l + [t]) == RowsIn(l) + {t};
      l := l + [t];
      left := left - {t};
    }
  }

  lemma MessageListing(messages: set<Message>) returns (l: seq<Message>)
    ensures MessagesIn(l) == messages
  {
    l := [];
    var left := messages;
    while left != {}
      invariant left <= messages && MessagesIn(l) == messages - left
      decreases left
    {
      var m :| m in left;
      assert MessagesIn(l + [m]) == MessagesIn(l) + {m};
      l := l + [m];
      left := left - {m};
    }
  }

  ghost predicate Commutes(s: SessionState, session: Id, rows: set<ClientTask>, messages: set<Message>)
    requires Ordered(s)
  {
    forall one, other :: Carries(one, rows, messages) && Carries(other, rows, messages) ==>
      SameSession(After(s, Loads(session, one)), After(s, Loads(session, other)))
  }

  lemma OneMoreCarries(pages: seq<PageLoad>, p: PageLoad)
    ensures RowsOf(pages + [p]) == RowsOf(pages) + RowsIn(p.page.tasks)
    ensures MessagesOf(pages + [p]) == MessagesOf(pages) + MessagesIn(p.page.messages)
  {
    assert (pages + [p])[..|pages|] == pages;
  }

  lemma TwoCarry(p: PageLoad, q: PageLoad, rows: set<ClientTask>, messages: set<Message>)
    requires RowsIn(p.page.tasks) + RowsIn(q.page.tasks) == rows
    requires MessagesIn(p.page.messages) + MessagesIn(q.page.messages) == messages
    ensures Carries([p] + [q], rows, messages)
  {
    OneMoreCarries([], p);
    assert [] + [p] == [p];
    OneMoreCarries([p], q);
  }

  lemma ThreeCarry(o: PageLoad, p: PageLoad, q: PageLoad, rows: set<ClientTask>, messages: set<Message>)
    requires RowsIn(o.page.tasks) + RowsIn(p.page.tasks) + RowsIn(q.page.tasks) == rows
    requires MessagesIn(o.page.messages) + MessagesIn(p.page.messages) + MessagesIn(q.page.messages) == messages
    ensures Carries([o] + ([p] + [q]), rows, messages)
  {
    OneMoreCarries([], o);
    assert [] + [o] == [o];
    OneMoreCarries([o], p);
    OneMoreCarries([o] + [p], q);
    assert [o] + ([p] + [q]) == [o] + [p] + [q];
  }

  lemma RowThenRestCarries(r: ClientTask, told: seq<Message>, rest: seq<ClientTask>, first: PageLoad, rows: set<ClientTask>, messages: set<Message>)
    requires r in rows && RowsIn(rest) == rows - {r} && MessagesIn(told) == messages
    requires RowsIn(first.page.tasks) <= rows && MessagesIn(first.page.messages) == {}
    ensures Carries([Only(told, [r])] + [Only([], rest)], rows, messages)
    ensures Carries([first] + ([Only(told, [r])] + [Only([], rest)]), rows, messages)
  {
    assert RowsIn([r]) == {r} && MessagesIn([]) == {};
    TwoCarry(Only(told, [r]), Only([], rest), rows, messages);
    ThreeCarry(first, Only(told, [r]), Only([], rest), rows, messages);
  }

  lemma RowAfterFirst(s: SessionState, session: Id, r: ClientTask, told: seq<Message>, rest: seq<ClientTask>, first: PageLoad)
    requires Ordered(s) && s.sessionId == Some(session) && forall t :: t in rest ==> t.id != r.id
    ensures var mid := After(s, Loads(session, [first]));
            var s' := After(s, Loads(session, [first] + ([Only(told, [r])] + [Only([], rest)])));
            r.id in s'.tasksById && s'.tasksById[r.id] == Kept(mid.tasksById, r, mid.activeTaskId)
  {
    var one := [Only(told, [r])] + [Only([], rest)];
    LoadFirst(s, session, first, one);
    RowThenRest(After(s, Loads(session, [first])), session, r, told, rest);
  }

  lemma RowsDiffer(a: SessionState, b: SessionState, x: Id)
    requires x in a.tasksById && x in b.tasksById && a.tasksById[x] != b.tasksById[x]
    ensures !SameSession(a, b)
  {
  }

  lemma TwoWaysDiffer(s: SessionState, session: Id, rows: set<ClientTask>, messages: set<Message>,
                      one: seq<PageLoad>, other: seq<PageLoad>, x: Id)
    requires Ordered(s) && Carries(one, rows, messages) && Carries(other, rows, messages)
    requires x in After(s, Loads(session, one)).tasksById && x in After(s, Loads(session, other)).tasksById
    requires After(s, Loads(session, one)).tasksById[x] != After(s, Loads(session, other)).tasksById[x]
    ensures !Commutes(s, session, rows, messages)
  {
    RowsDiffer(After(s, Loads(session, one)), After(s, Loads(session, other)), x);
  }

  /** Where the active task is `x` at one of two loads of its row and not at the other, they differ. */
  lemma ActivityDecides(s: SessionState, session: Id, rows: set<ClientTask>, messages: set<Message>, r: ClientTask,
                        told: seq<Message>, rest: seq<ClientTask>, first: PageLoad)
    requires Ordered(s) && s.sessionId == Some(session) && r in rows && r.id in s.tasksById
    requires r != s.tasksById[r.id] && !Terminal(s.tasksById[r.id].status)
    requires RowsIn(rest) == rows - {r} && MessagesIn(told) == messages && (forall t :: t in rest ==> t.id != r.id)
    requires RowsIn(first.page.tasks) <= rows && MessagesIn(first.page.messages) == {}
    requires var mid := After(s, Loads(session, [first]));
             && r.id in mid.tasksById && mid.tasksById[r.id] == s.tasksById[r.id]
             && (mid.activeTaskId == Some(r.id) <==> s.activeTaskId != Some(r.id))
    ensures !Commutes(s, session, rows, messages)
  {
    var one := [Only(told, [r])] + [Only([], rest)];
    RowThenRestCarries(r, told, rest, first, rows, messages);
    RowThenRest(s, session, r, told, rest);
    RowAfterFirst(s, session, r, told, rest, first);
    TwoWaysDiffer(s, session, rows, messages, one, [first] + one, r.id);
  }

  lemma UncalmDiffers(s: SessionState, session: Id, rows: set<ClientTask>, messages: set<Message>, x: Id)
    requires Ordered(s) && s.sessionId == Some(session) && Consistent(s, rows, messages) && Contested(s, rows, x)
    requires s.activeTaskId == Some(x) || NewestOpen(s) == Some(x)
    requires !Shielded(s, rows, x)
    ensures !Commutes(s, session, rows, messages)
  {
    var r :| r in rows && r.id == x && r != s.tasksById[x];
    var rest := Listing(rows - {r});
    var told := MessageListing(messages);
    forall t | t in rest ensures t.id != x && t in rows {
      assert t in RowsIn(rest);
    }
    if s.activeTaskId == Some(x) && NewestOpen(s) == Some(x) {
      var u :| u in rows && u.id != x && !Terminal(u.status) && !Before(TaskKey(u), TaskKey(s.tasksById[x]));
      assert u in RowsIn(rest);
      NewerRowTakesOver(s, session, x, rest, u);
      LoadOne(s, session, Only([], rest));
      MissedRow(s.tasksById, rest, s.activeTaskId, x);
      ActivityDecides(s, session, rows, messages, r, told, rest, Only([], rest));
    } else {
      EmptyPage(s, session);
      ActivityDecides(s, session, rows, messages, r, told, rest, Only([], []));
    }
  }

  /** Exactly when it makes no difference how history rows are cut into pages, in what order these are
      loaded, and how often: when the rows do not contradict the active task or the newest task in
      progress, unless that is one task and neither a known nor a loaded task in progress is newer. The
      page tokens are always those of the last page. */
  lemma PagesCommuteExactly(s: SessionState, session: Id, rows: set<ClientTask>, messages: set<Message>)
    requires Ordered(s) && s.sessionId == Some(session) && Consistent(s, rows, messages)
    ensures Commutes(s, session, rows, messages) <==> Calm(s, rows)
  {
    if Calm(s, rows) {
      forall one, other | Carries(one, rows, messages) && Carries(other, rows, messages)
        ensures SameSession(After(s, Loads(session, one)), After(s, Loads(session, other)))
      {
        CalmCommutes(s, session, rows, messages, one, other);
      }
    } else {
      var x :| Contested(s, rows, x) && (s.activeTaskId == Some(x) || NewestOpen(s) == Some(x)) && !Shielded(s, rows, x);
      UncalmDiffers(s, session, rows, messages, x);
    }
  }

  /** In a session with no task in progress, as a fresh one is, the same rows always give the same session. */
  lemma IdleSessionsCommute(s: SessionState, session: Id, rows: set<ClientTask>, messages: set<Message>)
    requires Ordered(s) && s.sessionId == Some(session) && Consistent(s, rows, messages)
    requires forall id :: id in s.tasksById ==> Terminal(s.tasksById[id].status)
    ensures Commutes(s, session, rows, messages)
  {
    PagesCommuteExactly(s, session, rows, messages);
  }

  // ----------------------------------------------------------------- two pages that differ

  const RUNNING := ClientTask("a", "session", RunningTools, 1)
  const DONE := RUNNING.(status := Completed)
  const NEWER := ClientTask("b", "session", Created, 2)

  ghost function OneRunning(): SessionState {
    Next(Initial(Some("session")), TaskWasCreated("session", RUNNING))
  }

  lemma OneIsRunning()
    ensures Ordered(OneRunning()) && OneRunning().sessionId == Some("session")
    ensures OneRunning().activeTaskId == Some("a") && OneRunning().tasksById == map["a" := RUNNING]
  {
    InitialIsOrdered(Some("session"));
    NextKeeps(Initial(Some("session")), TaskWasCreated("session", RUNNING));
  }

  /** The finished task's page comes after the newer task has taken its place. */
  lemma DoneAfterNewer(s: SessionState)
    requires Ordered(s) && s.sessionId == Some("session") && s.activeTaskId == Some("a") && s.tasksById == map["a" := RUNNING]
    ensures var one := After(s, Loads("session", [Only([], [NEWER])] + [Only([], [DONE])]));
            "a" in one.tasksById && one.tasksById["a"] == DONE
  {
    var mid := After(s, Loads("session", [Only([], [NEWER])]));
    NewerRowTakesOver(s, "session", "a", [NEWER], NEWER);
    LoadFirst(s, "session", Only([], [NEWER]), [Only([], [DONE])]);
    LoadOne(mid, "session", Only([], [DONE]));
    OneRow(mid.tasksById, DONE, mid.activeTaskId);
  }

  /** The finished task's page comes while the task is active. */
  lemma DoneBeforeNewer(s: SessionState)
    requires Ordered(s) && s.sessionId == Some("session") && s.activeTaskId == Some("a") && s.tasksById == map["a" := RUNNING]
    ensures var other := After(s, Loads("session", [Only([], [DONE])] + [Only([], [NEWER])]));
            "a" in other.tasksById && other.tasksById["a"] == RUNNING
  {
    RowThenRest(s, "session", DONE, [], [NEWER]);
  }

  /** A session with one task in progress; one page says it is done, the other brings a newer task. In
      the one order the task ends completed, in the other it is shielded by being active and stays running. */
  lemma SwappedPagesDiffer()
    ensures Ordered(OneRunning())
    ensures var done, newer := Only([], [DONE]), Only([], [NEWER]);
            var one := After(OneRunning(), Loads("session", [newer] + [done]));
            var other := After(OneRunning(), Loads("session", [done] + [newer]));
            && "a" in one.tasksById && one.tasksById["a"].status == Completed
            && "a" in other.tasksById && other.tasksById["a"].status == RunningTools
  {
    OneIsRunning();
    DoneAfterNewer(OneRunning());
    DoneBeforeNewer(OneRunning());
  }
}
