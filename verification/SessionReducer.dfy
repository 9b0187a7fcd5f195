/** The browser's session reducer: pages, created tasks and events folded into one state. */
module SessionReducer {
  import opened Basics
  import opened TaskLifecycle
  import opened EventLog
  import opened ClientView
  import opened Ordering

  datatype Message = Message(id: Id, createdAt: int, text: string)

  datatype ClientTask = ClientTask(id: Id, sessionId: Id, status: Status, createdAt: int)

  datatype SessionState = SessionState(
    sessionId: Option<Id>, messagesById: map<Id, Message>, messageOrder: seq<Id>,
    tasksById: map<Id, ClientTask>, taskOrder: seq<Id>, runtimeByTaskId: map<Id, View>,
    replayedTaskIds: set<Id>, activeTaskId: Option<Id>,
    messageNextPageToken: Option<string>, taskNextPageToken: Option<string>)

  datatype History = History(messages: seq<Message>, tasks: seq<ClientTask>)

  datatype Action =
    | SessionSelected(selected: Option<Id>)
    | HistoryLoaded(sessionId: Id, page: History, messageToken: Option<string>, taskToken: Option<string>)
    | TaskWasCreated(sessionId: Id, task: ClientTask)
    | TaskReplayed(sessionId: Id, taskId: Id)
    | TaskEvent(eventSession: Id, taskId: Id, event: Event)

  function Initial(sessionId: Option<Id>): SessionState {
    SessionState(sessionId, map[], [], map[], [], map[], {}, None, None, None)
  }

  // ----------------------------------------------------------------------- orders

  function MessageKey(m: Message): Key {
    Key(m.createdAt, m.id)
  }

  function TaskKey(t: ClientTask): Key {
    Key(t.createdAt, t.id)
  }

  /** The messages, each once, oldest first. */
  ghost predicate OldestFirst(order: seq<Id>, messages: map<Id, Message>) {
    && (forall id :: id in order <==> id in messages)
    && forall i, j :: 0 <= i < j < |order| ==> Before(MessageKey(messages[order[i]]), MessageKey(messages[order[j]]))
  }

  /** The tasks, each once, newest first. */
  ghost predicate NewestFirst(order: seq<Id>, tasks: map<Id, ClientTask>) {
    && (forall id :: id in order <==> id in tasks)
    && forall i, j :: 0 <= i < j < |order| ==> Before(TaskKey(tasks[order[j]]), TaskKey(tasks[order[i]]))
  }

  ghost predicate Keyed(messages: map<Id, Message>, tasks: map<Id, ClientTask>) {
    (forall id :: id in messages ==> messages[id].id == id) && (forall id :: id in tasks ==> tasks[id].id == id)
  }

  function MessageKeys(messages: map<Id, Message>): set<Key> {
    set id | id in messages :: MessageKey(messages[id])
  }

  function TaskKeys(tasks: map<Id, ClientTask>): set<Key> {
    set id | id in tasks :: TaskKey(tasks[id])
  }

  function Ids(keys: seq<Key>): seq<Id> {
    seq(|keys|, i requires 0 <= i < |keys| => keys[i].id)
  }

  lemma ListingOrdersTasks(keys: seq<Key>, tasks: map<Id, ClientTask>)
    requires forall id :: id in tasks ==> tasks[id].id == id
    requires Descending(keys) && forall k :: k in keys <==> k in TaskKeys(tasks)
    ensures NewestFirst(Ids(keys), tasks)
  {
    forall i | 0 <= i < |keys| ensures keys[i].id in tasks && keys[i] == TaskKey(tasks[keys[i].id]) {
      assert keys[i] in keys;
    }
    forall id | id in tasks ensures id in Ids(keys) {
      assert TaskKey(tasks[id]) in keys;
      var i :| 0 <= i < |keys| && keys[i] == TaskKey(tasks[id]);
      assert Ids(keys)[i] == id;
    }
  }

  lemma ListingOrdersMessages(keys: seq<Key>, messages: map<Id, Message>)
    requires forall id :: id in messages ==> messages[id].id == id
    requires Ascending(keys) && forall k :: k in keys <==> k in MessageKeys(messages)
    ensures OldestFirst(Ids(keys), messages)
  {
    forall i | 0 <= i < |keys| ensures keys[i].id in messages && keys[i] == MessageKey(messages[keys[i].id]) {
      assert keys[i] in keys;
    }
    forall id | id in messages ensures id in Ids(keys) {
      assert MessageKey(messages[id]) in keys;
      var i :| 0 <= i < |keys| && keys[i] == MessageKey(messages[id]);
      assert Ids(keys)[i] == id;
    }
  }

  lemma TaskOrderUnique(a: seq<Id>, b: seq<Id>, tasks: map<Id, ClientTask>)
    requires forall id :: id in tasks ==> tasks[id].id == id
    requires NewestFirst(a, tasks) && NewestFirst(b, tasks)
    ensures a == b
  {
    var ka := seq(|a|, i requires 0 <= i < |a| => TaskKey(tasks[a[i]]));
    var kb := seq(|b|, i requires 0 <= i < |b| => TaskKey(tasks[b[i]]));
    forall k | k in ka ensures k in kb {
      var i :| 0 <= i < |a| && k == TaskKey(tasks[a[i]]);
      assert a[i] in a && a[i] in b;
      var j :| 0 <= j < |b| && b[j] == a[i];
      assert kb[j] == k;
    }
    forall k | k in kb ensures k in ka {
      var i :| 0 <= i < |b| && k == TaskKey(tasks[b[i]]);
      assert b[i] in b && b[i] in a;
      var j :| 0 <= j < |a| && a[j] == b[i];
      assert ka[j] == k;
    }
    DescendingListingUnique(ka, kb);
    forall i | 0 <= i < |a| ensures a[i] == b[i] {
      assert ka[i] == kb[i];
    }
  }

  lemma MessageOrderUnique(a: seq<Id>, b: seq<Id>, messages: map<Id, Message>)
    requires forall id :: id in messages ==> messages[id].id == id
    requires OldestFirst(a, messages) && OldestFirst(b, messages)
    ensures a == b
  {
    var ka := seq(|a|, i requires 0 <= i < |a| => MessageKey(messages[a[i]]));
    var kb := seq(|b|, i requires 0 <= i < |b| => MessageKey(messages[b[i]]));
    forall k | k in ka ensures k in kb {
      var i :| 0 <= i < |a| && k == MessageKey(messages[a[i]]);
      assert a[i] in a && a[i] in b;
      var j :| 0 <= j < |b| && b[j] == a[i];
      assert kb[j] == k;
    }
    forall k | k in kb ensures k in ka {
      var i :| 0 <= i < |b| && k == MessageKey(messages[b[i]]);
      assert b[i] in b && b[i] in a;
      var j :| 0 <= j < |a| && a[j] == b[i];
      assert ka[j] == k;
    }
    AscendingListingUnique(ka, kb);
    forall i | 0 <= i < |a| ensures a[i] == b[i] {
      assert ka[i] == kb[i];
    }
  }

  ghost function OrderTasks(tasks: map<Id, ClientTask>): (order: seq<Id>)
    requires forall id :: id in tasks ==> tasks[id].id == id
    ensures NewestFirst(order, tasks)
  {
    TaskOrderExists(tasks);
    var order :| NewestFirst(order, tasks);
    order
  }

  lemma TaskOrderExists(tasks: map<Id, ClientTask>)
    requires forall id :: id in tasks ==> tasks[id].id == id
    ensures exists order :: NewestFirst(order, tasks)
  {
    var keys := DescendingListingExists(TaskKeys(tasks));
    ListingOrdersTasks(keys, tasks);
  }

  ghost function OrderMessages(messages: map<Id, Message>): (order: seq<Id>)
    requires forall id :: id in messages ==> messages[id].id == id
    ensures OldestFirst(order, messages)
  {
    MessageOrderExists(messages);
    var order :| OldestFirst(order, messages);
    order
  }

  lemma MessageOrderExists(messages: map<Id, Message>)
    requires forall id :: id in messages ==> messages[id].id == id
    ensures exists order :: OldestFirst(order, messages)
  {
    var keys := AscendingListingExists(MessageKeys(messages));
    ListingOrdersMessages(keys, messages);
  }

  // ---------------------------------------------------------------------- reducer

  /** Later messages replace earlier ones of the same id. */
  function AddMessages(known: map<Id, Message>, messages: seq<Message>): map<Id, Message> {
    if |messages| == 0 then known
    else
      var m := messages[|messages| - 1];
      AddMessages(known, messages[..|messages| - 1])[m.id := m]
  }

  /** What a loaded task leaves known: itself, unless it is the active task and that is still in progress. */
  function Kept(known: map<Id, ClientTask>, t: ClientTask, active: Option<Id>): ClientTask {
    if active == Some(t.id) && t.id in known && !Terminal(known[t.id].status) then known[t.id] else t
  }

  function AddTasks(known: map<Id, ClientTask>, tasks: seq<ClientTask>, active: Option<Id>): map<Id, ClientTask> {
    if |tasks| == 0 then known
    else
      var before := AddTasks(known, tasks[..|tasks| - 1], active);
      var t := tasks[|tasks| - 1];
      before[t.id := Kept(before, t, active)]
  }

  function AddRuntimes(runtimes: map<Id, View>, order: seq<Id>): map<Id, View> {
    if |order| == 0 then runtimes
    else
      var before := AddRuntimes(runtimes, order[..|order| - 1]);
      var id := order[|order| - 1];
      if id in before then before else before[id := INITIAL_VIEW]
  }

  function FirstUnfinished(tasks: map<Id, ClientTask>, order: seq<Id>): Option<Id>
    requires forall id :: id in order ==> id in tasks
  {
    if |order| == 0 then None
    else if !Terminal(tasks[order[0]].status) then Some(order[0])
    else FirstUnfinished(tasks, order[1..])
  }

  function StatusFrom(body: Payload, current: Status): Status {
    match body
    case TaskCompleted => Completed
    case TaskFailed(_) => Failed
    case _ => current
  }

  /** The state the reducer's invariant asks for: the orders list the maps' keys, each in its order, and
      every listed task has a runtime. */
  ghost predicate Ordered(s: SessionState) {
    && Keyed(s.messagesById, s.tasksById)
    && OldestFirst(s.messageOrder, s.messagesById)
    && NewestFirst(s.taskOrder, s.tasksById)
    && forall id :: id in s.taskOrder ==> id in s.runtimeByTaskId
  }

  lemma {:induction false} AddMessagesKeyed(known: map<Id, Message>, messages: seq<Message>)
    requires forall id :: id in known ==> known[id].id == id
    ensures forall id :: id in AddMessages(known, messages) ==> AddMessages(known, messages)[id].id == id
  {
    if |messages| > 0 {
      AddMessagesKeyed(known, messages[..|messages| - 1]);
    }
  }

  lemma {:induction false} AddTasksKeyed(known: map<Id, ClientTask>, tasks: seq<ClientTask>, active: Option<Id>)
    requires forall id :: id in known ==> known[id].id == id
    ensures forall id :: id in AddTasks(known, tasks, active) ==> AddTasks(known, tasks, active)[id].id == id
  {
    if |tasks| > 0 {
      AddTasksKeyed(known, tasks[..|tasks| - 1], active);
    }
  }

  lemma {:induction false} RuntimesCover(runtimes: map<Id, View>, order: seq<Id>)
    ensures forall id :: id in AddRuntimes(runtimes, order) <==> id in runtimes || id in order
    ensures forall id :: id in AddRuntimes(runtimes, order) ==>
              AddRuntimes(runtimes, order)[id] == if id in runtimes then runtimes[id] else INITIAL_VIEW
  {
    if |order| > 0 {
      var last := order[|order| - 1];
      RuntimesCover(runtimes, order[..|order| - 1]);
      assert order == order[..|order| - 1] + [last];
      forall id ensures id in order <==> id in order[..|order| - 1] || id == last {
      }
    }
  }

  lemma {:induction false} FirstUnfinishedIsOpen(tasks: map<Id, ClientTask>, order: seq<Id>)
    requires forall id :: id in order ==> id in tasks
    ensures match FirstUnfinished(tasks, order)
            case Some(id) => id in order && !Terminal(tasks[id].status)
            case None => forall id :: id in order ==> Terminal(tasks[id].status)
  {
    if |order| > 0 && Terminal(tasks[order[0]].status) {
      FirstUnfinishedIsOpen(tasks, order[1..]);
      assert order == [order[0]] + order[1..];
    }
  }

  ghost function LoadHistory(s: SessionState, page: History, messageToken: Option<string>, taskToken: Option<string>): SessionState
    requires Keyed(s.messagesById, s.tasksById)
  {
    AddMessagesKeyed(s.messagesById, page.messages);
    AddTasksKeyed(s.tasksById, page.tasks, s.activeTaskId);
    var messages := AddMessages(s.messagesById, page.messages);
    var tasks := AddTasks(s.tasksById, page.tasks, s.activeTaskId);
    var order := OrderTasks(tasks);
    s.(messagesById := messages, messageOrder := OrderMessages(messages),
       tasksById := tasks, taskOrder := order,
       runtimeByTaskId := AddRuntimes(s.runtimeByTaskId, order),
       activeTaskId := FirstUnfinished(tasks, order),
       messageNextPageToken := messageToken, taskNextPageToken := taskToken)
  }

  ghost function AddCreated(s: SessionState, task: ClientTask): SessionState
    requires Keyed(s.messagesById, s.tasksById)
  {
    var tasks := s.tasksById[task.id := task];
    var order := OrderTasks(tasks);
    s.(tasksById := tasks, taskOrder := order,
       runtimeByTaskId := AddRuntimes(s.runtimeByTaskId, order), activeTaskId := Some(task.id))
  }

  function ApplyEvent(s: SessionState, taskId: Id, e: Event): SessionState
    requires taskId in s.tasksById
  {
    var task := s.tasksById[taskId];
    var current := if taskId in s.runtimeByTaskId then s.runtimeByTaskId[taskId] else INITIAL_VIEW;
    var runtime := Reduce(current, e);
    if runtime == current then s else
    var status := StatusFrom(e.body, if runtime.taskStatus.Some? then runtime.taskStatus.value else task.status);
    s.(tasksById := if status == task.status then s.tasksById else s.tasksById[taskId := task.(status := status)],
       activeTaskId := if Terminal(status) && s.activeTaskId == Some(taskId) then None else s.activeTaskId,
       runtimeByTaskId := s.runtimeByTaskId[taskId := runtime])
  }

  ghost function Next(s: SessionState, a: Action): SessionState
    requires Keyed(s.messagesById, s.tasksById)
  {
    match a
    case SessionSelected(id) => Initial(id)
    case HistoryLoaded(session, page, messageToken, taskToken) =>
      if s.sessionId != Some(session) then s else LoadHistory(s, page, messageToken, taskToken)
    case TaskWasCreated(session, task) =>
      if s.sessionId != Some(session) || s.sessionId != Some(task.sessionId) then s else AddCreated(s, task)
    case TaskReplayed(session, taskId) =>
      if s.sessionId != Some(session) then s else s.(replayedTaskIds := s.replayedTaskIds + {taskId})
    case TaskEvent(session, taskId, e) =>
      if s.sessionId != Some(session) || taskId !in s.tasksById then s else ApplyEvent(s, taskId, e)
  }

  /** The session's active task, if any, is known and still in progress. */
  ghost predicate ActiveOpen(s: SessionState) {
    s.activeTaskId.Some? ==> s.activeTaskId.value in s.tasksById && !Terminal(s.tasksById[s.activeTaskId.value].status)
  }

  lemma LoadKeeps(s: SessionState, page: History, messageToken: Option<string>, taskToken: Option<string>)
    requires Ordered(s)
    ensures Ordered(LoadHistory(s, page, messageToken, taskToken)) && ActiveOpen(LoadHistory(s, page, messageToken, taskToken))
  {
    AddMessagesKeyed(s.messagesById, page.messages);
    AddTasksKeyed(s.tasksById, page.tasks, s.activeTaskId);
    var tasks := AddTasks(s.tasksById, page.tasks, s.activeTaskId);
    RuntimesCover(s.runtimeByTaskId, OrderTasks(tasks));
    FirstUnfinishedIsOpen(tasks, OrderTasks(tasks));
  }

  lemma CreatedKeeps(s: SessionState, task: ClientTask)
    requires Ordered(s)
    ensures Ordered(AddCreated(s, task))
    ensures ActiveOpen(AddCreated(s, task)) <==> !Terminal(task.status)
  {
    RuntimesCover(s.runtimeByTaskId, OrderTasks(s.tasksById[task.id := task]));
  }

  lemma EventKeeps(s: SessionState, taskId: Id, e: Event)
    requires Ordered(s) && taskId in s.tasksById
    ensures Ordered(ApplyEvent(s, taskId, e))
    ensures ActiveOpen(s) ==> ActiveOpen(ApplyEvent(s, taskId, e))
  {
    var s' := ApplyEvent(s, taskId, e);
    forall i, j | 0 <= i < j < |s'.taskOrder|
      ensures Before(TaskKey(s'.tasksById[s'.taskOrder[j]]), TaskKey(s'.tasksById[s'.taskOrder[i]]))
    {
      assert s.taskOrder[i] in s.taskOrder && s.taskOrder[j] in s.taskOrder;
      assert TaskKey(s'.tasksById[s'.taskOrder[i]]) == TaskKey(s.tasksById[s.taskOrder[i]]);
      assert TaskKey(s'.tasksById[s'.taskOrder[j]]) == TaskKey(s.tasksById[s.taskOrder[j]]);
    }
  }

  ghost predicate AboutSession(s: SessionState, a: Action) {
    match a
    case SessionSelected(_) => true
    case HistoryLoaded(session, _, _, _) => s.sessionId == Some(session)
    case TaskWasCreated(session, task) => s.sessionId == Some(session) && s.sessionId == Some(task.sessionId)
    case TaskReplayed(session, _) => s.sessionId == Some(session)
    case TaskEvent(session, _, _) => s.sessionId == Some(session)
  }

  /** One action keeps the orders and runtimes, and keeps the active task open exactly unless it
      installs a created task that is already over. Actions for another session change nothing. */
  lemma NextKeeps(s: SessionState, a: Action)
    requires Ordered(s)
    ensures Ordered(Next(s, a))
    ensures !AboutSession(s, a) ==> Next(s, a) == s
    ensures ActiveOpen(s) ==>
              (ActiveOpen(Next(s, a)) <==> !(a.TaskWasCreated? && AboutSession(s, a) && Terminal(a.task.status)))
  {
    match a
    case HistoryLoaded(_, page, messageToken, taskToken) =>
      if AboutSession(s, a) { LoadKeeps(s, page, messageToken, taskToken); }
    case TaskWasCreated(_, task) => if AboutSession(s, a) { CreatedKeeps(s, task); }
    case TaskEvent(_, taskId, e) => if AboutSession(s, a) && taskId in s.tasksById { EventKeeps(s, taskId, e); }
    case _ =>
  }

  /** The state after a list of actions; the orders and runtimes hold all along. */
  ghost function After(s: SessionState, actions: seq<Action>): SessionState
    requires Ordered(s)
    ensures Ordered(After(s, actions))
  {
    if |actions| == 0 then s
    else
      var before := After(s, actions[..|actions| - 1]);
      NextKeeps(before, actions[|actions| - 1]);
      Next(before, actions[|actions| - 1])
  }

  lemma InitialIsOrdered(session: Option<Id>)
    ensures Ordered(Initial(session)) && ActiveOpen(Initial(session))
  {
  }

  /** Over all action sequences, as long as created tasks are in progress, so is the active task. */
  lemma {:induction false} ActiveTaskIsOpen(s: SessionState, actions: seq<Action>)
    requires Ordered(s) && ActiveOpen(s)
    requires forall a :: a in actions && a.TaskWasCreated? ==> !Terminal(a.task.status)
    ensures ActiveOpen(After(s, actions))
  {
    if |actions| > 0 {
      ActiveTaskIsOpen(s, actions[..|actions| - 1]);
      NextKeeps(After(s, actions[..|actions| - 1]), actions[|actions| - 1]);
    }
  }

  // ------------------------------------------------------------ runtimes from logs

  ghost predicate RuntimesFrom(s: SessionState, logs: Id -> Log) {
    forall t {:trigger s.runtimeByTaskId[t]} :: t in s.runtimeByTaskId ==> IsPrefixFold(s.runtimeByTaskId[t], logs(t))
  }

  lemma EventsKeepRuntimes(s: SessionState, a: Action, logs: Id -> Log)
    requires Ordered(s) && RuntimesFrom(s, logs) && forall t :: Gapless(logs(t))
    requires a.TaskEvent? ==> a.event in logs(a.taskId)
    ensures RuntimesFrom(Next(s, a), logs)
  {
    match a
    case TaskEvent(_, t, e) =>
      if AboutSession(s, a) && t in s.tasksById {
        EmptyIsPrefix(logs(t));
        ReduceStaysPrefix(if t in s.runtimeByTaskId then s.runtimeByTaskId[t] else INITIAL_VIEW, logs(t), e);
      }
    case HistoryLoaded(_, page, _, _) =>
      if AboutSession(s, a) {
        AddTasksKeyed(s.tasksById, page.tasks, s.activeTaskId);
        NewRuntimesKeep(s, OrderTasks(AddTasks(s.tasksById, page.tasks, s.activeTaskId)), logs);
      }
    case TaskWasCreated(_, task) =>
      if AboutSession(s, a) {
        NewRuntimesKeep(s, OrderTasks(s.tasksById[task.id := task]), logs);
      }
    case _ =>
  }

  lemma EmptyIsPrefix(log: Log)
    ensures IsPrefixFold(INITIAL_VIEW, log)
  {
    assert log[..0] == [];
  }

  lemma NewRuntimesKeep(s: SessionState, order: seq<Id>, logs: Id -> Log)
    requires RuntimesFrom(s, logs)
    ensures forall t {:trigger AddRuntimes(s.runtimeByTaskId, order)[t]} :: t in AddRuntimes(s.runtimeByTaskId, order) ==>
              IsPrefixFold(AddRuntimes(s.runtimeByTaskId, order)[t], logs(t))
  {
    RuntimesCover(s.runtimeByTaskId, order);
    forall t | t in AddRuntimes(s.runtimeByTaskId, order) ensures IsPrefixFold(AddRuntimes(s.runtimeByTaskId, order)[t], logs(t)) {
      EmptyIsPrefix(logs(t));
    }
  }

  /** Whatever actions interleave, every task's runtime is the in-order fold of a prefix of its log. */
  lemma {:induction false} RuntimesArePrefixFolds(session: Option<Id>, actions: seq<Action>, logs: Id -> Log)
    requires forall t :: Gapless(logs(t))
    requires forall a :: a in actions && a.TaskEvent? ==> a.event in logs(a.taskId)
    ensures Ordered(Initial(session)) && RuntimesFrom(After(Initial(session), actions), logs)
  {
    InitialIsOrdered(session);
    if |actions| > 0 {
      RuntimesArePrefixFolds(session, actions[..|actions| - 1], logs);
      EventsKeepRuntimes(After(Initial(session), actions[..|actions| - 1]), actions[|actions| - 1], logs);
    }
  }

  // ------------------------------------------------------------ the reducer's loops

  method InitializeRuntimes(current: map<Id, View>, order: seq<Id>) returns (next: map<Id, View>)
    ensures next == AddRuntimes(current, order)
  {
    next := current;
    var i := 0;
    while i < |order|
      invariant i <= |order| && next == AddRuntimes(current, order[..i])
    {
      assert order[..i + 1][..i] == order[..i];
      if order[i] !in next {
        next := next[order[i] := INITIAL_VIEW];
      }
      i := i + 1;
    }
    assert order[..i] == order;
  }

  method FillMessages(known: map<Id, Message>, messages: seq<Message>) returns (filled: map<Id, Message>)
    ensures filled == AddMessages(known, messages)
  {
    filled := known;
    var i := 0;
    while i < |messages|
      invariant i <= |messages| && filled == AddMessages(known, messages[..i])
    {
      assert messages[..i + 1][..i] == messages[..i];
      filled := filled[messages[i].id := messages[i]];
      i := i + 1;
    }
    assert messages[..i] == messages;
  }

  method FillTasks(known: map<Id, ClientTask>, tasks: seq<ClientTask>, active: Option<Id>) returns (filled: map<Id, ClientTask>)
    ensures filled == AddTasks(known, tasks, active)
  {
    filled := known;
    var i := 0;
    while i < |tasks|
      invariant i <= |tasks| && filled == AddTasks(known, tasks[..i], active)
    {
      assert tasks[..i + 1][..i] == tasks[..i];
      var t := tasks[i];
      if !(active == Some(t.id) && t.id in filled && filled[t.id].status != Completed && filled[t.id].status != Failed) {
        filled := filled[t.id := t];
      } else {
        filled := filled[t.id := filled[t.id]];
      }
      i := i + 1;
    }
    assert tasks[..i] == tasks;
  }

  method SortTasks(tasks: map<Id, ClientTask>) returns (order: seq<Id>)
    requires forall id :: id in tasks ==> tasks[id].id == id
    ensures order == OrderTasks(tasks)
  {
    var keys := OrderDown(TaskKeys(tasks));
    order := Ids(keys);
    ListingOrdersTasks(keys, tasks);
    TaskOrderUnique(order, OrderTasks(tasks), tasks);
  }

  method SortMessages(messages: map<Id, Message>) returns (order: seq<Id>)
    requires forall id :: id in messages ==> messages[id].id == id
    ensures order == OrderMessages(messages)
  {
    var keys := OrderUp(MessageKeys(messages));
    order := Ids(keys);
    ListingOrdersMessages(keys, messages);
    MessageOrderUnique(order, OrderMessages(messages), messages);
  }

  /** The reducer as it runs, with its loops and sorts. */
  method Reducer(s: SessionState, a: Action) returns (next: SessionState)
    requires Ordered(s)
    ensures next == Next(s, a)
  {
    match a
    case SessionSelected(id) => next := Initial(id);
    case HistoryLoaded(session, page, messageToken, taskToken) =>
      if s.sessionId != Some(session) {
        return s;
      }
      next := Load(s, page, messageToken, taskToken);
    case TaskWasCreated(session, task) =>
      if s.sessionId != Some(session) || s.sessionId != Some(task.sessionId) {
        return s;
      }
      var tasks := s.tasksById[task.id := task];
      var order := SortTasks(tasks);
      var runtimes := InitializeRuntimes(s.runtimeByTaskId, order);
      next := s.(tasksById := tasks, taskOrder := order, runtimeByTaskId := runtimes, activeTaskId := Some(task.id));
    case TaskReplayed(session, taskId) =>
      if s.sessionId != Some(session) {
        return s;
      }
      next := s.(replayedTaskIds := s.replayedTaskIds + {taskId});
    case TaskEvent(session, taskId, e) =>
      if s.sessionId != Some(session) || taskId !in s.tasksById {
        return s;
      }
      next := ApplyEvent(s, taskId, e);
  }

  method Load(s: SessionState, page: History, messageToken: Option<string>, taskToken: Option<string>) returns (next: SessionState)
    requires Ordered(s)
    ensures next == LoadHistory(s, page, messageToken, taskToken)
  {
    AddMessagesKeyed(s.messagesById, page.messages);
    AddTasksKeyed(s.tasksById, page.tasks, s.activeTaskId);
    var messages := FillMessages(s.messagesById, page.messages);
    var tasks := FillTasks(s.tasksById, page.tasks, s.activeTaskId);
    var order := SortTasks(tasks);
    var messageOrder := SortMessages(messages);
    var runtimes := InitializeRuntimes(s.runtimeByTaskId, order);
    next := s.(messagesById := messages, messageOrder := messageOrder, tasksById := tasks, taskOrder := order,
               runtimeByTaskId := runtimes, activeTaskId := FirstUnfinished(tasks, order),
               messageNextPageToken := messageToken, taskNextPageToken := taskToken);
  }
}
