/** The browser's event subscription and the replay that precedes it. */
module Subscription {
  import opened Basics
  import opened EventLog
  import opened ClientView
  import opened Replay

  /** What arrives on a connection: text that does not parse, or an event. */
  datatype Message = Garbled | Data(event: Event)

  /** The consumer of accepted events: the task's reducer state and the sequence it resumes from. */
  class TaskView {
    var view: View
    var sequence: int

    constructor ()
      ensures view == INITIAL_VIEW && sequence == 0
    {
      view, sequence := INITIAL_VIEW, 0;
    }

    method Dispatch(e: Event)
      modifies this
      ensures view == Reduce(old(view), e) && sequence == e.sequence
    {
      sequence := e.sequence;
      view := Reduce(view, e);
    }
  }

  /** The view stands at `n` events of the log, or further. */
  ghost predicate ShowsPrefix(v: View, log: Log, n: int) {
    0 <= n <= v.latestSequence <= |log| && v == Fold(log[..v.latestSequence])
  }

  /** The next event of the log is never a gap: it is absorbed, or already has been. */
  lemma NextIsAbsorbed(v: View, log: Log, n: int)
    requires Gapless(log) && ShowsPrefix(v, log, n) && n < |log|
    ensures ShowsPrefix(Reduce(v, log[n]), log, n + 1)
    ensures log[n].sequence <= v.latestSequence + 1
  {
    if v.latestSequence == n {
      assert log[..n + 1] == log[..n] + [log[n]];
      FoldAppend(log[..n], log[n]);
      FoldCounts(log[..n + 1]);
      AbsorbKeepsCount(v.(latestSequence := n + 1), log[n].body);
    }
  }

  lemma AbsorbKeepsCount(v: View, body: Payload)
    ensures Absorb(v, body).latestSequence == v.latestSequence
  {
  }

  lemma PrefixStands(v: View, log: Log, later: Log, n: int)
    requires ShowsPrefix(v, log, n) && log <= later
    ensures ShowsPrefix(v, later, n)
  {
    assert later[..v.latestSequence] == log[..v.latestSequence];
  }

  /** Replays a task page by page into its view, up to the target the first page fixed. */
  method ReplayTask(server: Server, taskId: Id, task: TaskView) returns (target: int)
    requires Gapless(server.log) && ShowsPrefix(task.view, server.log, 0)
    modifies server, task
    ensures Gapless(server.log) && old(server.log) <= server.log
    ensures target == |old(server.log)| && task.sequence == target && ShowsPrefix(task.view, server.log, target)
  {
    ghost var log0 := server.log;
    FirstAnswer(log0, taskId, None, None);
    var page := server.ReplayTaskEvents(taskId, None, None, None);
    target := page.value.target;
    DispatchPage(page.value.items, task, log0, 0);
    var items := page.value.items;
    var token := page.value.next;
    while token.Some?
      invariant Gapless(server.log) && log0 <= server.log && target == |log0|
      invariant Walked(log0, taskId, 0, items, token)
      invariant ShowsPrefix(task.view, log0, |items|)
      decreases target - |items|
    {
      var more;
      more, token := NextPage(server, taskId, items, token, None, log0, 0);
      DispatchPage(more, task, log0, |items|);
      items := items + more;
    }
    task.sequence := target;
    PrefixStands(task.view, log0, server.log, target);
  }

  method DispatchPage(items: Log, task: TaskView, ghost log: Log, ghost n: nat)
    requires Gapless(log) && n + |items| <= |log| && items == log[n..n + |items|]
    requires ShowsPrefix(task.view, log, n)
    modifies task
    ensures ShowsPrefix(task.view, log, n + |items|)
  {
    var i := 0;
    while i < |items|
      invariant i <= |items| && ShowsPrefix(task.view, log, n + i)
    {
      assert items[i] == log[n + i];
      NextIsAbsorbed(task.view, log, n + i);
      task.Dispatch(items[i]);
      i := i + 1;
    }
  }

  /** An accepted event moves the view on by exactly that event. */
  lemma AcceptedIsAbsorbed(v: View, log: Log, n: int, e: Event)
    requires Gapless(log) && ShowsPrefix(v, log, n) && e in log && e.sequence == n + 1
    ensures ShowsPrefix(Reduce(v, e), log, n + 1) && e == log[n] && e.sequence <= v.latestSequence + 1
  {
    var i :| 0 <= i < |log| && log[i] == e;
    NextIsAbsorbed(v, log, n);
  }

  /** The subscription: at most one connection is open, and it is the last one made. */
  class EventSubscription {
    const start: int
    const task: TaskView
    var closed: bool
    var attempt: nat
    var timerSet: bool
    var lastAccepted: int
    /** The sequence each connection was made after, and which are open. */
    var connections: seq<int>
    var open: seq<bool>
    ghost var accepted: Log

    ghost predicate Valid()
      reads this
    {
      && |open| == |connections| > 0
      && lastAccepted == start + |accepted|
      && (forall i :: 0 <= i < |accepted| ==> accepted[i].sequence == start + 1 + i)
      && (forall i :: 0 <= i < |connections| ==> start <= connections[i] <= lastAccepted)
      && (forall i :: 0 <= i < |open| - 1 ==> !open[i])
      && (timerSet ==> !open[|open| - 1])
      && (!closed ==> timerSet || open[|open| - 1])
      && (closed ==> !open[|open| - 1])
    }

    constructor (task: TaskView)
      ensures Valid() && this.task == task && start == task.sequence && lastAccepted == start && accepted == []
      ensures !closed && connections == [start]
    {
      this.task, start, closed, attempt, timerSet := task, task.sequence, false, 0, false;
      lastAccepted, connections, open, accepted := task.sequence, [task.sequence], [true], [];
    }

    method Reconnect()
      requires !closed ==> |open| == |connections| > 0
      modifies this`attempt, this`timerSet
      ensures timerSet == (old(timerSet) || !closed)
    {
      if closed || timerSet {
        return;
      }
      attempt := attempt + 1;
      timerSet := true;
    }

    /** The reconnect timer fires: a new connection resumes after the last accepted event. */
    method Fire()
      requires Valid() && timerSet
      modifies this
      ensures Valid() && !timerSet && accepted == old(accepted) && lastAccepted == old(lastAccepted) && closed == old(closed)
      ensures connections == if closed then old(connections) else old(connections) + [lastAccepted]
    {
      timerSet := false;
      if closed {
        return;
      }
      connections := connections + [lastAccepted];
      open := open + [true];
    }

    /** The connection breaks. */
    method Break(k: nat)
      requires Valid() && k < |open| && open[k]
      modifies this
      ensures Valid() && accepted == old(accepted) && lastAccepted == old(lastAccepted) && connections == old(connections)
      ensures closed == old(closed) && timerSet
    {
      if closed || k != |open| - 1 {
        return;
      }
      open := open[k := false];
      Reconnect();
    }

    /** A message arrives on an open connection. The next event in sequence is accepted and dispatched;
        an old one is ignored; a gap or garbled text drops the connection and schedules another. */
    method Receive(k: nat, message: Message)
      requires Valid() && k < |open| && open[k]
      modifies this, task
      ensures Valid() && connections == old(connections)
      ensures if message.Data? && message.event.sequence == old(lastAccepted) + 1 then
                && accepted == old(accepted) + [message.event] && lastAccepted == message.event.sequence
                && task.view == Reduce(old(task.view), message.event) && task.sequence == message.event.sequence
                && closed == (old(closed) || TerminalBody(message.event.body))
              else
                && accepted == old(accepted) && lastAccepted == old(lastAccepted) && closed == old(closed)
                && task.view == old(task.view) && task.sequence == old(task.sequence)
                && (message.Data? && message.event.sequence <= lastAccepted ==> open == old(open))
                && (!(message.Data? && message.event.sequence <= lastAccepted) ==> timerSet && !open[k])
    {
      match message
      case Garbled =>
        open := open[k := false];
        Reconnect();
      case Data(event) =>
        if event.sequence <= lastAccepted {
          return;
        }
        if event.sequence != lastAccepted + 1 {
          open := open[k := false];
          Reconnect();
          return;
        }
        lastAccepted := event.sequence;
        attempt := 0;
        accepted := accepted + [event];
        task.Dispatch(event);
        if TerminalBody(event.body) {
          closed := true;
          open := open[k := false];
        }
    }

    method Close()
      requires Valid()
      modifies this
      ensures Valid() && closed && accepted == old(accepted) && lastAccepted == old(lastAccepted)
    {
      closed := true;
      timerSet := false;
      open := open[|open| - 1 := false];
    }
  }

  datatype Happening =
    | Arrives(index: nat)
    | ArrivesGarbled
    | Breaks
    | TimerFires
    | OthersAppend

  /** A task in the browser: replayed to the target, then followed live through whatever happens. Each
      change of the active task's status closes the subscription and makes another, which resumes from
      the last event seen. At every point the view is the in-order fold of a prefix that reaches at least
      the last accepted event; and the events accepted by all the subscriptions together are the log from
      the target on, each once: the reducer never met a gap. */
  method FollowTask(server: Server, taskId: Id, rounds: seq<seq<Happening>>)
    returns (task: TaskView, target: int, ghost accepted: Log)
    requires Gapless(server.log)
    modifies server
    ensures Gapless(server.log) && old(server.log) <= server.log && target == |old(server.log)|
    ensures ShowsPrefix(task.view, server.log, task.sequence)
    ensures target <= task.sequence <= |server.log| && accepted == server.log[target..task.sequence]
  {
    task := new TaskView();
    target := ReplayTask(server, taskId, task);
    accepted := [];
    var i := 0;
    while i < |rounds|
      invariant fresh(task)
      invariant Gapless(server.log) && old(server.log) <= server.log
      invariant ShowsPrefix(task.view, server.log, task.sequence)
      invariant target <= task.sequence <= |server.log| && accepted == server.log[target..task.sequence]
    {
      ghost var log, n := server.log, task.sequence;
      var subscription := Subscribe(server, task, rounds[i]);
      accepted := accepted + subscription.accepted;
      SlicesJoin(log, server.log, target, n, task.sequence);
      i := i + 1;
    }
  }

  lemma SlicesJoin(log: Log, later: Log, a: int, b: int, c: int)
    requires log <= later && 0 <= a <= b <= |log| && b <= c <= |later|
    ensures log[a..b] + later[b..c] == later[a..c]
  {
  }

  /** One subscription, from its making to its close. */
  method Subscribe(server: Server, task: TaskView, happenings: seq<Happening>) returns (subscription: EventSubscription)
    requires Gapless(server.log) && 0 <= task.sequence <= |server.log| && ShowsPrefix(task.view, server.log, task.sequence)
    modifies server, task
    ensures fresh(subscription) && subscription.Valid() && subscription.closed && subscription.task == task
    ensures Gapless(server.log) && old(server.log) <= server.log
    ensures subscription.start == old(task.sequence) && Followed(subscription, server.log)
  {
    subscription := new EventSubscription(task);
    var i := 0;
    while i < |happenings|
      invariant fresh(subscription) && subscription.task == task && subscription.start == old(task.sequence)
      invariant Gapless(server.log) && old(server.log) <= server.log
      invariant subscription.Valid() && Followed(subscription, server.log)
    {
      Happen(server, subscription, happenings[i]);
      i := i + 1;
    }
    subscription.Close();
  }

  ghost predicate Followed(s: EventSubscription, log: Log)
    reads s, s.task
  {
    && ShowsPrefix(s.task.view, log, s.lastAccepted) && s.task.sequence == s.lastAccepted
    && 0 <= s.start <= s.lastAccepted <= |log| && s.accepted == log[s.start..s.lastAccepted]
  }

  method Happen(server: Server, s: EventSubscription, h: Happening)
    requires Gapless(server.log) && s.Valid() && Followed(s, server.log)
    modifies server, s, s.task
    ensures Gapless(server.log) && old(server.log) <= server.log
    ensures s.Valid() && Followed(s, server.log)
  {
    var last := |s.open| - 1;
    match h
    case Arrives(index) =>
      if index < |server.log| && s.open[last] {
        ghost var e, n := server.log[index], s.lastAccepted;
        if e.sequence == n + 1 {
          AcceptedIsAbsorbed(s.task.view, server.log, n, e);
        }
        s.Receive(last, Data(server.log[index]));
      }
    case ArrivesGarbled => if s.open[last] { s.Receive(last, Garbled); }
    case Breaks => if s.open[last] { s.Break(last); }
    case TimerFires => if s.timerSet { s.Fire(); }
    case OthersAppend =>
      ghost var log := server.log;
      server.Meanwhile();
      PrefixStands(s.task.view, log, server.log, s.lastAccepted);
  }
}
