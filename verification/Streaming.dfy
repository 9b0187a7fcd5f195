/** The live event stream against concurrent writers: no wake-up is lost and no event is skipped. */
module Streaming {
  import opened Basics
  import opened TaskLifecycle
  import opened EventLog
  import opened Database
  import opened TaskInvariant
  import opened WorkerInvariant
  import opened Replay
  import S = System
  import G = Guarantees

  datatype StreamPc =
    | Subscribing
    | Querying
    | Writing(batch: Log)
    | Checking
    | Confirming(latest: int)
    | Waiting
    | Returned(finished: bool)

  /** One open stream. `signal` is its notification channel; `seen` remembers how long the log was
      when its last query ran. */
  datatype Stream = Stream(
    pc: StreamPc, start: int, after: int, written: Log, subscribed: bool, signal: bool, seen: nat)

  /** What the outside decides at a step: whether the store, the connection or the subscription fails,
      and, at the wait, whether the signal or the heartbeat is taken. */
  datatype Outside = Outside(fails: bool, heartbeat: bool)

  function Open(after: int): Stream {
    Stream(Subscribing, after, after, [], false, false, 0)
  }

  function StreamStep(s: Stream, td: TaskData, o: Outside): Stream {
    match s.pc
    case Subscribing => s.(subscribed := !o.fails, pc := Querying)
    case Querying =>
      if o.fails || Invalid(s.after, MAX_SEQUENCE, MAX_REPLAY_BATCH) then s.(pc := Returned(false)) else
      var batch := Select(td.log, s.after, MAX_SEQUENCE, MAX_REPLAY_BATCH);
      s.(seen := |td.log|, pc := if |batch| == 0 then Checking else Writing(batch))
    case Writing(batch) =>
      if o.fails || |batch| == 0 then s.(pc := Returned(false)) else
      s.(written := s.written + [batch[0]], after := batch[0].sequence,
         pc := if |batch| == 1 then Querying else Writing(batch[1..]))
    case Checking =>
      if o.fails then s.(pc := Returned(false))
      else if Terminal(td.row.status) && s.after >= td.row.latestSequence then s.(pc := Confirming(td.row.latestSequence))
      else s.(pc := Waiting)
    case Confirming(latest) =>
      if o.fails || Invalid(latest - 1, MAX_SEQUENCE, 1) then s.(pc := Returned(false)) else
      var last := Select(td.log, latest - 1, MAX_SEQUENCE, 1);
      if |last| == 1 && TerminalBody(last[0].body) then s.(pc := Returned(true)) else s.(pc := Waiting)
    case Waiting =>
      if o.fails then s.(pc := Returned(false))
      else if o.heartbeat then s.(pc := Querying)
      else if s.signal then s.(signal := false, pc := Querying)
      else s
    case Returned(_) => s
  }

  /** A task's data, its committed events whose notification is still to come, and its streams. */
  datatype Hub = Hub(td: TaskData, pending: set<int>, streams: seq<Stream>)

  datatype Action =
    | Commit(td: TaskData)
    | Notify(sequence: int)
    | Connect(after: int)
    | Advance(id: nat, outside: Outside)

  /** A commit may do to the task whatever the system's steps may do; its counter is an int64. */
  ghost predicate Enabled(h: Hub, a: Action) {
    match a
    case Commit(td) => TaskInv(td) && Evolves(h.td, td) && |td.log| <= MAX_SEQUENCE
    case Notify(sequence) => sequence in h.pending
    case Connect(_) => true
    case Advance(id, _) => id < |h.streams|
  }

  function Numbers(from: nat, to: nat): (r: set<int>)
    ensures forall q :: q in r <==> from < q <= to
  {
    if to <= from then {} else Numbers(from, to - 1) + {to}
  }

  /** A notification puts a signal into the channel of every subscribed stream. */
  function Signalled(s: Stream): Stream {
    s.(signal := s.signal || s.subscribed)
  }

  ghost function Act(h: Hub, a: Action): Hub {
    if !Enabled(h, a) then h else
    match a
    case Commit(td) => h.(td := td, pending := h.pending + Numbers(|h.td.log|, |td.log|))
    case Notify(sequence) =>
      h.(pending := h.pending - {sequence},
         streams := seq(|h.streams|, i requires 0 <= i < |h.streams| => Signalled(h.streams[i])))
    case Connect(after) => h.(streams := h.streams + [Open(after)])
    case Advance(id, outside) => h.(streams := h.streams[id := StreamStep(h.streams[id], h.td, outside)])
  }

  ghost function Run(h: Hub, actions: seq<Action>): Hub {
    if |actions| == 0 then h else Act(Run(h, actions[..|actions| - 1]), actions[|actions| - 1])
  }

  // ------------------------------------------------------------------ invariant

  /** What has been written is the log from the start on, without gap or repeat. */
  ghost predicate WrittenInv(s: Stream, log: Log) {
    && s.after == s.start + |s.written|
    && (|s.written| > 0 ==> 0 <= s.start && s.after <= |log| && s.written == log[s.start..s.after])
    && s.seen <= |log|
  }

  ghost predicate BatchInv(s: Stream, log: Log) {
    s.pc.Writing? ==>
      && 0 <= s.after < s.after + |s.pc.batch| <= |log| && s.pc.batch == log[s.after..s.after + |s.pc.batch|]
  }

  /** Between an empty query and the next one, an empty channel means that every later commit
      still has its notification to come. */
  ghost predicate WakeInv(s: Stream, log: Log, pending: set<int>) {
    s.pc.Checking? || s.pc.Confirming? || s.pc.Waiting? ==>
      && s.seen <= s.after
      && (s.subscribed && !s.signal ==> forall q {:trigger q in pending} :: s.seen < q <= |log| ==> q in pending)
  }

  ghost predicate EndInv(s: Stream, log: Log) {
    && (s.pc.Confirming? ==> 1 <= s.pc.latest <= s.after && s.pc.latest <= |log|)
    && (s.pc == Returned(true) ==> IsClosed(log) && |log| <= s.after)
    && (s.pc.Confirming? && IsClosed(log) && s.seen == |log| ==> s.pc.latest == |log|)
    && (s.pc == Waiting && IsClosed(log) ==> s.seen < |log|)
  }

  ghost predicate StreamInv(s: Stream, log: Log, pending: set<int>) {
    WrittenInv(s, log) && BatchInv(s, log) && WakeInv(s, log, pending) && EndInv(s, log)
  }

  /** What a stream relies on of a task: numbered events, a counter that counts them, a good log, and a
      terminal status once that is closed. */
  ghost predicate Readable(td: TaskData) {
    && Gapless(td.log) && |td.log| <= MAX_SEQUENCE && td.row.latestSequence == |td.log| && Scan(td.log).Good?
    && (Terminal(td.row.status) ==> |td.log| > 0)
    && (IsClosed(td.log) ==> Terminal(td.row.status) && TerminalBody(td.log[|td.log| - 1].body))
  }

  /** What a stream relies on of a commit: logs grow, and a closed one does not. */
  ghost predicate Extends(log: Log, log': Log) {
    log <= log' && (IsClosed(log) ==> log' == log)
  }

  ghost predicate HubInv(h: Hub) {
    && Readable(h.td)
    && forall i {:trigger StreamInv(h.streams[i], h.td.log, h.pending)} :: 0 <= i < |h.streams| ==>
         StreamInv(h.streams[i], h.td.log, h.pending)
  }

  lemma QueryKeeps(s: Stream, td: TaskData, pending: set<int>, o: Outside)
    requires StreamInv(s, td.log, pending) && s.pc == Querying && Gapless(td.log) && |td.log| <= MAX_SEQUENCE
    ensures StreamInv(StreamStep(s, td, o), td.log, pending)
  {
    if !o.fails && 0 <= s.after <= MAX_SEQUENCE {
      SelectIsSlice(td.log, s.after, MAX_SEQUENCE, MAX_REPLAY_BATCH);
    }
  }

  lemma SlicesStep(log: Log, start: nat, after: nat, end: nat)
    requires start <= after < end <= |log|
    ensures log[after..end][0] == log[after] && log[after..end][1..] == log[after + 1..end]
    ensures log[start..after] + [log[after]] == log[start..after + 1]
  {
  }

  lemma WriteKeeps(s: Stream, td: TaskData, pending: set<int>, o: Outside)
    requires StreamInv(s, td.log, pending) && s.pc.Writing? && Gapless(td.log)
    ensures StreamInv(StreamStep(s, td, o), td.log, pending)
  {
    if !o.fails && |s.pc.batch| > 0 && 0 <= s.start {
      SlicesStep(td.log, s.start, s.after, s.after + |s.pc.batch|);
    }
  }

  /** Re-reading the event at the counter: if it is terminal, the log is closed and ends there. */
  lemma TerminalRead(log: Log, latest: int)
    requires Gapless(log) && Scan(log).Good? && 1 <= latest <= |log| <= MAX_SEQUENCE
    ensures Select(log, latest - 1, MAX_SEQUENCE, 1) == [log[latest - 1]]
    ensures TerminalBody(log[latest - 1].body) ==> IsClosed(log) && latest == |log|
  {
    SelectIsSlice(log, latest - 1, MAX_SEQUENCE, 1);
    if TerminalBody(log[latest - 1].body) {
      TerminalEventIsLast(log, latest - 1);
    }
  }

  lemma ConfirmKeeps(s: Stream, td: TaskData, pending: set<int>, o: Outside)
    requires StreamInv(s, td.log, pending) && s.pc.Confirming? && Readable(td)
    ensures StreamInv(StreamStep(s, td, o), td.log, pending)
  {
    if s.pc.latest >= 1 {
      TerminalRead(td.log, s.pc.latest);
    }
  }

  lemma CheckKeeps(s: Stream, td: TaskData, pending: set<int>, o: Outside)
    requires StreamInv(s, td.log, pending) && s.pc == Checking && Readable(td)
    ensures StreamInv(StreamStep(s, td, o), td.log, pending)
  {
  }

  lemma WaitKeeps(s: Stream, td: TaskData, pending: set<int>, o: Outside)
    requires StreamInv(s, td.log, pending) && (s.pc == Waiting || s.pc == Subscribing || s.pc.Returned?)
    ensures StreamInv(StreamStep(s, td, o), td.log, pending)
  {
  }

  lemma StepKeeps(s: Stream, td: TaskData, pending: set<int>, o: Outside)
    requires StreamInv(s, td.log, pending) && Readable(td)
    ensures StreamInv(StreamStep(s, td, o), td.log, pending)
  {
    match s.pc
    case Querying => QueryKeeps(s, td, pending, o);
    case Writing(_) => WriteKeeps(s, td, pending, o);
    case Confirming(_) => ConfirmKeeps(s, td, pending, o);
    case Checking => CheckKeeps(s, td, pending, o);
    case _ => WaitKeeps(s, td, pending, o);
  }

  lemma SliceStands(log: Log, log': Log, from: int, to: int)
    requires log <= log' && 0 <= from <= to <= |log|
    ensures log'[from..to] == log[from..to]
  {
  }

  lemma CommitKeepsWritten(s: Stream, log: Log, log': Log)
    requires WrittenInv(s, log) && BatchInv(s, log) && log <= log'
    ensures WrittenInv(s, log') && BatchInv(s, log')
  {
    if |s.written| > 0 {
      SliceStands(log, log', s.start, s.after);
    }
    if s.pc.Writing? {
      SliceStands(log, log', s.after, s.after + |s.pc.batch|);
    }
  }

  lemma CommitKeepsEnd(s: Stream, log: Log, log': Log)
    requires EndInv(s, log) && s.seen <= |log| && Extends(log, log')
    ensures EndInv(s, log')
  {
    if log' != log {
      assert |log| < |log'|;
    }
  }

  lemma CommitKeeps(s: Stream, log: Log, log': Log, pending: set<int>)
    requires StreamInv(s, log, pending) && Extends(log, log')
    ensures StreamInv(s, log', pending + Numbers(|log|, |log'|))
  {
    CommitKeepsWritten(s, log, log');
    CommitKeepsEnd(s, log, log');
  }

  lemma NotifyKeeps(s: Stream, log: Log, pending: set<int>, sequence: int)
    requires StreamInv(s, log, pending)
    ensures StreamInv(Signalled(s), log, pending - {sequence})
  {
  }

  lemma CommitIsReadable(td: TaskData, td': TaskData)
    requires TaskInv(td') && Evolves(td, td') && |td'.log| <= MAX_SEQUENCE
    ensures Readable(td') && Extends(td.log, td'.log)
  {
    SoundIsReadable(td');
  }

  lemma SoundIsReadable(td: TaskData)
    requires TaskInv(td) && |td.log| <= MAX_SEQUENCE
    ensures Readable(td)
  {
    PhaseKnowsStatus(td.log);
    if IsClosed(td.log) {
      G.ClosedEndsTerminal(td.log);
    }
  }

  lemma StreamKeeps(h: Hub, a: Action, i: nat)
    requires HubInv(h) && Enabled(h, a) && i < |h.streams|
    ensures StreamInv(Act(h, a).streams[i], Act(h, a).td.log, Act(h, a).pending)
  {
    assert StreamInv(h.streams[i], h.td.log, h.pending);
    match a
    case Commit(td) =>
      CommitIsReadable(h.td, td);
      CommitKeeps(h.streams[i], h.td.log, td.log, h.pending);
    case Notify(sequence) => NotifyKeeps(h.streams[i], h.td.log, h.pending, sequence);
    case Advance(id, outside) => StepKeeps(h.streams[i], h.td, h.pending, outside);
    case Connect(_) =>
  }

  lemma ActKeeps(h: Hub, a: Action)
    requires HubInv(h)
    ensures HubInv(Act(h, a))
  {
    if Enabled(h, a) {
      if a.Commit? {
        CommitIsReadable(h.td, a.td);
      }
      var h' := Act(h, a);
      forall i | 0 <= i < |h'.streams| ensures StreamInv(h'.streams[i], h'.td.log, h'.pending) {
        if i < |h.streams| {
          StreamKeeps(h, a, i);
        }
      }
    }
  }

  lemma {:induction false} RunKeeps(h: Hub, actions: seq<Action>)
    requires HubInv(h)
    ensures HubInv(Run(h, actions))
  {
    if |actions| > 0 {
      RunKeeps(h, actions[..|actions| - 1]);
      ActKeeps(Run(h, actions[..|actions| - 1]), actions[|actions| - 1]);
    }
  }

  // ----------------------------------------------------------------- main results

  /** A task seen before any stream is open. */
  ghost predicate Fresh(h: Hub) {
    Readable(h.td) && h.streams == []
  }

  /** No lost wake-up: in every interleaving of commits, notifications and stream steps, a subscribed
      stream that waits on an empty channel has not missed any event whose notification has run. */
  lemma NoLostWakeUp(h: Hub, actions: seq<Action>, i: nat, q: int)
    requires Fresh(h) && i < |Run(h, actions).streams|
    requires var s := Run(h, actions).streams[i]; s.pc == Waiting && s.subscribed && !s.signal && s.after < q <= |Run(h, actions).td.log|
    ensures q in Run(h, actions).pending
  {
    RunKeeps(h, actions);
    var h' := Run(h, actions);
    assert StreamInv(h'.streams[i], h'.td.log, h'.pending);
  }

  /** Exact streaming: what a stream has written is exactly start+1, start+2, ..., as committed. */
  lemma ExactStreaming(h: Hub, actions: seq<Action>, i: nat)
    requires Fresh(h) && i < |Run(h, actions).streams|
    ensures var s := Run(h, actions).streams[i];
            && s.after == s.start + |s.written|
            && (forall k :: 0 <= k < |s.written| ==> s.written[k].sequence == s.start + 1 + k)
            && (|s.written| > 0 ==> 0 <= s.start && s.after <= |Run(h, actions).td.log|
                                    && s.written == Run(h, actions).td.log[s.start..s.after])
  {
    RunKeeps(h, actions);
    var h' := Run(h, actions);
    assert StreamInv(h'.streams[i], h'.td.log, h'.pending);
  }

  /** A stream that ends by its terminal check has written everything after its start, and the log
      is closed: nothing will follow. So if the terminal event was never committed, it never ends so. */
  lemma FinishedStreamIsComplete(h: Hub, actions: seq<Action>, i: nat)
    requires Fresh(h) && i < |Run(h, actions).streams| && Run(h, actions).streams[i].pc == Returned(true)
    ensures var s, log := Run(h, actions).streams[i], Run(h, actions).td.log;
            && IsClosed(log)
            && (0 <= s.start <= |log| ==> s.written == log[s.start..])
            && (s.start > |log| ==> s.written == [])
  {
    RunKeeps(h, actions);
    var h' := Run(h, actions);
    assert StreamInv(h'.streams[i], h'.td.log, h'.pending);
  }

  /** The tasks of the running system are such tasks: readable in every reachable state, and in any
      continuation extended only as a stream allows for. */
  lemma SystemTasksAreReadable(labels: seq<S.Label>, more: seq<S.Label>, t: Id)
    requires t in S.Execute(S.EMPTY, labels).db.tasks
    requires |S.Execute(S.EMPTY, labels).db.tasks[t].log| <= MAX_SEQUENCE
    ensures var td := S.Execute(S.EMPTY, labels).db.tasks[t];
            var later := S.Execute(S.Execute(S.EMPTY, labels), more).db;
            Readable(td) && t in later.tasks && Extends(td.log, later.tasks[t].log)
  {
    G.ReachableTask(labels, t);
    SoundIsReadable(S.Execute(S.EMPTY, labels).db.tasks[t]);
    G.HistoriesOnlyGrow(labels, more, t);
  }

  // -------------------------------------------------------------- the handler's loop

  /** The states of a task as its writers make them. */
  ghost predicate TaskHistory(history: seq<TaskData>) {
    && |history| > 0
    && (forall i :: 0 <= i < |history| ==> Readable(history[i]))
    && (forall i, j {:trigger Extends(history[i].log, history[j].log)} :: 0 <= i <= j < |history| ==>
          Extends(history[i].log, history[j].log))
  }

  /** The stream has kept its invariant so far, notifications aside. */
  ghost predicate Sofar(s: Stream, log: Log) {
    StreamInv(s, log, Numbers(0, |log|))
  }

  lemma TimePasses(s: Stream, log: Log, log': Log)
    requires Extends(log, log') && Sofar(s, log)
    ensures Sofar(s, log')
  {
    CommitKeeps(s, log, log', Numbers(0, |log|));
    assert Numbers(0, |log|) + Numbers(|log|, |log'|) == Numbers(0, |log'|);
  }

  method Later(now: nat, end: nat) returns (later: nat)
    requires now < end
    ensures now <= later < end
  {
    var skip: int := *;
    later := if 0 <= skip && now + skip < end then now + skip else now;
  }

  /** The stream once the first `i` events of its batch are written. */
  ghost function WrittenUpTo(s0: Stream, batch: Log, i: nat): Stream
    requires i <= |batch|
  {
    s0.(written := s0.written + batch[..i],
        after := if i == 0 then s0.after else batch[i - 1].sequence,
        pc := if i < |batch| then Writing(batch[i..]) else Querying)
  }

  lemma WritesOn(s0: Stream, td: TaskData, batch: Log, i: nat, o: Outside)
    requires i < |batch|
    ensures StreamStep(WrittenUpTo(s0, batch, i), td, o)
            == if o.fails then WrittenUpTo(s0, batch, i).(pc := Returned(false)) else WrittenUpTo(s0, batch, i + 1)
  {
    assert batch[..i + 1] == batch[..i] + [batch[i]];
    assert batch[i..][0] == batch[i] && batch[i..][1..] == batch[i + 1..];
  }

  lemma WritesSoundly(s0: Stream, td: TaskData, batch: Log, i: nat, o: Outside)
    requires Readable(td) && i < |batch| && Sofar(WrittenUpTo(s0, batch, i), td.log)
    ensures Sofar(if o.fails then WrittenUpTo(s0, batch, i).(pc := Returned(false)) else WrittenUpTo(s0, batch, i + 1), td.log)
  {
    WritesOn(s0, td, batch, i, o);
    StepKeeps(WrittenUpTo(s0, batch, i), td, Numbers(0, |td.log|), o);
  }

  lemma WritesFromStart(s0: Stream, batch: Log)
    requires |batch| > 0 && s0.pc == Writing(batch)
    ensures WrittenUpTo(s0, batch, 0) == s0
  {
    assert batch[0..] == batch && s0.written + batch[..0] == s0.written;
  }

  /** What the outside does next: something fails only if there is `trouble`, and without a subscription
      only the heartbeat ends a wait. */
  method Meanwhile(trouble: bool, subscribed: bool) returns (o: Outside)
    ensures (o.fails ==> trouble) && (!subscribed ==> o.heartbeat)
  {
    o := *;
    o := Outside(o.fails && trouble, o.heartbeat || !subscribed);
  }

  /** Writes a batch event by event until the connection fails. */
  method WriteBatch(batch: Log, trouble: bool, ghost td: TaskData, ghost s0: Stream)
    returns (written: Log, ok: bool, ghost s: Stream)
    requires Readable(td) && Sofar(s0, td.log) && |batch| > 0 && s0.pc == Writing(batch)
    ensures Sofar(s, td.log) && s.start == s0.start && s.written == s0.written + written && s.subscribed == s0.subscribed
    ensures if ok then s.pc == Querying && written == batch && s.after == batch[|batch| - 1].sequence else s.pc == Returned(false)
    ensures ok || trouble
  {
    written, s := [], s0;
    var i := 0;
    WritesFromStart(s0, batch);
    while i < |batch|
      invariant i <= |batch| && written == batch[..i] && s == WrittenUpTo(s0, batch, i) && Sofar(s, td.log)
    {
      var o := Meanwhile(trouble, true);
      WritesOn(s0, td, batch, i, o);
      WritesSoundly(s0, td, batch, i, o);
      s := StreamStep(s, td, o);
      if o.fails {
        return written, false, s;
      }
      written := written + [batch[i]];
      i := i + 1;
    }
    return written, true, s;
  }

  /** The stream's next step, against the task as it stands by then. */
  method Observe(history: seq<TaskData>, before: nat, ghost s0: Stream, o: Outside) returns (now: nat, ghost s: Stream)
    requires TaskHistory(history) && before < |history| && Sofar(s0, history[before].log)
    ensures before <= now < |history| && s == StreamStep(s0, history[now], o) && Sofar(s, history[now].log)
  {
    now := Later(before, |history|);
    assert Extends(history[before].log, history[now].log);
    TimePasses(s0, history[before].log, history[now].log);
    StepKeeps(s0, history[now], Numbers(0, |history[now].log|), o);
    s := StreamStep(s0, history[now], o);
  }

  datatype Turn = GoOn | Idle | Ended(finished: bool)

  /** A query that works writes what there is to write, and has `nothing` to say if there is none. */
  ghost predicate Found(turn: Turn, written: Log, log: Log, after: int, nothing: Turn) {
    && written == Select(log, after, MAX_SEQUENCE, MAX_REPLAY_BATCH)
    && turn == if |written| == 0 then nothing else GoOn
  }

  lemma NothingLeft(log: Log, after: int)
    requires Gapless(log) && |log| <= MAX_SEQUENCE && !Invalid(after, MAX_SEQUENCE, MAX_REPLAY_BATCH)
    requires Select(log, after, MAX_SEQUENCE, MAX_REPLAY_BATCH) == []
    ensures after >= |log|
  {
    SelectIsSlice(log, after, MAX_SEQUENCE, MAX_REPLAY_BATCH);
  }

  /** Nothing but the point reached has changed. */
  ghost predicate Same(s: Stream, s0: Stream) {
    s.start == s0.start && s.written == s0.written && s.after == s0.after && s.subscribed == s0.subscribed
  }

  /** The query for the next batch. */
  method Query(history: seq<TaskData>, before: nat, after: int, trouble: bool, ghost s0: Stream)
    returns (events: Option<Log>, now: nat, ghost s: Stream)
    requires TaskHistory(history) && before < |history| && Sofar(s0, history[before].log) && s0.pc == Querying && s0.after == after
    ensures before <= now < |history| && Sofar(s, history[now].log) && Same(s, s0)
    ensures events.None? ==> s.pc == Returned(false) && (trouble || Invalid(after, MAX_SEQUENCE, MAX_REPLAY_BATCH))
    ensures events.Some? ==>
              && s.pc == (if |events.value| == 0 then Checking else Writing(events.value))
              && events.value == Select(history[now].log, after, MAX_SEQUENCE, MAX_REPLAY_BATCH)
  {
    var o := Meanwhile(trouble, true);
    now, s := Observe(history, before, s0, o);
    var found := ReplayTo(history[now].log, after, MAX_SEQUENCE, MAX_REPLAY_BATCH);
    events := if o.fails || found.Failure? then None else Some(found.value);
  }

  /** One query and, if it finds anything, its writing. */
  method ReplayOnce(history: seq<TaskData>, before: nat, after: int, trouble: bool, ghost s0: Stream)
    returns (turn: Turn, written: Log, now: nat, ghost s: Stream)
    requires TaskHistory(history) && before < |history| && Sofar(s0, history[before].log) && s0.pc == Querying && s0.after == after
    ensures before <= now < |history| && Sofar(s, history[now].log) && s.start == s0.start && s.written == s0.written + written
    ensures turn == GoOn ==> s.pc == Querying && |written| > 0 && s.after == written[|written| - 1].sequence
    ensures turn == Idle ==> s.pc == Checking && s.after == after && written == []
    ensures turn.Ended? ==> turn == Ended(false) && s.pc == Returned(false)
    ensures s.subscribed == s0.subscribed || turn.Ended?
    ensures !trouble && !Invalid(after, MAX_SEQUENCE, MAX_REPLAY_BATCH) ==> Found(turn, written, history[now].log, after, Idle)
  {
    var events;
    events, now, s := Query(history, before, after, trouble, s0);
    written := [];
    if events.None? {
      return Ended(false), written, now, s;
    }
    if |events.value| == 0 {
      return Idle, written, now, s;
    }
    var ok;
    written, ok, s := WriteBatch(events.value, trouble, history[now], s);
    turn := if ok then GoOn else Ended(false);
  }

  /** A closed log is the same at every later moment. */
  lemma ClosedStands(history: seq<TaskData>, before: nat, now: nat)
    requires TaskHistory(history) && before <= now < |history| && IsClosed(history[before].log)
    ensures history[now].log == history[before].log
  {
    assert Extends(history[before].log, history[now].log);
  }

  /** The row and the last event of a task whose log is closed say so. */
  lemma ClosedSays(td: TaskData)
    requires Readable(td) && IsClosed(td.log)
    ensures Terminal(td.row.status) && td.row.latestSequence == |td.log| > 0
    ensures var last := Select(td.log, |td.log| - 1, MAX_SEQUENCE, 1); |last| == 1 && TerminalBody(last[0].body)
  {
    TerminalRead(td.log, |td.log|);
  }

  /** The look at the row and, if it is terminal, at the last event. */
  method CheckEnd(history: seq<TaskData>, before: nat, after: int, trouble: bool, ghost s0: Stream)
    returns (turn: Turn, now: nat, ghost s: Stream)
    requires TaskHistory(history) && before < |history| && Sofar(s0, history[before].log) && s0.pc == Checking && s0.after == after
    ensures before <= now < |history| && Sofar(s, history[now].log) && Same(s, s0)
    ensures turn != Idle && s.pc == if turn == GoOn then Waiting else Returned(turn.finished)
    ensures !trouble && IsClosed(history[before].log) && after >= |history[before].log| ==> turn == Ended(true)
  {
    var o := Meanwhile(trouble, true);
    now, s := Observe(history, before, s0, o);
    if IsClosed(history[before].log) {
      ClosedStands(history, before, now);
      ClosedSays(history[now]);
    }
    if o.fails {
      return Ended(false), now, s;
    }
    var current := history[now].row;
    if (current.status != Completed && current.status != Failed) || after < current.latestSequence {
      return GoOn, now, s;
    }
    turn, now, s := Confirm(history, now, current.latestSequence, trouble, s);
  }

  method Confirm(history: seq<TaskData>, before: nat, counter: int, trouble: bool, ghost s0: Stream)
    returns (turn: Turn, now: nat, ghost s: Stream)
    requires TaskHistory(history) && before < |history| && Sofar(s0, history[before].log) && s0.pc == Confirming(counter)
    ensures before <= now < |history| && Sofar(s, history[now].log) && Same(s, s0)
    ensures turn != Idle && s.pc == if turn == GoOn then Waiting else Returned(turn.finished)
    ensures !trouble && IsClosed(history[before].log) && counter == |history[before].log| ==> turn == Ended(true)
  {
    var o := Meanwhile(trouble, true);
    now, s := Observe(history, before, s0, o);
    if IsClosed(history[before].log) {
      ClosedStands(history, before, now);
      ClosedSays(history[now]);
    }
    var latest := ReplayTo(history[now].log, counter - 1, MAX_SEQUENCE, 1);
    if o.fails || latest.Failure? {
      return Ended(false), now, s;
    }
    if |latest.value| == 1 && TerminalBody(latest.value[0].body) {
      return Ended(true), now, s;
    }
    return GoOn, now, s;
  }

  /** Until the client leaves, a signal comes or the heartbeat is due. */
  method Wait(history: seq<TaskData>, before: nat, subscribed: bool, trouble: bool, ghost s0: Stream)
    returns (turn: Turn, now: nat, ghost s: Stream)
    requires TaskHistory(history) && before < |history| && Sofar(s0, history[before].log) && s0.pc == Waiting && s0.subscribed == subscribed
    ensures before <= now < |history| && Sofar(s, history[now].log) && Same(s, s0)
    ensures if turn == GoOn then s.pc == Querying else turn == Ended(false) && s.pc == Returned(false)
    ensures turn == GoOn || trouble
  {
    var o := Meanwhile(trouble, subscribed);
    now, s := Observe(history, before, Signalled(s0), o);
    turn := if o.fails then Ended(false) else GoOn;
  }

  /** One round of the handler's loop. */
  method Round(history: seq<TaskData>, before: nat, after: int, subscribed: bool, trouble: bool, ghost s0: Stream)
    returns (turn: Turn, written: Log, now: nat, ghost s: Stream)
    requires TaskHistory(history) && before < |history| && Sofar(s0, history[before].log)
    requires s0.pc == Querying && s0.after == after && s0.subscribed == subscribed
    ensures before <= now < |history| && Sofar(s, history[now].log) && s.start == s0.start && s.written == s0.written + written
    ensures turn != Idle && s.pc == if turn == GoOn then Querying else Returned(turn.finished)
    ensures turn == GoOn ==> s.subscribed == subscribed && s.after == if |written| == 0 then after else written[|written| - 1].sequence
    ensures !trouble && IsClosed(history[before].log) && !Invalid(after, MAX_SEQUENCE, MAX_REPLAY_BATCH) ==>
              Found(turn, written, history[before].log, after, Ended(true))
  {
    turn, written, now, s := ReplayOnce(history, before, after, trouble, s0);
    if IsClosed(history[before].log) {
      ClosedStands(history, before, now);
    }
    if turn == Idle {
      if written == Select(history[now].log, after, MAX_SEQUENCE, MAX_REPLAY_BATCH) && !Invalid(after, MAX_SEQUENCE, MAX_REPLAY_BATCH) {
        NothingLeft(history[now].log, after);
      }
      turn, now, s := CheckEnd(history, now, after, trouble, s);
      if turn == GoOn {
        turn, now, s := Wait(history, now, subscribed, trouble, s);
      }
    }
  }

  /** One round for each batch of events left, and one more. */
  ghost predicate EnoughTurns(turns: int, length: nat, after: int) {
    turns > 0 && length - after <= (turns - 1) * MAX_REPLAY_BATCH
  }

  /** The client's stay is as long as a closed log needs. */
  ghost predicate Enough(td: TaskData, left: int, after: int) {
    IsClosed(td.log) && !Invalid(after, MAX_SEQUENCE, MAX_REPLAY_BATCH) && EnoughTurns(left, |td.log|, after)
  }

  /** After a round without trouble the rounds left are still enough, unless it was the end. */
  lemma RoundTaken(td: TaskData, td': TaskData, left: int, after: int, turn: Turn, batch: Log)
    requires Readable(td) && td'.log == td.log && Enough(td, left, after) && Found(turn, batch, td.log, after, Ended(true))
    ensures turn == GoOn ==> |batch| > 0 && Enough(td', left - 1, batch[|batch| - 1].sequence)
    ensures turn.Ended? ==> turn.finished
  {
    SelectIsSlice(td.log, after, MAX_SEQUENCE, MAX_REPLAY_BATCH);
  }

  lemma SureRound(history: seq<TaskData>, was: nat, now: nat, left: int, after: int, turn: Turn, batch: Log, s: Stream)
    requires TaskHistory(history) && was <= now < |history| && Enough(history[was], left, after)
    requires Found(turn, batch, history[was].log, after, Ended(true))
    requires Sofar(s, history[now].log) && (turn.Ended? ==> s.pc == Returned(turn.finished)) && s.start >= 0
    ensures history[now].log == history[was].log
    ensures turn == GoOn ==> |batch| > 0 && Enough(history[now], left - 1, batch[|batch| - 1].sequence)
    ensures turn.Ended? ==> turn.finished && WholeFrom(s.written, history[was].log, s.start)
  {
    ClosedStands(history, was, now);
    RoundTaken(history[was], history[now], left, after, turn, batch);
    if turn.Ended? {
      EndedIsWhole(s, history[now].log);
    }
  }

  lemma OpenedIsSofar(td: TaskData, after: int, subscribed: bool)
    requires Readable(td)
    ensures var s := StreamStep(Open(after), td, Outside(!subscribed, false));
            && Sofar(s, td.log) && s.pc == Querying && s.subscribed == subscribed
            && s.start == s.after == after && s.written == []
  {
  }

  ghost predicate WholeFrom(written: Log, log: Log, start: int) {
    written == if 0 <= start <= |log| then log[start..] else []
  }

  lemma EndedIsWhole(s: Stream, log: Log)
    requires Sofar(s, log) && s.pc == Returned(true) && s.start >= 0
    ensures WholeFrom(s.written, log, s.start)
  {
  }

  /** The sequence resumed after is the later of the two a client may name, counting from 0 where the
      first is not given. */
  ghost predicate IsLater(r: int, afterSequence: Option<int>, lastEventId: Option<int>) {
    var base := if afterSequence.Some? then afterSequence.value else 0;
    && base <= r && (lastEventId.Some? ==> lastEventId.value <= r)
    && (r == base || lastEventId == Some(r))
  }

  method ResumeAfter(afterSequence: Option<int>, lastEventId: Option<int>) returns (after: int)
    ensures IsLater(after, afterSequence, lastEventId)
  {
    after := 0;
    if afterSequence.Some? {
      after := afterSequence.value;
    }
    if lastEventId.Some? && lastEventId.value > after {
      after := lastEventId.value;
    }
  }

  /** The handler's loop, for a client that stays at most `turns` rounds, against a task that others
      write. What it writes and when it ends by itself are those of a stream, so the results above
      hold of it: the log from the start without gap or repeat, and nothing missing at the end. And of a
      log that is closed when it starts: without trouble, a stay of one round for each batch left and one
      more is enough for it to write all of it and end by itself. */
  method StreamTaskEvents(
    history: seq<TaskData>, afterSequence: Option<int>, lastEventId: Option<int>, turns: nat, trouble: bool)
    returns (written: Log, finished: bool, now: nat, ghost s: Stream)
    requires TaskHistory(history)
    ensures now < |history| && Sofar(s, history[now].log)
    ensures IsLater(s.start, afterSequence, lastEventId) && s.written == written
    ensures finished <==> s.pc == Returned(true)
    ensures !trouble && Enough(history[0], turns, s.start) ==>
              finished && WholeFrom(written, history[0].log, s.start)
  {
    now := Later(0, |history|);
    var after := ResumeAfter(afterSequence, lastEventId);
    ghost var sure := !trouble && Enough(history[0], turns, after);
    if sure {
      ClosedStands(history, 0, now);
    }
    var subscribed: bool := *;
    s := StreamStep(Open(after), history[now], Outside(!subscribed, false));
    OpenedIsSofar(history[now], after, subscribed);
    written := [];
    ghost var start := after;
    var left := turns;
    while left > 0
      invariant now < |history| && Sofar(s, history[now].log)
      invariant s.start == start && s.written == written && s.after == after
      invariant s.pc == Querying && s.subscribed == subscribed
      invariant sure ==> history[now].log == history[0].log && Enough(history[now], left, after)
    {
      left := left - 1;
      ghost var was := now;
      var turn, batch;
      turn, batch, now, s := Round(history, now, after, subscribed, trouble, s);
      written := written + batch;
      if sure {
        SureRound(history, was, now, left + 1, after, turn, batch, s);
      }
      if turn.Ended? {
        return written, turn.finished, now, s;
      }
      if |batch| > 0 {
        after := batch[|batch| - 1].sequence;
      }
    }
    return written, false, now, s;
  }
}
