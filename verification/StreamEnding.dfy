/** Streams of a closed log come to their end: after a bounded number of steps, and never by waiting for ever. */
module StreamEnding {
  import opened Basics
  import opened TaskLifecycle
  import opened EventLog
  import opened Database
  import opened TaskInvariant
  import opened Replay
  import opened Streaming

  ghost function Unwritten(s: Stream, log: Log): nat {
    if s.after < |log| then |log| - s.after else 0
  }

  /** How many of its own steps a stream of a closed log has before it at most, idle waits aside. */
  ghost function Left(s: Stream, log: Log): nat {
    var u := Unwritten(s, log);
    match s.pc
    case Subscribing => 2 * u + 4
    case Querying => 2 * u + 3
    case Writing(_) => 2 * u + 2
    case Checking => if s.after >= |log| then 2 else 2 * u + 5
    case Confirming(latest) => if latest == |log| then 1 else 2 * u + 5
    case Waiting => 2 * u + 4
    case Returned(_) => 0
  }

  /** The sequence it resumes after is one the store accepts, and it has not given up. */
  ghost predicate Sane(s: Stream) {
    0 <= s.after <= MAX_SEQUENCE && s.pc != Returned(false)
  }

  ghost predicate Idles(s: Stream, o: Outside) {
    s.pc == Waiting && !o.heartbeat && !s.signal
  }

  /** On a closed log a step that neither fails nor idles takes the stream nearer its end, and the only
      end is the one by the terminal check. */
  lemma StepNearsEnd(s: Stream, td: TaskData, pending: set<int>, o: Outside)
    requires StreamInv(s, td.log, pending) && Readable(td) && IsClosed(td.log) && Sane(s)
    requires !o.fails && !Idles(s, o) && !s.pc.Returned?
    ensures var s' := StreamStep(s, td, o); Sane(s') && Left(s', td.log) < Left(s, td.log)
  {
    match s.pc
    case Querying => QueryNearsEnd(s, td, o);
    case Confirming(latest) => TerminalRead(td.log, latest);
    case _ =>
  }

  lemma QueryNearsEnd(s: Stream, td: TaskData, o: Outside)
    requires s.pc == Querying && Readable(td) && Sane(s) && !o.fails
    ensures var s' := StreamStep(s, td, o);
            && s'.after == s.after && (s'.pc.Writing? || s'.pc == Checking)
            && (s'.pc == Checking ==> s.after >= |td.log|)
  {
    SelectIsSlice(td.log, s.after, MAX_SEQUENCE, MAX_REPLAY_BATCH);
  }

  lemma NearStep(h: Hub, o: Outside, i: nat)
    requires HubInv(h) && IsClosed(h.td.log) && i < |h.streams| && Sane(h.streams[i]) && !o.fails
    requires Left(h.streams[i], h.td.log) <= 3
    ensures var h' := Act(h, Advance(i, o));
            && HubInv(h') && h'.td == h.td && i < |h'.streams| && Sane(h'.streams[i])
            && (if Left(h.streams[i], h.td.log) == 0 then Left(h'.streams[i], h.td.log) == 0
                else Left(h'.streams[i], h.td.log) < Left(h.streams[i], h.td.log))
  {
    ActKeeps(h, Advance(i, o));
    assert StreamInv(h.streams[i], h.td.log, h.pending);
    if !h.streams[i].pc.Returned? {
      StepNearsEnd(h.streams[i], h.td, h.pending, o);
    }
  }

  /** A stream that queries a closed log it has written is done in three steps, and never waits. */
  lemma SeenAllEndsAtOnce(h: Hub, i: nat, a: Outside, b: Outside, c: Outside)
    requires HubInv(h) && IsClosed(h.td.log) && i < |h.streams| && !a.fails && !b.fails && !c.fails
    requires var s := h.streams[i]; s.pc == Querying && |h.td.log| <= s.after <= MAX_SEQUENCE
    ensures var end := Act(Act(Act(h, Advance(i, a)), Advance(i, b)), Advance(i, c));
            i < |end.streams| && end.streams[i].pc == Returned(true)
  {
    NearStep(h, a, i);
    NearStep(Act(h, Advance(i, a)), b, i);
    NearStep(Act(Act(h, Advance(i, a)), Advance(i, b)), c, i);
    ReturnedIsDone(Act(Act(Act(h, Advance(i, a)), Advance(i, b)), Advance(i, c)).streams[i], h.td.log);
  }

  /** How many of the actions are steps of stream `i`. */
  ghost function OwnSteps(actions: seq<Action>, i: nat): nat {
    if |actions| == 0 then 0
    else
      var a := actions[|actions| - 1];
      OwnSteps(actions[..|actions| - 1], i) + if a.Advance? && a.id == i then 1 else 0
  }

  /** The stream is subscribed, or is about to be; otherwise it lives on heartbeats. */
  ghost predicate Subscribes(s: Stream) {
    s.subscribed || s.pc == Subscribing
  }

  ghost predicate Lively(a: Action, i: nat, subscribes: bool) {
    a.Advance? && a.id == i ==> !a.outside.fails && (subscribes || a.outside.heartbeat)
  }

  /** No subscribed stream idles at a closed log whose notifications have run. */
  lemma NoIdleWait(h: Hub, i: nat)
    requires HubInv(h) && IsClosed(h.td.log) && h.pending == {} && i < |h.streams|
    requires h.streams[i].pc == Waiting && h.streams[i].subscribed
    ensures h.streams[i].signal
  {
    assert StreamInv(h.streams[i], h.td.log, h.pending);
    assert |h.td.log| !in h.pending;
  }

  ghost predicate Over(h: Hub) {
    HubInv(h) && IsClosed(h.td.log) && h.pending == {}
  }

  lemma OthersLeaveStream(h: Hub, a: Action, i: nat)
    requires Over(h) && i < |h.streams| && !(a.Advance? && a.id == i)
    ensures var h' := Act(h, a);
            && Over(h') && h'.td.log == h.td.log && i < |h'.streams|
            && Left(h'.streams[i], h'.td.log) == Left(h.streams[i], h.td.log)
            && (Sane(h.streams[i]) ==> Sane(h'.streams[i])) && (Subscribes(h.streams[i]) ==> Subscribes(h'.streams[i]))
  {
    ActKeeps(h, a);
    if Enabled(h, a) && a.Commit? {
      CommitIsReadable(h.td, a.td);
      assert Numbers(|h.td.log|, |h.td.log|) == {};
    }
  }

  lemma OwnStepNearsEnd(h: Hub, o: Outside, i: nat)
    requires Over(h) && i < |h.streams| && Sane(h.streams[i]) && !o.fails
    requires Subscribes(h.streams[i]) || o.heartbeat
    ensures var h' := Act(h, Advance(i, o));
            && Over(h') && h'.td.log == h.td.log && i < |h'.streams| && Sane(h'.streams[i])
            && (Subscribes(h.streams[i]) ==> Subscribes(h'.streams[i]))
            && (if Left(h.streams[i], h.td.log) == 0 then Left(h'.streams[i], h.td.log) == 0
                else Left(h'.streams[i], h.td.log) < Left(h.streams[i], h.td.log))
  {
    var s := h.streams[i];
    ActKeeps(h, Advance(i, o));
    assert StreamInv(s, h.td.log, h.pending);
    if !s.pc.Returned? {
      if s.pc == Waiting && s.subscribed {
        NoIdleWait(h, i);
      }
      StepNearsEnd(s, h.td, h.pending, o);
    }
  }

  /** Once the log is closed and its notifications have run, every step of a stream takes it nearer the
      end, whatever else happens in between. */
  lemma {:induction false} OwnStepsNearEnd(h: Hub, actions: seq<Action>, i: nat)
    requires Over(h) && i < |h.streams| && Sane(h.streams[i])
    requires forall a :: a in actions ==> Lively(a, i, Subscribes(h.streams[i]))
    ensures var h' := Run(h, actions);
            && Over(h') && h'.td.log == h.td.log && i < |h'.streams| && Sane(h'.streams[i])
            && (Subscribes(h.streams[i]) ==> Subscribes(h'.streams[i]))
            && (Left(h'.streams[i], h.td.log) == 0
                || Left(h'.streams[i], h.td.log) + OwnSteps(actions, i) <= Left(h.streams[i], h.td.log))
  {
    if |actions| > 0 {
      var pre, a := actions[..|actions| - 1], actions[|actions| - 1];
      OwnStepsNearEnd(h, pre, i);
      if a.Advance? && a.id == i {
        assert Lively(a, i, Subscribes(h.streams[i]));
        OwnStepNearsEnd(Run(h, pre), a.outside, i);
      } else {
        OthersLeaveStream(Run(h, pre), a, i);
      }
    }
  }

  lemma ReturnedIsDone(s: Stream, log: Log)
    ensures Left(s, log) == 0 <==> s.pc.Returned?
  {
  }

  /** Every stream of a closed log ends: after as many of its own steps as `Left` says, none of which
      fails, it has returned by its terminal check, with the log from its start on written. */
  lemma ClosedStreamEnds(h: Hub, actions: seq<Action>, i: nat)
    requires Over(h) && i < |h.streams| && Sane(h.streams[i])
    requires forall a :: a in actions ==> Lively(a, i, Subscribes(h.streams[i]))
    requires OwnSteps(actions, i) >= Left(h.streams[i], h.td.log)
    ensures i < |Run(h, actions).streams|
    ensures var s := Run(h, actions).streams[i];
            && s.pc == Returned(true)
            && (0 <= s.start <= |h.td.log| ==> s.written == h.td.log[s.start..])
  {
    OwnStepsNearEnd(h, actions, i);
    var h' := Run(h, actions);
    ReturnedIsDone(h'.streams[i], h.td.log);
    assert StreamInv(h'.streams[i], h'.td.log, h'.pending);
  }
}
