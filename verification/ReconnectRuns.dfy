/** Runs in which Connect and the reconnect loop, or Connect and Close, get in each other's way. */
module ReconnectRuns {
  import opened Prelude
  import opened Reconnect
  import opened ReconnectClosing

  // ------------------------------------------------------------ from any reachable state

  lemma OneMove(c: Config, s: State, i: nat, choice: bool) returns (s': State)
    requires Inv(c, s) && Enabled(s, Move(i, choice)) && s.threads[i].pc != Report(Launch)
    ensures Legal(c, s, [Move(i, choice)]) && s' == Exec(c, s, [Move(i, choice)]) && Inv(c, s')
    ensures s'.g == EffectOf(c, s.g, s.threads[i], choice).g
    ensures s'.threads == s.threads[i := EffectOf(c, s.g, s.threads[i], choice).th]
  {
    s' := Moved(c, s, i, choice);
    StepInv(c, s, Move(i, choice));
    Unroll(c, s, [Move(i, choice)]);
  }

  lemma TwoMoves(c: Config, s: State, i: nat, choice: bool) returns (s': State)
    requires Inv(c, s) && i < |s.threads| && PublishingFirst(s.threads[i])
    ensures Legal(c, s, [Move(i, choice), Move(i, choice)]) && s' == Exec(c, s, [Move(i, choice), Move(i, choice)])
    ensures Inv(c, s') && s'.threads == s.threads[i := s.threads[i].(pc := Gone)]
    ensures s'.g.current == Held(s.threads[i]) && Open(s') && !s'.g.lock && s'.g.shutdown == s.g.shutdown
  {
    FlagsHeld(s, i);
    var s1 := OneMove(c, s, i, choice);
    s' := OneMove(c, s1, i, choice);
    Unroll(c, s, [Move(i, choice), Move(i, choice)]);
  }

  /** The last of them: the loop publishes over the open connection. */
  lemma Overwrites(c: Config, s: State, j: nat, choice: bool) returns (s': State)
    requires Inv(c, s) && Enabled(s, Move(j, choice)) && Publishing(s.threads[j]) && Open(s)
    ensures Legal(c, s, [Move(j, choice)]) && s' == Exec(c, s, [Move(j, choice)]) == Apply(c, s, Move(j, choice))
    ensures Lost(s', s.g.current.value)
  {
    s' := Moved(c, s, j, choice);
    EffectHands(c, s.g, s.threads[j], choice);
    OverwrittenLost(s, j, EffectOf(c, s.g, s.threads[j], choice));
    Unroll(c, s, [Move(j, choice)]);
  }

  lemma ThreeMoves(c: Config, s: State, j: nat, choice: bool) returns (s': State)
    requires Inv(c, s) && j < |s.threads| && s.threads[j].pc.Loop? && s.threads[j].pc.l.LockPublish?
    requires Open(s) && !s.g.lock && !s.g.shutdown
    ensures
      var run := [Move(j, choice), Move(j, choice), Move(j, choice)];
      Legal(c, s, run) && s' == Exec(c, s, run)
    ensures Lost(s', s.g.current.value)
  {
    var s1 := Moved(c, s, j, choice);
    StepInv(c, s, Move(j, choice));
    var s2 := Moved(c, s1, j, choice);
    StepInv(c, s1, Move(j, choice));
    s' := Overwrites(c, s2, j, choice);
    Unroll(c, s1, [Move(j, choice), Move(j, choice)]);
    Unroll(c, s, [Move(j, choice), Move(j, choice), Move(j, choice)]);
  }

  /** Whenever a Connect is about to publish and a loop has dialled its own connection, and
      Close has not been called, the two can go on so that Connect's connection is lost. */
  lemma IntrusionLoses(c: Config, s: State, i: nat, j: nat, choice: bool) returns (run: seq<Step>)
    requires Inv(c, s) && i < |s.threads| && j < |s.threads| && !s.g.shutdown
    requires PublishingFirst(s.threads[i]) && s.threads[j].pc.Loop? && s.threads[j].pc.l.LockPublish?
    ensures run == [Move(i, choice), Move(i, choice)] + [Move(j, choice), Move(j, choice), Move(j, choice)]
    ensures Legal(c, s, run) && Lost(Exec(c, s, run), Held(s.threads[i]).value)
  {
    var s1 := TwoMoves(c, s, i, choice);
    var s' := ThreeMoves(c, s1, j, choice);
    run := [Move(i, choice), Move(i, choice)] + [Move(j, choice), Move(j, choice), Move(j, choice)];
    Append(c, s, [Move(i, choice), Move(i, choice)], [Move(j, choice), Move(j, choice), Move(j, choice)]);
  }

  /** Whenever a Connect is about to publish after a Close has returned, it can go on to its end
      and leave its connection open and published. */
  lemma LateConnect(c: Config, s: State, i: nat, choice: bool) returns (run: seq<Step>)
    requires Inv(c, s) && i < |s.threads| && PublishingFirst(s.threads[i]) && Shut(s)
    ensures run == [Move(i, choice), Move(i, choice)] && Legal(c, s, run)
    ensures LeavesOpen(c, s, run) && Open(Exec(c, s, run))
    ensures Exec(c, s, run).threads == s.threads[i := s.threads[i].(pc := Gone)]
  {
    run := [Move(i, choice), Move(i, choice)];
    var s' := TwoMoves(c, s, i, choice);
    var s1 := Moved(c, s, i, choice);
    assert run[1..] == [Move(i, choice)];
    assert PublishesLate(s, run[0]) && NeverWithdraws(c, s1, run[1..]);
  }

  // ------------------------------------------------------------ reaching a state

  function Try(c: Config, s: State, e: Step): State { if Enabled(s, e) then Apply(c, s, e) else s }

  /** One thread takes several steps in a row. */
  function Play(c: Config, s: State, i: nat, choices: seq<bool>): State
    decreases |choices|
  {
    if choices == [] then s else Play(c, Try(c, s, Move(i, choices[0])), i, choices[1..])
  }

  ghost predicate Reaches(c: Config, s0: State, s: State) {
    exists run :: Legal(c, s0, run) && Exec(c, s0, run) == s
  }

  lemma ReachesItself(c: Config, s: State)
    ensures Reaches(c, s, s)
  {
    assert Exec(c, s, []) == s;
  }

  lemma TryReaches(c: Config, s0: State, s: State, e: Step)
    requires Reaches(c, s0, s)
    ensures Reaches(c, s0, Try(c, s, e))
  {
    var run :| Legal(c, s0, run) && Exec(c, s0, run) == s;
    if Enabled(s, e) {
      Unroll(c, s, [e]);
      Append(c, s0, run, [e]);
    }
  }

  lemma {:induction false} PlayReaches(c: Config, s0: State, s: State, i: nat, choices: seq<bool>)
    requires Reaches(c, s0, s)
    ensures Reaches(c, s0, Play(c, s, i, choices))
    decreases |choices|
  {
    if choices == [] {
    } else {
      TryReaches(c, s0, s, Move(i, choices[0]));
      PlayReaches(c, s0, Try(c, s, Move(i, choices[0])), i, choices[1..]);
    }
  }

  const DEFAULTS := Config(DEFAULT_BACKOFF_MIN, DEFAULT_BACKOFF_MAX, 0)

  const GONE := Thread(Gone, 0, 0)

  /** Nothing has been called. */
  const FRESH := State(Shared(false, false, false, false, false, [], None), [])

  // ------------------------------------------------------------ a lost connection

  const DIALLED_ONE := State(Shared(false, false, false, false, true, [false], None),
    [Thread(Connect(CheckVersion(0)), 0, 0)])

  const CONNECTED := State(Shared(false, false, false, false, false, [false], Some(0)), [GONE])

  const LOOP_STARTED := State(Shared(false, false, true, false, false, [false], Some(0)),
    [GONE, GONE, Thread(Loop(Top), 0, DEFAULT_BACKOFF_MIN)])

  /** The loop has closed the published connection, and dials. */
  const LOOP_DIALS := State(Shared(false, false, true, false, false, [true], None),
    [GONE, GONE, Thread(Loop(Dial), 1, DEFAULT_BACKOFF_MIN)])

  const SECOND_LOCKED := State(Shared(false, false, true, false, true, [true], None),
    [GONE, GONE, Thread(Loop(Dial), 1, DEFAULT_BACKOFF_MIN), Thread(Connect(DialFirst), 0, 0)])

  /** Meanwhile a second Connect has dialled its own. */
  const SECOND_PUBLISHES := State(Shared(false, false, true, false, true, [true, false], None),
    [GONE, GONE, Thread(Loop(Dial), 1, DEFAULT_BACKOFF_MIN), Thread(Connect(PublishFirst(1)), 0, 0)])

  /** Both have dialled. */
  const BOTH_DIALLED := State(Shared(false, false, true, false, true, [true, false, false], None),
    [GONE, GONE, Thread(Loop(LockPublish(2)), 1, DEFAULT_BACKOFF_MIN), Thread(Connect(PublishFirst(1)), 0, 0)])

  const SECOND_CONNECTED := State(Shared(false, false, true, false, false, [true, false, false], Some(1)),
    [GONE, GONE, Thread(Loop(LockPublish(2)), 1, DEFAULT_BACKOFF_MIN), GONE])

  const OVERWRITTEN := State(Shared(false, false, false, false, false, [true, false, false], Some(2)),
    [GONE, GONE, Thread(Gone, 1, DEFAULT_BACKOFF_MIN), GONE])

  /** A Close has run to its end. */
  const ONE_LOST := State(Shared(true, true, false, false, false, [true, false, true], Some(2)),
    [GONE, GONE, Thread(Gone, 1, DEFAULT_BACKOFF_MIN), GONE, Thread(Close(Returned), 0, 0)])

  lemma ToDialledOne()
    ensures Play(DEFAULTS, Try(DEFAULTS, FRESH, CallConnect), 0, [true, true, true, true]) == DIALLED_ONE
  {
  }

  lemma ToConnected()
    ensures Play(DEFAULTS, DIALLED_ONE, 0, [true, true, true]) == CONNECTED
  {
  }

  lemma ToLoopStarted()
    ensures Play(DEFAULTS, Try(DEFAULTS, CONNECTED, ReportError), 1, [true, true, true]) == LOOP_STARTED
  {
  }

  lemma ToLoopDials()
    ensures Play(DEFAULTS, LOOP_STARTED, 2, [true, true]) == LOOP_DIALS
  {
  }

  lemma ToSecondLocked()
    ensures Play(DEFAULTS, Try(DEFAULTS, LOOP_DIALS, CallConnect), 3, [true, true, true]) == SECOND_LOCKED
  {
  }

  lemma ToSecondPublishes()
    ensures Play(DEFAULTS, SECOND_LOCKED, 3, [true, true]) == SECOND_PUBLISHES
  {
  }

  lemma ToBothDialled()
    ensures Play(DEFAULTS, SECOND_PUBLISHES, 2, [true]) == BOTH_DIALLED
  {
  }

  lemma ToSecondConnected()
    ensures Play(DEFAULTS, BOTH_DIALLED, 3, [true, true]) == SECOND_CONNECTED
  {
  }

  lemma ToOverwritten()
    ensures Play(DEFAULTS, SECOND_CONNECTED, 2, [true, true, true, true]) == OVERWRITTEN
  {
  }

  lemma ToOneLost()
    ensures Play(DEFAULTS, Try(DEFAULTS, OVERWRITTEN, CallClose), 4, [true, true, true, true]) == ONE_LOST
  {
  }

  lemma ReachSecondPublishes()
    ensures Reaches(DEFAULTS, FRESH, SECOND_PUBLISHES)
  {
    ReachesItself(DEFAULTS, FRESH);
    TryReaches(DEFAULTS, FRESH, FRESH, CallConnect);
    ToDialledOne();
    PlayReaches(DEFAULTS, FRESH, Try(DEFAULTS, FRESH, CallConnect), 0, [true, true, true, true]);
    ToConnected();
    PlayReaches(DEFAULTS, FRESH, DIALLED_ONE, 0, [true, true, true]);
    TryReaches(DEFAULTS, FRESH, CONNECTED, ReportError);
    ToLoopStarted();
    PlayReaches(DEFAULTS, FRESH, Try(DEFAULTS, CONNECTED, ReportError), 1, [true, true, true]);
    ToLoopDials();
    PlayReaches(DEFAULTS, FRESH, LOOP_STARTED, 2, [true, true]);
    TryReaches(DEFAULTS, FRESH, LOOP_DIALS, CallConnect);
    ToSecondLocked();
    PlayReaches(DEFAULTS, FRESH, Try(DEFAULTS, LOOP_DIALS, CallConnect), 3, [true, true, true]);
    ToSecondPublishes();
    PlayReaches(DEFAULTS, FRESH, SECOND_LOCKED, 3, [true, true]);
  }

  /** A state in which the two can go on as IntrusionLoses says is reached from the beginning. */
  lemma ReachBothDialled()
    ensures Reaches(DEFAULTS, FRESH, BOTH_DIALLED) && Inv(DEFAULTS, BOTH_DIALLED) && !BOTH_DIALLED.g.shutdown
    ensures PublishingFirst(BOTH_DIALLED.threads[3]) && BOTH_DIALLED.threads[2].pc == Loop(LockPublish(2))
  {
    ReachSecondPublishes();
    ToBothDialled();
    PlayReaches(DEFAULTS, FRESH, SECOND_PUBLISHES, 2, [true]);
    InitInv(DEFAULTS, FRESH);
    var run :| Legal(DEFAULTS, FRESH, run) && Exec(DEFAULTS, FRESH, run) == BOTH_DIALLED;
    ExecInv(DEFAULTS, FRESH, run);
  }

  lemma ReachOneLost()
    ensures Reaches(DEFAULTS, FRESH, ONE_LOST)
  {
    ReachBothDialled();
    ToSecondConnected();
    PlayReaches(DEFAULTS, FRESH, BOTH_DIALLED, 3, [true, true]);
    ToOverwritten();
    PlayReaches(DEFAULTS, FRESH, SECOND_CONNECTED, 2, [true, true, true, true]);
    TryReaches(DEFAULTS, FRESH, OVERWRITTEN, CallClose);
    ToOneLost();
    PlayReaches(DEFAULTS, FRESH, Try(DEFAULTS, OVERWRITTEN, CallClose), 4, [true, true, true, true]);
  }

  lemma OneIsLost()
    ensures Over(ONE_LOST) && Lost(ONE_LOST, 1)
  {
    assert ONE_LOST.threads[4].pc == Close(Returned);
  }

  /** A run from the beginning, through such a state, after whose end a connection is lost. */
  lemma LossRun() returns (run: seq<Step>)
    ensures Init(FRESH) && Legal(DEFAULTS, FRESH, run) && Over(Exec(DEFAULTS, FRESH, run))
    ensures Exec(DEFAULTS, FRESH, run).g.conns == [true, false, true] && Lost(Exec(DEFAULTS, FRESH, run), 1)
    ensures !NeverOverwrites(DEFAULTS, FRESH, run)
  {
    ReachOneLost();
    run :| Legal(DEFAULTS, FRESH, run) && Exec(DEFAULTS, FRESH, run) == ONE_LOST;
    OneIsLost();
    InitInv(DEFAULTS, FRESH);
    LossExact(DEFAULTS, FRESH, run);
  }

  // ------------------------------------------------------------ a connection left open

  /** Connect has seen that Close was not called yet; then a Close runs to its end. */
  const CLOSED_FIRST := State(Shared(true, true, false, false, false, [], None),
    [Thread(Connect(ClearFailed), 0, 0), Thread(Close(Returned), 0, 0)])

  const DIALLED_LATE := State(Shared(true, true, false, false, true, [false], None),
    [Thread(Connect(CheckVersion(0)), 0, 0), Thread(Close(Returned), 0, 0)])

  const LEFT_OPEN := State(Shared(true, true, false, false, false, [false], Some(0)),
    [GONE, Thread(Close(Returned), 0, 0)])

  lemma ToClosedFirst()
    ensures
      var called := Play(DEFAULTS, Try(DEFAULTS, FRESH, CallConnect), 0, [true]);
      Play(DEFAULTS, Try(DEFAULTS, called, CallClose), 1, [true, true, true, true]) == CLOSED_FIRST
  {
  }

  lemma ToDialledLate()
    ensures Play(DEFAULTS, CLOSED_FIRST, 0, [true, true, true]) == DIALLED_LATE
  {
  }

  lemma ToLeftOpen()
    ensures Play(DEFAULTS, DIALLED_LATE, 0, [true, true, true]) == LEFT_OPEN
  {
  }

  lemma ReachLeftOpen()
    ensures Reaches(DEFAULTS, FRESH, LEFT_OPEN)
  {
    ReachesItself(DEFAULTS, FRESH);
    TryReaches(DEFAULTS, FRESH, FRESH, CallConnect);
    PlayReaches(DEFAULTS, FRESH, Try(DEFAULTS, FRESH, CallConnect), 0, [true]);
    var called := Play(DEFAULTS, Try(DEFAULTS, FRESH, CallConnect), 0, [true]);
    TryReaches(DEFAULTS, FRESH, called, CallClose);
    PlayReaches(DEFAULTS, FRESH, Try(DEFAULTS, called, CallClose), 1, [true, true, true, true]);
    ToClosedFirst();
    ToDialledLate();
    PlayReaches(DEFAULTS, FRESH, CLOSED_FIRST, 0, [true, true, true]);
    ToLeftOpen();
    PlayReaches(DEFAULTS, FRESH, DIALLED_LATE, 0, [true, true, true]);
  }

  /** A run from the beginning after whose end the published connection is open. */
  lemma LateRun() returns (run: seq<Step>)
    ensures Init(FRESH) && Legal(DEFAULTS, FRESH, run) && Over(Exec(DEFAULTS, FRESH, run))
    ensures Exec(DEFAULTS, FRESH, run).g.conns == [false] && Open(Exec(DEFAULTS, FRESH, run))
    ensures LeavesOpen(DEFAULTS, FRESH, run)
  {
    ReachLeftOpen();
    run :| Legal(DEFAULTS, FRESH, run) && Exec(DEFAULTS, FRESH, run) == LEFT_OPEN;
    assert LEFT_OPEN.threads[1].pc == Close(Returned);
    InitInv(DEFAULTS, FRESH);
    OpenExact(DEFAULTS, FRESH, run);
  }

  // ------------------------------------------------------------ an intrusion that does no harm

  const INTRUDED := State(Shared(false, false, true, false, true, [true, false], Some(1)),
    [GONE, GONE, Thread(Loop(Dial), 1, DEFAULT_BACKOFF_MIN), Thread(Connect(CloseReplaced(None)), 0, 0)])

  /** The loop's own dial fails. */
  const BACKING_OFF := State(Shared(false, false, true, false, false, [true, false], Some(1)),
    [GONE, GONE, Thread(Loop(Backoff), 1, DEFAULT_BACKOFF_MIN), GONE])

  const CLOSED_WAITING := State(Shared(true, true, true, false, false, [true, true], Some(1)),
    [GONE, GONE, Thread(Loop(Backoff), 1, DEFAULT_BACKOFF_MIN), GONE, Thread(Close(Returned), 0, 0)])

  const NOTHING_LEFT := State(Shared(true, true, false, false, false, [true, true], Some(1)),
    [GONE, GONE, Thread(Gone, 1, DEFAULT_BACKOFF_MIN), GONE, Thread(Close(Returned), 0, 0)])

  lemma ToIntruded()
    ensures Enabled(SECOND_PUBLISHES, Move(3, true)) && Apply(DEFAULTS, SECOND_PUBLISHES, Move(3, true)) == INTRUDED
    ensures Intrudes(SECOND_PUBLISHES, Move(3, true))
  {
    assert Unpublished(SECOND_PUBLISHES.threads[2]);
  }

  lemma ToBackingOff()
    ensures Play(DEFAULTS, Play(DEFAULTS, INTRUDED, 3, [true]), 2, [false, false]) == BACKING_OFF
  {
  }

  lemma ToClosedWaiting()
    ensures Play(DEFAULTS, Try(DEFAULTS, BACKING_OFF, CallClose), 4, [true, true, true, true]) == CLOSED_WAITING
  {
  }

  lemma ToNothingLeft()
    ensures Play(DEFAULTS, CLOSED_WAITING, 2, [false]) == NOTHING_LEFT
  {
  }

  lemma IntrudedGoesOn()
    ensures Reaches(DEFAULTS, INTRUDED, NOTHING_LEFT)
  {
    ReachesItself(DEFAULTS, INTRUDED);
    PlayReaches(DEFAULTS, INTRUDED, INTRUDED, 3, [true]);
    PlayReaches(DEFAULTS, INTRUDED, Play(DEFAULTS, INTRUDED, 3, [true]), 2, [false, false]);
    ToBackingOff();
    TryReaches(DEFAULTS, INTRUDED, BACKING_OFF, CallClose);
    ToClosedWaiting();
    PlayReaches(DEFAULTS, INTRUDED, Try(DEFAULTS, BACKING_OFF, CallClose), 4, [true, true, true, true]);
    ToNothingLeft();
    PlayReaches(DEFAULTS, INTRUDED, CLOSED_WAITING, 2, [false]);
  }

  lemma {:induction false} IntrusionWithin(c: Config, s: State, a: seq<Step>, b: seq<Step>)
    requires Legal(c, s, a) && b != [] && Legal(c, Exec(c, s, a), b) && Intrudes(Exec(c, s, a), b[0])
    ensures Legal(c, s, a + b) && !NoIntrusion(c, s, a + b)
    decreases |a|
  {
    Append(c, s, a, b);
    if a == [] {
      assert a + b == b;
    } else {
      assert (a + b)[1..] == a[1..] + b;
      IntrusionWithin(c, Apply(c, s, a[0]), a[1..], b);
    }
  }

  /** An intrusion need not lose anything: here a run with one closes every connection, because
      the loop's dial fails. */
  lemma HarmlessRun() returns (run: seq<Step>)
    ensures Init(FRESH) && Legal(DEFAULTS, FRESH, run) && Over(Exec(DEFAULTS, FRESH, run))
    ensures Exec(DEFAULTS, FRESH, run).g.conns == [true, true] && !NoIntrusion(DEFAULTS, FRESH, run)
  {
    ReachSecondPublishes();
    var a :| Legal(DEFAULTS, FRESH, a) && Exec(DEFAULTS, FRESH, a) == SECOND_PUBLISHES;
    ToIntruded();
    IntrudedGoesOn();
    var b :| Legal(DEFAULTS, INTRUDED, b) && Exec(DEFAULTS, INTRUDED, b) == NOTHING_LEFT;
    var rest := [Move(3, true)] + b;
    assert rest[1..] == b;
    Unroll(DEFAULTS, SECOND_PUBLISHES, rest);
    IntrusionWithin(DEFAULTS, FRESH, a, rest);
    Append(DEFAULTS, FRESH, a, rest);
    run := a + rest;
    assert NOTHING_LEFT.threads[4].pc == Close(Returned);
  }
}
