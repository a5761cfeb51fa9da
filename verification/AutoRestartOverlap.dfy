/** The limit on restarts when a user start takes a ticket between a restart's drain and its
    count: one run that exceeds it. */
module AutoRestartOverlap {
  import opened AutoRestart

  function Try(c: Config, s: State, e: Step): State { if Enabled(s, e) then Apply(c, s, e) else s }

  /** One thread takes several steps in a row. */
  function Play(c: Config, s: State, i: nat, choices: seq<bool>): State
    decreases |choices|
  {
    if choices == [] then s else Play(c, Try(c, s, Move(i, choices[0])), i, choices[1..])
  }

  ghost predicate Reaches(c: Config, s0: State, s: State) {
    exists run :: Legal(c, s0, run) && Exec(c, s0, run) == s
  }

  lemma {:induction false} LegalAppend(c: Config, s: State, run: seq<Step>, e: Step)
    requires Legal(c, s, run) && Enabled(Exec(c, s, run), e)
    ensures Legal(c, s, run + [e]) && Exec(c, s, run + [e]) == Apply(c, Exec(c, s, run), e)
    decreases |run|
  {
    if run == [] {
      assert run + [e] == [e];
    } else {
      assert (run + [e])[1..] == run[1..] + [e];
      LegalAppend(c, Apply(c, s, run[0]), run[1..], e);
    }
  }

  lemma TryReaches(c: Config, s0: State, s: State, e: Step)
    requires Reaches(c, s0, s)
    ensures Reaches(c, s0, Try(c, s, e))
  {
    var run :| Legal(c, s0, run) && Exec(c, s0, run) == s;
    if Enabled(s, e) { LegalAppend(c, s0, run, e); }
  }

  lemma {:induction false} PlayReaches(c: Config, s0: State, s: State, i: nat, choices: seq<bool>)
    requires Reaches(c, s0, s)
    ensures Reaches(c, s0, Play(c, s, i, choices))
    decreases |choices|
  {
    if choices == [] {
    } else {
      TryReaches(c, s0, s, Move(i, choices[0]));
      PlayReaches(c, s0, Try(c, s, Move(i, choices[0])), i, choices[1..]);
    }
  }

  /** At most one restart; a subprocess on standard input and output, without health checks. */
  const ONE := Config(true, 1, false, true)

  const REGISTERED := State(Pending, false, false, 0, [false], 0, [])

  const FIRST_CALL := State(Pending, false, false, 0, [false], 0, [Thread(User, ClearMarker, 0)])

  const FIRST_CONNECTS := State(Starting, false, false, 0, [false, false], 0, [Thread(User, Core(Connect), 1)])

  const FIRST_CHECKED := State(Starting, false, false, 0, [false, false], 1,
    [Thread(User, Core(SetRunning), 1), Thread(Monitor, Watch(Watching), 0)])

  /** The first child runs, watched by its monitor. */
  const FIRST_RUNNING := State(Running, false, false, 0, [false, false], 1,
    [Thread(User, Gone, 1), Thread(Monitor, Watch(Watching), 0)])

  /** It has crashed, and its monitor is about to launch the restart. */
  const FIRST_CRASHED := State(Failed, false, true, 0, [false, false], 1,
    [Thread(User, Gone, 1), Thread(Monitor, Watch(Spawn), 1)])

  const RESTART_LAUNCHED := State(Failed, false, true, 0, [false, false], 0,
    [Thread(User, Gone, 1), Thread(Monitor, Gone, 1), Thread(Restart, Loop(Top), 0)])

  const SECOND_CALL := State(Failed, false, true, 0, [false, false], 0,
    [Thread(User, Gone, 1), Thread(Monitor, Gone, 1), Thread(Restart, Loop(Top), 0), Thread(User, ClearMarker, 0)])

  /** The restart has found the wait group empty; a user has called start. */
  const ABOUT_TO_COUNT := State(Failed, false, true, 0, [false, true], 0,
    [Thread(User, Gone, 1), Thread(Monitor, Gone, 1),
     Thread(Restart, Loop(CountUp), 1), Thread(User, ClearMarker, 0)])

  const SECOND_STARTING := State(Starting, false, true, 0, [false, true], 0,
    [Thread(User, Gone, 1), Thread(Monitor, Gone, 1),
     Thread(Restart, Loop(CountUp), 1), Thread(User, Core(NewLife), 1)])

  const SECOND_CONNECTED := State(Starting, false, true, 0, [false, true, false], 1,
    [Thread(User, Gone, 1), Thread(Monitor, Gone, 1),
     Thread(Restart, Loop(CountUp), 1), Thread(User, Core(LastCheck), 2), Thread(Monitor, Watch(Watching), 0)])

  const SECOND_CHECKED := State(Starting, false, true, 0, [false, true, false], 1,
    [Thread(User, Gone, 1), Thread(Monitor, Gone, 1),
     Thread(Restart, Loop(CountUp), 1), Thread(User, Core(SetRunning), 2), Thread(Monitor, Watch(Watching), 0)])

  /** The second child runs; the first restart has not counted yet. */
  const SECOND_RUNNING := State(Running, false, true, 0, [false, true, false], 1,
    [Thread(User, Gone, 1), Thread(Monitor, Gone, 1),
     Thread(Restart, Loop(CountUp), 1), Thread(User, Gone, 2), Thread(Monitor, Watch(Watching), 0)])

  /** The second child has crashed, and its monitor is past the budget check. */
  const SECOND_CLEARED := State(Failed, false, true, 0, [false, true, false], 1,
    [Thread(User, Gone, 1), Thread(Monitor, Gone, 1),
     Thread(Restart, Loop(CountUp), 1), Thread(User, Gone, 2), Thread(Monitor, Watch(Cas), 2)])

  /** The first restart has counted. */
  const RESETTING := State(Failed, false, true, 1, [false, true, false], 1,
    [Thread(User, Gone, 1), Thread(Monitor, Gone, 1),
     Thread(Restart, Loop(Reset), 2), Thread(User, Gone, 2), Thread(Monitor, Watch(Cas), 2)])

  const COUNTED_ONCE := State(Starting, false, true, 1, [false, true, false], 1,
    [Thread(User, Gone, 1), Thread(Monitor, Gone, 1),
     Thread(Restart, Core(Marker1), 2), Thread(User, Gone, 2), Thread(Monitor, Watch(Cas), 2)])

  const THIRD_CONNECTED := State(Starting, false, true, 1, [false, true, false, false], 2,
    [Thread(User, Gone, 1), Thread(Monitor, Gone, 1),
     Thread(Restart, Core(LastCheck), 3), Thread(User, Gone, 2), Thread(Monitor, Watch(Cas), 2),
     Thread(Monitor, Watch(Watching), 0)])

  const THIRD_CHECKED := State(Starting, false, true, 1, [false, true, false, false], 2,
    [Thread(User, Gone, 1), Thread(Monitor, Gone, 1),
     Thread(Restart, Core(SetRunning), 3), Thread(User, Gone, 2), Thread(Monitor, Watch(Cas), 2),
     Thread(Monitor, Watch(Watching), 0)])

  /** The first restart has counted, started a third child, and released the flag. */
  const THIRD_RUNNING := State(Running, false, false, 1, [false, true, false, false], 2,
    [Thread(User, Gone, 1), Thread(Monitor, Gone, 1),
     Thread(Restart, Gone, 3), Thread(User, Gone, 2), Thread(Monitor, Watch(Cas), 2),
     Thread(Monitor, Watch(Watching), 0)])

  /** The monitor's restart is on its way. */
  const RESTART_AGAIN := State(Running, false, true, 1, [false, true, false, false], 1,
    [Thread(User, Gone, 1), Thread(Monitor, Gone, 1),
     Thread(Restart, Gone, 3), Thread(User, Gone, 2), Thread(Monitor, Gone, 3), Thread(Monitor, Watch(Watching), 0),
     Thread(Restart, Loop(Top), 0)])

  const SECOND_DRAIN := State(Running, false, true, 1, [false, true, false, true], 1,
    [Thread(User, Gone, 1), Thread(Monitor, Gone, 1),
     Thread(Restart, Gone, 3), Thread(User, Gone, 2), Thread(Monitor, Gone, 3), Thread(Monitor, Watch(Watching), 0),
     Thread(Restart, Loop(Drain), 3)])

  /** The third child has exited, so nothing holds a ticket. */
  const THIRD_EXITED := State(Failed, false, true, 1, [false, true, false, true], 0,
    [Thread(User, Gone, 1), Thread(Monitor, Gone, 1),
     Thread(Restart, Gone, 3), Thread(User, Gone, 2), Thread(Monitor, Gone, 3), Thread(Monitor, Gone, 3),
     Thread(Restart, Loop(Drain), 3)])

  /** The second restart has counted. */
  const COUNTED_TWICE := State(Failed, false, true, 2, [false, true, false, true], 0,
    [Thread(User, Gone, 1), Thread(Monitor, Gone, 1),
     Thread(Restart, Gone, 3), Thread(User, Gone, 2), Thread(Monitor, Gone, 3), Thread(Monitor, Gone, 3),
     Thread(Restart, Loop(Recheck), 3)])

  lemma ToFirstCall()
    ensures Try(ONE, REGISTERED, CallStart) == FIRST_CALL
  {
  }

  lemma ToFirstConnects()
    ensures Play(ONE, FIRST_CALL, 0, [false, false, false, false, false]) == FIRST_CONNECTS
  {
  }

  lemma ToFirstChecked()
    ensures Play(ONE, FIRST_CONNECTS, 0, [false, false]) == FIRST_CHECKED
  {
  }

  lemma ToFirstRunning()
    ensures Play(ONE, FIRST_CHECKED, 0, [false, false]) == FIRST_RUNNING
  {
  }

  lemma ToFirstCrashed()
    ensures Play(ONE, FIRST_RUNNING, 1, [true, false, false, false, false]) == FIRST_CRASHED
  {
  }

  lemma ToRestartLaunched()
    ensures Play(ONE, FIRST_CRASHED, 1, [false]) == RESTART_LAUNCHED
  {
  }

  lemma ToSecondCall()
    ensures Try(ONE, RESTART_LAUNCHED, CallStart) == SECOND_CALL
  {
  }

  lemma ToAboutToCount()
    ensures Play(ONE, SECOND_CALL, 2, [false, false, false, false, false]) == ABOUT_TO_COUNT
  {
  }

  lemma ToSecondStarting()
    ensures Play(ONE, ABOUT_TO_COUNT, 3, [false, false, false]) == SECOND_STARTING
  {
  }

  lemma ToSecondConnected()
    ensures Play(ONE, SECOND_STARTING, 3, [false, false, false]) == SECOND_CONNECTED
  {
  }

  lemma ToSecondRunning()
    ensures Play(ONE, SECOND_CHECKED, 3, [false, false]) == SECOND_RUNNING
  {
  }

  lemma ToSecondChecked()
    ensures Play(ONE, SECOND_CONNECTED, 3, [false]) == SECOND_CHECKED
  {
  }

  lemma ToSecondCleared()
    ensures Play(ONE, SECOND_RUNNING, 4, [true, false, false, false]) == SECOND_CLEARED
  {
  }

  lemma ToResetting()
    ensures Play(ONE, SECOND_CLEARED, 2, [false, false]) == RESETTING
  {
  }

  lemma ToCountedOnce()
    ensures Play(ONE, RESETTING, 2, [false, false]) == COUNTED_ONCE
  {
  }

  lemma ToThirdConnected()
    ensures Play(ONE, COUNTED_ONCE, 2, [false, false, false, false]) == THIRD_CONNECTED
  {
  }

  lemma ToThirdChecked()
    ensures Play(ONE, THIRD_CONNECTED, 2, [false]) == THIRD_CHECKED
  {
  }

  lemma ToThirdRunning()
    ensures Play(ONE, THIRD_CHECKED, 2, [false, false]) == THIRD_RUNNING
  {
  }

  lemma ToRestartAgain()
    ensures Play(ONE, THIRD_RUNNING, 4, [false, false]) == RESTART_AGAIN
  {
  }

  lemma ToSecondDrain()
    ensures Play(ONE, RESTART_AGAIN, 6, [false, false, false, false]) == SECOND_DRAIN
  {
  }

  lemma ToThirdExited()
    ensures Play(ONE, SECOND_DRAIN, 5, [true, false, false]) == THIRD_EXITED
  {
  }

  lemma ToCountedTwice()
    ensures Play(ONE, THIRD_EXITED, 6, [false, false]) == COUNTED_TWICE
  {
  }

  /** A second start lets the first restart count itself while the second child's monitor
      is already past the budget check; that monitor then launches another restart. */
  lemma OverlapBreaksBudget() returns (s0: State, run: seq<Step>)
    ensures Init(s0) && Legal(ONE, s0, run) && Exec(ONE, s0, run).count > ONE.max > 0
  {
    s0 := REGISTERED;
    assert Exec(ONE, REGISTERED, []) == REGISTERED;
    assert Reaches(ONE, REGISTERED, REGISTERED);
    ToFirstCall();
    TryReaches(ONE, REGISTERED, REGISTERED, CallStart);
    ToFirstConnects();
    PlayReaches(ONE, REGISTERED, FIRST_CALL, 0, [false, false, false, false, false]);
    ToFirstChecked();
    PlayReaches(ONE, REGISTERED, FIRST_CONNECTS, 0, [false, false]);
    ToFirstRunning();
    PlayReaches(ONE, REGISTERED, FIRST_CHECKED, 0, [false, false]);
    ToFirstCrashed();
    PlayReaches(ONE, REGISTERED, FIRST_RUNNING, 1, [true, false, false, false, false]);
    ToRestartLaunched();
    PlayReaches(ONE, REGISTERED, FIRST_CRASHED, 1, [false]);
    ToSecondCall();
    TryReaches(ONE, REGISTERED, RESTART_LAUNCHED, CallStart);
    ToAboutToCount();
    PlayReaches(ONE, REGISTERED, SECOND_CALL, 2, [false, false, false, false, false]);
    ToSecondStarting();
    PlayReaches(ONE, REGISTERED, ABOUT_TO_COUNT, 3, [false, false, false]);
    ToSecondConnected();
    PlayReaches(ONE, REGISTERED, SECOND_STARTING, 3, [false, false, false]);
    ToSecondChecked();
    PlayReaches(ONE, REGISTERED, SECOND_CONNECTED, 3, [false]);
    ToSecondRunning();
    PlayReaches(ONE, REGISTERED, SECOND_CHECKED, 3, [false, false]);
    ToSecondCleared();
    PlayReaches(ONE, REGISTERED, SECOND_RUNNING, 4, [true, false, false, false]);
    ToResetting();
    PlayReaches(ONE, REGISTERED, SECOND_CLEARED, 2, [false, false]);
    ToCountedOnce();
    PlayReaches(ONE, REGISTERED, RESETTING, 2, [false, false]);
    ToThirdConnected();
    PlayReaches(ONE, REGISTERED, COUNTED_ONCE, 2, [false, false, false, false]);
    ToThirdChecked();
    PlayReaches(ONE, REGISTERED, THIRD_CONNECTED, 2, [false]);
    ToThirdRunning();
    PlayReaches(ONE, REGISTERED, THIRD_CHECKED, 2, [false, false]);
    ToRestartAgain();
    PlayReaches(ONE, REGISTERED, THIRD_RUNNING, 4, [false, false]);
    ToSecondDrain();
    PlayReaches(ONE, REGISTERED, RESTART_AGAIN, 6, [false, false, false, false]);
    ToThirdExited();
    PlayReaches(ONE, REGISTERED, SECOND_DRAIN, 5, [true, false, false]);
    ToCountedTwice();
    PlayReaches(ONE, REGISTERED, THIRD_EXITED, 6, [false, false]);
    run :| Legal(ONE, REGISTERED, run) && Exec(ONE, REGISTERED, run) == COUNTED_TWICE;
  }
}
