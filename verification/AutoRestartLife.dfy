/** What a restart, a user's start, a failure and a stop do when nobody interferes. */
module AutoRestartLife {
  import opened Prelude
  import opened Counting
  import opened AutoRestart
  import opened AutoRestartOverlap

  /** One thread takes several steps in a row, and the environment always decides the same way. */
  function InARow(i: nat, n: nat, choice: bool): seq<Step> { seq(n, k => Move(i, choice)) }

  /** That is possible, and leads to the second state. */
  ghost predicate Goes(c: Config, s: State, i: nat, n: nat, choice: bool, s': State) {
    Legal(c, s, InARow(i, n, choice)) && Exec(c, s, InARow(i, n, choice)) == s'
  }

  lemma GoesNowhere(c: Config, s: State, i: nat, choice: bool)
    ensures Goes(c, s, i, 0, choice, s)
  {
    assert InARow(i, 0, choice) == [];
  }

  lemma GoesOn(c: Config, s0: State, i: nat, n: nat, choice: bool, s: State)
    requires Goes(c, s0, i, n, choice, s) && Enabled(s, Move(i, choice))
    ensures Goes(c, s0, i, n + 1, choice, Apply(c, s, Move(i, choice)))
  {
    LegalAppend(c, s0, InARow(i, n, choice), Move(i, choice));
    assert InARow(i, n, choice) + [Move(i, choice)] == InARow(i, n + 1, choice);
  }

  /** One more step of thread i, which starts no thread and keeps its ticket or has none. */
  lemma Plain(c: Config, s0: State, i: nat, n: nat, choice: bool, s: State) returns (s': State)
    requires Goes(c, s0, i, n, choice, s) && Enabled(s, Move(i, choice))
    requires EffectOf(c, s, s.threads[i], choice).spawn == None
    requires Ticket(s.threads[i].(pc := EffectOf(c, s, s.threads[i], choice).pc)) == Ticket(s.threads[i])
    ensures Goes(c, s0, i, n + 1, choice, s')
    ensures
      var e := EffectOf(c, s, s.threads[i], choice);
      s' == State(e.status, e.stopped, e.restarting, e.count, e.lives, s.wg,
                  s.threads[i := Thread(s.threads[i].role, e.pc, Current(s))])
  {
    s' := Apply(c, s, Move(i, choice));
    GoesOn(c, s0, i, n, choice, s);
    assert forall ts: seq<Thread> :: ts + [] == ts;
  }

  /** Only thread i has moved, to this program counter; the other shared values are as before. */
  predicate Moved(s: State, s': State, i: nat, pc: Pc) {
    && i < |s.threads| == |s'.threads| && s'.threads[i].role == s.threads[i].role && s'.threads[i].pc == pc
    && (forall j :: 0 <= j < |s.threads| && j != i ==> s'.threads[j] == s.threads[j])
    && s'.stopped == s.stopped && s'.wg == s.wg
  }

  lemma RestartWaits(c: Config, s: State, i: nat) returns (s': State)
    requires i < |s.threads| && s.threads[i].role == Restart && s.threads[i].pc == Loop(Top)
    ensures Goes(c, s, i, 2, false, s') && Moved(s, s', i, Loop(Marker))
    ensures s'.count == s.count && s'.restarting == s.restarting && s'.status == s.status && s'.lives == s.lives
  {
    GoesNowhere(c, s, i, false);
    var s1 := Plain(c, s, i, 0, false, s);
    s' := Plain(c, s, i, 1, false, s1);
  }

  /** From its start to the drain, a restart cancels the lifecycle of the instance it replaces. */
  lemma RestartCancels(c: Config, s: State, i: nat) returns (s': State)
    requires i < |s.threads| && s.threads[i].role == Restart && s.threads[i].pc == Loop(Top) && !s.stopped
    ensures Goes(c, s, i, 4, false, s') && Moved(s, s', i, Loop(Drain))
    ensures s'.count == s.count && s'.restarting == s.restarting && s'.status == s.status
    ensures s'.lives == if s.lives == [] then [] else s.lives[|s.lives| - 1 := true]
  {
    var s1 := RestartWaits(c, s, i);
    var s2 := Plain(c, s, i, 2, false, s1);
    s' := Plain(c, s, i, 3, false, s2);
  }

  lemma Counts(c: Config, s: State, i: nat) returns (s': State)
    requires i < |s.threads| && s.threads[i].role == Restart && s.threads[i].pc == Loop(Drain) && s.wg == 0
    ensures Goes(c, s, i, 2, false, s') && Moved(s, s', i, Loop(Recheck))
    ensures s'.count == s.count + 1 && s'.restarting == s.restarting && s'.lives == s.lives
  {
    GoesNowhere(c, s, i, false);
    var s1 := Plain(c, s, i, 0, false, s);
    s' := Plain(c, s, i, 1, false, s1);
  }

  /** Once everybody has drained, it counts itself and starts over. */
  lemma RestartCounts(c: Config, s: State, i: nat) returns (s': State)
    requires i < |s.threads| && s.threads[i].role == Restart && s.threads[i].pc == Loop(Drain)
    requires !s.stopped && s.wg == 0
    ensures Goes(c, s, i, 4, false, s') && Moved(s, s', i, Core(Enter))
    ensures s'.count == s.count + 1 && s'.restarting == s.restarting && s'.status == Stopped && s'.lives == s.lives
  {
    var s1 := Counts(c, s, i);
    var s2 := Plain(c, s, i, 2, false, s1);
    s' := Plain(c, s, i, 3, false, s2);
  }

  /** A start takes the state and installs a fresh lifecycle. */
  lemma StartArms(c: Config, s0: State, i: nat, n: nat, s: State) returns (s': State)
    requires Goes(c, s0, i, n, false, s) && i < |s.threads| && s.threads[i].pc == Core(Enter) && !s.stopped
    requires s.threads[i].role == Restart || s.threads[i].role == User
    requires s.status != Running && s.status != Starting && s.status != Stopping
    ensures Goes(c, s0, i, n + 4, false, s') && Moved(s, s', i, Core(Connect))
    ensures s'.count == s.count && s'.restarting == s.restarting && s'.status == Starting
    ensures s'.lives == s.lives + [false]
  {
    var s1 := Plain(c, s0, i, n, false, s);
    var s2 := Plain(c, s0, i, n + 1, false, s1);
    var s3 := Plain(c, s0, i, n + 2, false, s2);
    s' := Plain(c, s0, i, n + 3, false, s3);
  }

  /** The threads a start launches: the exit monitor of a child process, the health loop. */
  function Watchers(c: Config): seq<Thread> { MonitorOf(c) + HealthOf(c) }

  function MonitorOf(c: Config): seq<Thread> { if c.stdio then [Thread(Monitor, Watch(Watching), 0)] else [] }

  function HealthOf(c: Config): seq<Thread> { if c.health then [Thread(Health, Watch(Begin), 0)] else [] }

  /** Thread i has moved to this program counter and has launched these ticket holders. */
  predicate Launched(s: State, s': State, i: nat, pc: Pc, new_: seq<Thread>) {
    && i < |s.threads| && |s'.threads| == |s.threads| + |new_|
    && s'.threads[i].role == s.threads[i].role && s'.threads[i].pc == pc
    && (forall j :: 0 <= j < |s.threads| && j != i ==> s'.threads[j] == s.threads[j])
    && s'.threads[|s.threads|..] == new_
    && s'.stopped == s.stopped && s'.wg == s.wg + |new_| && s'.lives == s.lives && s'.count == s.count
  }

  lemma Connects(c: Config, s0: State, i: nat, n: nat, s: State) returns (s': State)
    requires Goes(c, s0, i, n, false, s) && i < |s.threads| && s.threads[i].pc == Core(Connect)
    requires s.threads[i].role == Restart || s.threads[i].role == User
    ensures Goes(c, s0, i, n + 1, false, s') && Launched(s, s', i, Core(LastCheck), MonitorOf(c))
    ensures s'.restarting == s.restarting
  {
    s' := Apply(c, s, Move(i, false));
    GoesOn(c, s0, i, n, false, s);
  }

  lemma LaunchesHealth(c: Config, s0: State, i: nat, n: nat, s: State) returns (s': State)
    requires Goes(c, s0, i, n, false, s) && i < |s.threads| && s.threads[i].pc == Core(StartHealth)
    requires s.threads[i].role == Restart || s.threads[i].role == User
    ensures Goes(c, s0, i, n + 1, false, s') && Launched(s, s', i, Gone, HealthOf(c))
    ensures s'.status == s.status && s'.restarting == (s.restarting && s.threads[i].role != Restart)
  {
    s' := Apply(c, s, Move(i, false));
    GoesOn(c, s0, i, n, false, s);
  }

  lemma LastChecks(c: Config, s0: State, i: nat, n: nat, s: State) returns (s': State)
    requires Goes(c, s0, i, n, false, s) && i < |s.threads| && s.threads[i].pc == Core(LastCheck) && !s.stopped
    requires s.threads[i].role == Restart || s.threads[i].role == User
    requires s.lives != [] && !s.lives[|s.lives| - 1]
    ensures Goes(c, s0, i, n + 2, false, s') && Launched(s, s', i, Core(StartHealth), [])
    ensures s'.status == Running && s'.restarting == s.restarting
  {
    var s1 := Plain(c, s0, i, n, false, s);
    s' := Plain(c, s0, i, n + 1, false, s1);
  }

  lemma LaunchedTwice(s: State, s1: State, s2: State, i: nat, p1: Pc, p2: Pc, a: seq<Thread>, b: seq<Thread>)
    requires Launched(s, s1, i, p1, a) && Launched(s1, s2, i, p2, b)
    ensures Launched(s, s2, i, p2, a + b)
  {
    var n := |s.threads|;
    forall j | 0 <= j < n && j != i ensures s2.threads[j] == s.threads[j] { assert s1.threads[j] == s.threads[j]; }
    forall k | 0 <= k < |a| ensures s2.threads[n + k] == a[k] {
      assert s1.threads[n..][k] == s1.threads[n + k];
    }
    assert s2.threads[n..] == s2.threads[n..n + |a|] + s2.threads[|s1.threads|..];
  }

  /** It connects: the subprocess runs, watched. */
  lemma StartRuns(c: Config, s0: State, i: nat, n: nat, s: State) returns (s': State)
    requires Goes(c, s0, i, n, false, s) && i < |s.threads| && s.threads[i].pc == Core(Connect) && !s.stopped
    requires s.threads[i].role == Restart || s.threads[i].role == User
    requires s.lives != [] && !s.lives[|s.lives| - 1]
    ensures Goes(c, s0, i, n + 4, false, s') && Launched(s, s', i, Gone, Watchers(c))
    ensures s'.status == Running && s'.restarting == (s.restarting && s.threads[i].role != Restart)
  {
    var s1 := Connects(c, s0, i, n, s);
    var s2 := LastChecks(c, s0, i, n + 1, s1);
    s' := LaunchesHealth(c, s0, i, n + 3, s2);
    LaunchedTwice(s, s1, s2, i, Core(LastCheck), Core(StartHealth), MonitorOf(c), []);
    assert MonitorOf(c) + [] == MonitorOf(c);
    LaunchedTwice(s, s2, s', i, Core(StartHealth), Gone, MonitorOf(c), HealthOf(c));
  }

  /** An undisturbed restart that finds everybody drained and can connect: it counts itself,
      installs a fresh lifecycle, runs the subprocess under new watchers and gives back the
      flag. */
  lemma RestartSucceeds(c: Config, s: State, i: nat) returns (s': State)
    requires i < |s.threads| && s.threads[i].role == Restart && s.threads[i].pc == Loop(Drain)
    requires !s.stopped && s.wg == 0
    ensures Goes(c, s, i, 12, false, s')
    ensures s'.status == Running && s'.count == s.count + 1 && !s'.restarting && !s'.stopped
    ensures s'.lives == s.lives + [false] && |s'.threads| >= |s.threads| && s'.threads[i].pc == Gone
    ensures s'.threads[|s.threads|..] == Watchers(c) && s'.wg == |Watchers(c)|
  {
    var s1 := RestartCounts(c, s, i);
    var s2 := StartArms(c, s, i, 4, s1);
    s' := StartRuns(c, s, i, 8, s2);
  }

  /** An undisturbed start by a user from any state that is not busy takes back the stop
      marker and runs the subprocess. */
  lemma UserStartSucceeds(c: Config, s: State, i: nat) returns (s': State)
    requires i < |s.threads| && s.threads[i].role == User && s.threads[i].pc == ClearMarker
    requires s.status == Pending || s.status == Stopped || s.status == Failed
    ensures Goes(c, s, i, 9, false, s')
    ensures s'.status == Running && s'.count == s.count && s'.restarting == s.restarting && !s'.stopped
    ensures s'.lives == s.lives + [false] && |s'.threads| >= |s.threads| && s'.threads[i].pc == Gone
    ensures s'.threads[|s.threads|..] == Watchers(c) && s'.wg == s.wg + |Watchers(c)|
  {
    GoesNowhere(c, s, i, false);
    var s1 := Plain(c, s, i, 0, false, s);
    var s2 := StartArms(c, s, i, 1, s1);
    s' := StartRuns(c, s, i, 5, s2);
  }

  lemma FailsToConnect(c: Config, s: State, i: nat) returns (s': State)
    requires i < |s.threads| && s.threads[i].role == Restart && s.threads[i].pc == Core(Connect)
    ensures Goes(c, s, i, 2, true, s') && Moved(s, s', i, Loop(AfterFail))
    ensures s'.status == Failed && s'.restarting == s.restarting && s'.count == s.count && s'.lives == s.lives
  {
    GoesNowhere(c, s, i, true);
    var s1 := Plain(c, s, i, 0, true, s);
    s' := Plain(c, s, i, 1, true, s1);
  }

  lemma FailsAgain(c: Config, s0: State, i: nat, n: nat, s: State) returns (s': State)
    requires Goes(c, s0, i, n, true, s) && !s.stopped
    requires i < |s.threads| && s.threads[i].role == Restart && s.threads[i].pc == Loop(AfterFail)
    ensures
      var over := c.max > 0 && s.count >= c.max;
      && Goes(c, s0, i, n + 3, true, s') && Moved(s, s', i, if over then Gone else Loop(Top))
      && s'.status == Failed && s'.restarting == (s.restarting && !over) && s'.count == s.count && s'.lives == s.lives
  {
    var s1 := Plain(c, s0, i, n, true, s);
    var s2 := Plain(c, s0, i, n + 1, true, s1);
    s' := Plain(c, s0, i, n + 2, true, s2);
  }

  /** A restart that cannot connect: Failed, and another round exactly while the limit leaves
      room. */
  lemma RestartFails(c: Config, s: State, i: nat) returns (s': State)
    requires i < |s.threads| && s.threads[i].role == Restart && s.threads[i].pc == Core(Connect) && !s.stopped
    ensures
      var over := c.max > 0 && s.count >= c.max;
      && Goes(c, s, i, 5, true, s') && Moved(s, s', i, if over then Gone else Loop(Top))
      && s'.status == Failed && s'.restarting == (s.restarting && !over) && s'.count == s.count && s'.lives == s.lives
  {
    var s1 := FailsToConnect(c, s, i);
    s' := FailsAgain(c, s, i, 2, s1);
  }

  /** Up to the budget check; an exit monitor stamps Failed on the way. */
  lemma Notices(c: Config, s: State, i: nat) returns (s': State)
    requires i < |s.threads| && s.threads[i].pc == Watch(Watching) && s.status == Running
    requires s.threads[i].role == Health || s.threads[i].role == Monitor
    ensures
      var health := s.threads[i].role == Health;
      && Goes(c, s, i, if health then 1 else 2, !health, s') && Moved(s, s', i, Watch(Budget))
      && s'.status == (if health then Running else Failed) && s'.count == s.count && s'.restarting == s.restarting
  {
    var b := s.threads[i].role != Health;
    GoesNowhere(c, s, i, b);
    s' := Plain(c, s, i, 0, b, s);
    if b { s' := Plain(c, s, i, 1, b, s'); }
  }

  lemma Spawns(c: Config, s0: State, i: nat, n: nat, choice: bool, s: State) returns (s': State)
    requires Goes(c, s0, i, n, choice, s) && i < |s.threads| && s.threads[i].pc == Watch(Spawn)
    requires s.threads[i].role == Health || s.threads[i].role == Monitor
    ensures Goes(c, s0, i, n + 1, choice, s')
    ensures |s'.threads| == |s.threads| + 1 && s'.threads[|s.threads|] == Thread(Restart, Loop(Top), 0)
    ensures s'.threads[i].pc == (if s.threads[i].role == Health then Watch(Begin) else Gone)
    ensures s'.status == s.status && s'.restarting == s.restarting && s'.count == s.count
    ensures s'.wg == s.wg - Bit(s.threads[i].role == Monitor)
  {
    s' := Apply(c, s, Move(i, choice));
    GoesOn(c, s0, i, n, choice, s);
  }

  /** A failed probe, or an exit with an error, of a running subprocess: with auto-restart on,
      room under the limit and no restart in flight, exactly one restart is launched. */
  lemma FailureRestarts(c: Config, s: State, i: nat) returns (s': State)
    requires i < |s.threads| && s.threads[i].pc == Watch(Watching) && s.status == Running && !s.restarting
    requires s.threads[i].role == Health || s.threads[i].role == Monitor
    requires c.autoRestart && (c.max > 0 ==> s.count < c.max)
    ensures
      var health := s.threads[i].role == Health;
      && Goes(c, s, i, if health then 5 else 6, !health, s')
      && |s'.threads| == |s.threads| + 1 && s'.threads[|s.threads|] == Thread(Restart, Loop(Top), 0)
      && s'.restarting && s'.count == s.count && s'.threads[i].pc == (if health then Watch(Begin) else Gone)
      && s'.status == (if health then Running else Failed) && s'.wg == s.wg - Bit(!health)
  {
    var b := s.threads[i].role != Health;
    var n: nat := if b then 2 else 1;
    var s1 := Notices(c, s, i);
    var s2 := PassesChecks(c, s, i, n, b, s1);
    s' := Spawns(c, s, i, n + 3, b, s2);
  }

  lemma PassesChecks(c: Config, s0: State, i: nat, n: nat, choice: bool, s: State) returns (s': State)
    requires Goes(c, s0, i, n, choice, s) && i < |s.threads| && s.threads[i].pc == Watch(Budget)
    requires s.status == Running || s.status == Failed
    requires s.threads[i].role == Health || s.threads[i].role == Monitor
    requires c.autoRestart && (c.max > 0 ==> s.count < c.max) && !s.restarting
    ensures Goes(c, s0, i, n + 3, choice, s') && Moved(s, s', i, Watch(Spawn))
    ensures s'.status == s.status && s'.restarting && s'.count == s.count
  {
    var s1 := Plain(c, s0, i, n, choice, s);
    var s2 := Plain(c, s0, i, n + 1, choice, s1);
    s' := Plain(c, s0, i, n + 2, choice, s2);
  }

  /** When the limit is used up, a failed probe leaves the subprocess Failed, and nothing is
      launched. */
  lemma FailureAtLimit(c: Config, s: State, i: nat) returns (s': State)
    requires i < |s.threads| && s.threads[i].pc == Watch(Watching) && s.threads[i].role == Health
    requires s.status == Running && c.autoRestart && 0 < c.max <= s.count
    ensures Goes(c, s, i, 2, false, s') && Moved(s, s', i, Watch(Begin))
    ensures s'.status == Failed && s'.restarting == s.restarting && s'.count == s.count
  {
    GoesNowhere(c, s, i, false);
    var s1 := Plain(c, s, i, 0, false, s);
    s' := Plain(c, s, i, 1, false, s1);
  }

  lemma StopBegins(c: Config, s: State, i: nat) returns (s': State)
    requires i < |s.threads| && s.threads[i].role == Stopper && s.threads[i].pc == Stop(Check)
    requires s.status == Running || s.status == Starting
    ensures Goes(c, s, i, 2, false, s') && Moved(s.(stopped := true), s', i, Stop(SetStopping))
    ensures s'.count == s.count && s'.restarting == s.restarting && s'.lives == s.lives
  {
    GoesNowhere(c, s, i, false);
    var s1 := Plain(c, s, i, 0, false, s);
    s' := Plain(c, s, i, 1, false, s1);
  }

  /** A stop of a running or starting subprocess sets the marker, moves it to Stopping and
      cancels its lifecycle; then it waits. */
  lemma StopMarks(c: Config, s: State, i: nat) returns (s': State)
    requires i < |s.threads| && s.threads[i].role == Stopper && s.threads[i].pc == Stop(Check)
    requires s.status == Running || s.status == Starting
    ensures Goes(c, s, i, 4, false, s') && Moved(s.(stopped := true), s', i, Stop(AwaitDrain))
    ensures s'.status == Stopping && s'.count == s.count && s'.restarting == s.restarting
    ensures s'.lives == if s.lives == [] then [] else s.lives[|s.lives| - 1 := true]
  {
    var s1 := StopBegins(c, s, i);
    var s2 := Plain(c, s, i, 2, false, s1);
    s' := Plain(c, s, i, 3, false, s2);
  }

  /** When everybody has drained it is Stopped. */
  lemma StopEnds(c: Config, s: State, i: nat) returns (s': State)
    requires i < |s.threads| && s.threads[i].role == Stopper && s.threads[i].pc == Stop(AwaitDrain) && s.wg == 0
    ensures Goes(c, s, i, 2, false, s') && Moved(s, s', i, Gone) && s'.status == Stopped && s'.lives == s.lives
  {
    GoesNowhere(c, s, i, false);
    var s1 := Plain(c, s, i, 0, false, s);
    s' := Plain(c, s, i, 1, false, s1);
  }

  // ------------------------------------------------------------ giving way to a stop

  /** A restart that finds the marker, or during its delay the lifecycle it watches
      cancelled, leaves the state as it is and gives back the flag. */
  lemma RestartGivesWay(c: Config, s: State, i: nat, choice: bool) returns (s': State)
    requires i < |s.threads| && s.threads[i].role == Restart
    requires
      var th := s.threads[i];
      || ((th.pc == Loop(Marker) || th.pc == Loop(Recheck) || th.pc == Loop(AfterFail)) && s.stopped)
      || (th.pc == Loop(Waiting) && choice && th.life < |s.lives| && s.lives[th.life])
    ensures Goes(c, s, i, 1, choice, s') && Moved(s, s', i, Gone) && !s'.restarting
    ensures s'.status == s.status && s'.count == s.count && s'.lives == s.lives
  {
    GoesNowhere(c, s, i, choice);
    s' := Plain(c, s, i, 0, choice, s);
  }

  /** A start that finds the marker before it has installed a lifecycle. */
  lemma StartAbortsEarly(c: Config, s: State, i: nat) returns (s': State)
    requires i < |s.threads| && (s.threads[i].role == Restart || s.threads[i].role == User)
    requires s.threads[i].pc == Core(Marker1) && s.stopped
    ensures
      var restart := s.threads[i].role == Restart;
      && Goes(c, s, i, 2, true, s') && Moved(s, s', i, if restart then Loop(AfterFail) else Gone)
      && s'.status == Stopped && s'.lives == s.lives && s'.count == s.count && s'.restarting == s.restarting
  {
    GoesNowhere(c, s, i, true);
    var s1 := Plain(c, s, i, 0, true, s);
    s' := Plain(c, s, i, 1, true, s1);
  }

  lemma Withdraws(c: Config, s0: State, i: nat, n: nat, s: State) returns (s': State)
    requires Goes(c, s0, i, n, true, s) && s.lives != []
    requires i < |s.threads| && (s.threads[i].role == Restart || s.threads[i].role == User)
    requires s.threads[i].pc == Core(AbortCancel)
    ensures
      var restart := s.threads[i].role == Restart;
      && Goes(c, s0, i, n + 2, true, s') && Moved(s, s', i, if restart then Loop(AfterFail) else Gone)
      && s'.status == Stopped && s'.lives == s.lives[|s.lives| - 1 := true]
      && s'.count == s.count && s'.restarting == s.restarting
  {
    var s1 := Plain(c, s0, i, n, true, s);
    s' := Plain(c, s0, i, n + 1, true, s1);
  }

  /** A start that finds the marker, or at its last check its own lifecycle cancelled,
      cancels that lifecycle and ends in Stopped. */
  lemma StartAborts(c: Config, s: State, i: nat) returns (s': State)
    requires i < |s.threads| && (s.threads[i].role == Restart || s.threads[i].role == User) && s.lives != []
    requires
      || ((s.threads[i].pc == Core(Marker2) || s.threads[i].pc == Core(LastCheck)) && s.stopped)
      || (s.threads[i].pc == Core(LastCheck) && s.lives[|s.lives| - 1])
    ensures
      var restart := s.threads[i].role == Restart;
      && Goes(c, s, i, 3, true, s') && Moved(s, s', i, if restart then Loop(AfterFail) else Gone)
      && s'.status == Stopped && s'.lives == s.lives[|s.lives| - 1 := true]
      && s'.count == s.count && s'.restarting == s.restarting
  {
    GoesNowhere(c, s, i, true);
    var s1 := Plain(c, s, i, 0, true, s);
    s' := Withdraws(c, s, i, 1, s1);
  }

  // ------------------------------------------------------------ watchers, and calls that do nothing

  /** Thread i ends, and gives back the ticket it holds. */
  predicate Ends(s: State, s': State, i: nat) {
    && Moved(s, s'.(wg := s.wg), i, Gone) && s'.wg == s.wg - 1
    && s'.count == s.count && s'.lives == s.lives && s'.restarting == s.restarting
  }

  /** A child that exits without an error leaves Stopped behind if it was running; an exit with
      an error of one that was not running changes nothing. */
  lemma MonitorEnds(c: Config, s: State, i: nat, error: bool) returns (s': State)
    requires i < |s.threads| && s.threads[i].role == Monitor && s.threads[i].pc == Watch(Watching)
    requires error ==> s.status != Running
    ensures Goes(c, s, i, 1, error, s') && Ends(s, s', i)
    ensures s'.status == if s.status == Running then Stopped else s.status
  {
    GoesNowhere(c, s, i, error);
    s' := Apply(c, s, Move(i, error));
    GoesOn(c, s, i, 0, error, s);
  }

  /** The health loop ends when the lifecycle it watches is cancelled; otherwise it goes into
      the next round, and does nothing while the subprocess is not running. */
  lemma HealthRound(c: Config, s: State, i: nat, wake: bool) returns (s': State)
    requires i < |s.threads| && s.threads[i].role == Health && s.threads[i].pc == Watch(Watching)
    requires !wake ==> s.status != Running
    ensures Goes(c, s, i, 1, wake, s') && s'.status == s.status
    ensures
      var life := s.threads[i].life;
      if wake && life < |s.lives| && s.lives[life] then Ends(s, s', i)
      else Moved(s, s', i, Watch(Begin)) && s'.count == s.count && s'.lives == s.lives && s'.restarting == s.restarting
  {
    GoesNowhere(c, s, i, wake);
    s' := Apply(c, s, Move(i, wake));
    GoesOn(c, s, i, 0, wake, s);
  }

  /** Every round watches the lifecycle that is current when it begins. */
  lemma RoundBegins(c: Config, s: State, i: nat, choice: bool) returns (s': State)
    requires i < |s.threads| && s.threads[i].role == Health && s.threads[i].pc == Watch(Begin) && s.lives != []
    ensures Goes(c, s, i, 1, choice, s') && Moved(s, s', i, Watch(Watching)) && s'.threads[i].life == |s.lives| - 1
    ensures s'.status == s.status && s'.count == s.count && s'.lives == s.lives && s'.restarting == s.restarting
  {
    GoesNowhere(c, s, i, choice);
    s' := Plain(c, s, i, 0, choice, s);
  }

  /** Nothing is restarted from Pending, Starting, Stopping or Stopped, nor while a restart is
      in flight: the watcher goes back to its round, the exit monitor ends. */
  lemma NotRestarted(c: Config, s: State, i: nat, choice: bool) returns (s': State)
    requires i < |s.threads| && (s.threads[i].role == Health || s.threads[i].role == Monitor)
    requires
      || (s.threads[i].pc == Watch(StateCheck) && s.status != Running && s.status != Failed)
      || (s.threads[i].pc == Watch(Cas) && s.restarting)
    ensures Goes(c, s, i, 1, choice, s') && s'.status == s.status
    ensures s.threads[i].role == Monitor ==> Ends(s, s', i)
    ensures s.threads[i].role == Health ==>
      Moved(s, s', i, Watch(Begin)) && s'.count == s.count && s'.lives == s.lives && s'.restarting == s.restarting
  {
    GoesNowhere(c, s, i, choice);
    s' := Apply(c, s, Move(i, choice));
    GoesOn(c, s, i, 0, choice, s);
  }

  /** A stop of a subprocess that neither runs nor starts does nothing; in particular it does
      not set the marker. */
  lemma StopOfIdle(c: Config, s: State, i: nat, choice: bool) returns (s': State)
    requires i < |s.threads| && s.threads[i].role == Stopper && s.threads[i].pc == Stop(Check)
    requires s.status != Running && s.status != Starting
    ensures Goes(c, s, i, 1, choice, s') && Moved(s, s', i, Gone)
    ensures s'.status == s.status && s'.count == s.count && s'.lives == s.lives && s'.restarting == s.restarting
  {
    GoesNowhere(c, s, i, choice);
    s' := Plain(c, s, i, 0, choice, s);
  }

  /** Unregistering sets the marker and cancels the lifecycle, whatever the state. */
  lemma UnregisterMarks(c: Config, s: State, i: nat, choice: bool) returns (s': State)
    requires i < |s.threads| && s.threads[i].role == Stopper && s.threads[i].pc == Stop(MarkUnregistered)
    ensures Goes(c, s, i, 2, choice, s') && Moved(s.(stopped := true), s', i, Gone)
    ensures s'.status == s.status && s'.count == s.count && s'.restarting == s.restarting
    ensures s'.lives == if s.lives == [] then [] else s.lives[|s.lives| - 1 := true]
  {
    GoesNowhere(c, s, i, choice);
    var s1 := Plain(c, s, i, 0, choice, s);
    s' := Plain(c, s, i, 1, choice, s1);
  }

  /** A start of a subprocess that runs, starts or stops is refused, and changes nothing. */
  lemma StartRefused(c: Config, s: State, i: nat, choice: bool) returns (s': State)
    requires i < |s.threads| && (s.threads[i].role == Restart || s.threads[i].role == User)
    requires s.threads[i].pc == Core(Enter)
    requires s.status == Running || s.status == Starting || s.status == Stopping
    ensures Goes(c, s, i, 1, choice, s')
    ensures Moved(s, s', i, if s.threads[i].role == Restart then Loop(AfterFail) else Gone)
    ensures s'.status == s.status && s'.count == s.count && s'.lives == s.lives && s'.restarting == s.restarting
  {
    GoesNowhere(c, s, i, choice);
    s' := Plain(c, s, i, 0, choice, s);
  }
}
