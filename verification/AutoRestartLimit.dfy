/** From every state in which a restart uses up the budget while a watcher is past its check,
    the limit on restarts can be exceeded. */
module AutoRestartLimit {
  import opened Prelude
  import opened Counting
  import opened AutoRestart
  import opened AutoRestartOverlap

  // ------------------------------------------------------------ single steps

  lemma ReachesFlight(c: Config, s0: State, s: State)
    requires Flight(s0) && Reaches(c, s0, s)
    ensures Flight(s)
  {
    var run :| Legal(c, s0, run) && Exec(c, s0, run) == s;
    ExecFlight(c, s0, run);
  }

  /** One step of thread i that starts no thread. */
  lemma Moves(c: Config, s0: State, s: State, i: nat, choice: bool) returns (s': State)
    requires Reaches(c, s0, s) && Enabled(s, Move(i, choice)) && EffectOf(c, s, s.threads[i], choice).spawn == None
    ensures Reaches(c, s0, s')
    ensures
      var e, th := EffectOf(c, s, s.threads[i], choice), s.threads[i];
      && s'.status == e.status && s'.stopped == e.stopped && s'.restarting == e.restarting && s'.count == e.count
      && s'.lives == e.lives && s'.threads == s.threads[i := Thread(th.role, e.pc, Current(s))]
      && s'.wg == s.wg + Bit(Ticket(s'.threads[i])) - Bit(Ticket(th))
  {
    s' := Try(c, s, Move(i, choice));
    TryReaches(c, s0, s, Move(i, choice));
  }

  /** Only thread i has moved, which holds no ticket, and nothing was counted. */
  predicate Alone(s: State, s': State, i: nat) {
    && |s'.threads| == |s.threads| && (forall j :: 0 <= j < |s.threads| && j != i ==> s'.threads[j] == s.threads[j])
    && s'.count == s.count && s'.stopped == s.stopped && s'.wg == s.wg
    && i < |s.threads| && s'.threads[i].role == s.threads[i].role
  }

  /** The restart that has just counted connects in vain. */
  lemma RestartConnects(c: Config, s0: State, s: State, i: nat) returns (s': State)
    requires Reaches(c, s0, s) && i < |s.threads| && s.threads[i].role == Restart && s.threads[i].pc == Loop(Recheck)
    requires !s.stopped
    ensures Reaches(c, s0, s') && Alone(s, s', i) && s'.restarting == s.restarting
    ensures s'.threads[i].pc == Core(NewLife)
  {
    var s1 := Moves(c, s0, s, i, true);
    var s2 := Moves(c, s0, s1, i, true);
    var s3 := Moves(c, s0, s2, i, true);
    s' := Moves(c, s0, s3, i, true);
  }

  lemma RestartFails(c: Config, s0: State, s: State, i: nat) returns (s': State)
    requires Reaches(c, s0, s) && i < |s.threads| && s.threads[i].role == Restart && s.threads[i].pc == Core(NewLife)
    requires !s.stopped
    ensures Reaches(c, s0, s') && Alone(s, s', i) && s'.restarting == s.restarting
    ensures s'.threads[i].pc == Loop(AfterFail) && s'.lives != []
  {
    var s1 := Moves(c, s0, s, i, true);
    var s2 := Moves(c, s0, s1, i, true);
    var s3 := Moves(c, s0, s2, i, true);
    s' := Moves(c, s0, s3, i, true);
  }

  lemma RestartGivesUp(c: Config, s0: State, s: State, i: nat) returns (s': State)
    requires Reaches(c, s0, s) && i < |s.threads| && s.threads[i].role == Restart && s.threads[i].pc == Loop(AfterFail)
    requires !s.stopped && Exhausted(c, s.count)
    ensures Reaches(c, s0, s') && Alone(s, s', i) && s'.lives == s.lives
    ensures s'.threads[i].pc == Gone && s'.status == Failed && !s'.restarting
  {
    var s1 := Moves(c, s0, s, i, true);
    var s2 := Moves(c, s0, s1, i, true);
    s' := Moves(c, s0, s2, i, true);
  }

  /** A user's start takes back the stop marker, and goes no further. */
  lemma Rearmed(c: Config, s0: State, s: State) returns (s': State)
    requires Reaches(c, s0, s)
    ensures Reaches(c, s0, s') && !s'.stopped && s'.count == s.count && s'.restarting == s.restarting
    ensures |s'.threads| == |s.threads| + 1 && s'.threads[..|s.threads|] == s.threads
  {
    TryReaches(c, s0, s, CallStart);
    var s1 := Try(c, s, CallStart);
    s' := Moves(c, s0, s1, |s.threads|, true);
  }

  /** A watcher past the check launches another restart, which comes as far as its drain. */
  lemma WatcherLaunches(c: Config, s0: State, s: State, k: nat) returns (s': State)
    requires Reaches(c, s0, s) && k < |s.threads| && s.status == Failed && !s.restarting
    requires s.threads[k].pc == Watch(StateCheck) || s.threads[k].pc == Watch(Cas)
    ensures Reaches(c, s0, s') && s'.count == s.count && s'.stopped == s.stopped && s'.lives == s.lives
    ensures |s'.threads| == |s.threads| + 1 && s'.threads[|s.threads|] == Thread(Restart, Loop(Top), 0)
  {
    var s1 := s;
    if s.threads[k].pc == Watch(StateCheck) { s1 := Moves(c, s0, s, k, true); }
    var s2 := Moves(c, s0, s1, k, true);
    s' := Try(c, s2, Move(k, true));
    TryReaches(c, s0, s2, Move(k, true));
  }

  lemma RestartDrains(c: Config, s0: State, s: State, r: nat) returns (s': State)
    requires Reaches(c, s0, s) && r < |s.threads| && s.threads[r] == Thread(Restart, Loop(Top), 0)
    requires !s.stopped && s.lives != []
    ensures Reaches(c, s0, s') && Alone(s, s', r) && s'.threads[r].pc == Loop(Drain) && Cancelled(s', Current(s'))
  {
    var s1 := Moves(c, s0, s, r, false);
    var s2 := Moves(c, s0, s1, r, false);
    var s3 := Moves(c, s0, s2, r, false);
    s' := Moves(c, s0, s3, r, false);
  }

  // ------------------------------------------------------------ draining

  /** How far a ticket holder is from its end, once the current lifecycle is cancelled. */
  function Rank(lives: seq<bool>, th: Thread): nat {
    if !Ticket(th) || !th.pc.Watch? then 0
    else
      match th.pc.w
      case Crashed => 7
      case Budget => 6
      case StateCheck => 5
      case Cas => 4
      case Spawn => 4
      case Begin => 2
      case Watching => if th.life < |lives| && lives[th.life] then 1 else 3
  }

  function RankSum(lives: seq<bool>, ts: seq<Thread>): nat {
    if ts == [] then 0 else Rank(lives, ts[0]) + RankSum(lives, ts[1..])
  }

  lemma {:induction false} RankUpdate(lives: seq<bool>, ts: seq<Thread>, i: nat, th: Thread)
    requires i < |ts|
    ensures RankSum(lives, ts[i := th]) + Rank(lives, ts[i]) == RankSum(lives, ts) + Rank(lives, th)
  {
    if i == 0 {
      assert ts[i := th][1..] == ts[1..];
    } else {
      assert ts[i := th][1..] == ts[1..][i - 1 := th];
      RankUpdate(lives, ts[1..], i - 1, th);
    }
  }

  /** Restart r waits for the tickets, and the lifecycle that they watch is cancelled. */
  predicate Draining(s: State, r: nat) {
    r < |s.threads| && s.threads[r].pc == Loop(Drain) && Cancelled(s, Current(s))
  }

  lemma WatcherPlaced(s: State, r: nat, i: nat)
    requires Flight(s) && Draining(s, r) && i < |s.threads| && Ticket(s.threads[i])
    ensures s.restarting && s.threads[i].pc.Watch? && s.threads[i].pc != Watch(Spawn)
  {
    assert WellPlaced(s.threads[r]) && WellPlaced(s.threads[i]);
    FlagHeld(s, r);
    if InRestart(s.threads[i]) {
      if i < r { CountTwo(s.threads, i, r, InRestart); } else { CountTwo(s.threads, r, i, InRestart); }
    }
  }

  lemma WatcherEnds(c: Config, s: State, th: Thread)
    requires s.restarting && Ticket(th) && th.pc.Watch? && th.pc != Watch(Spawn) && Cancelled(s, Current(s))
    ensures
      var e := EffectOf(c, s, th, th.role == Health);
      && e.spawn == None && e.lives == s.lives && e.count == s.count && e.stopped == s.stopped
      && Rank(s.lives, Thread(th.role, e.pc, Current(s))) < Rank(s.lives, th)
  {
    match th.pc.w
    case Begin =>
    case Watching =>
    case Crashed =>
    case Budget =>
    case StateCheck =>
    case Cas =>
  }

  /** Every ticket holder can be brought to its end while the restart waits. */
  lemma {:induction false} DrainAll(c: Config, s0: State, s: State, r: nat) returns (s': State)
    requires Flight(s0) && Reaches(c, s0, s) && Draining(s, r)
    ensures Reaches(c, s0, s') && s'.wg == 0 && s'.count == s.count && Draining(s', r)
    decreases RankSum(s.lives, s.threads)
  {
    ReachesFlight(c, s0, s);
    if i :| 0 <= i < |s.threads| && Ticket(s.threads[i]) {
      WatcherPlaced(s, r, i);
      WatcherEnds(c, s, s.threads[i]);
      var s1 := Moves(c, s0, s, i, s.threads[i].role == Health);
      RankUpdate(s.lives, s.threads, i, s1.threads[i]);
      s' := DrainAll(c, s0, s1, r);
    } else {
      CountZero(s.threads, Ticket);
      s' := s;
    }
  }

  // ------------------------------------------------------------ exceeding the limit

  /** The restart that has used up the budget fails and gives up. */
  lemma FirstGivesUp(c: Config, s0: State, s: State, i: nat, k: nat) returns (s': State)
    requires Reaches(c, s0, s) && i < |s.threads| && k < |s.threads| && i != k && Exhausted(c, s.count)
    requires s.threads[i].role == Restart && s.threads[i].pc == Loop(Recheck)
    ensures Reaches(c, s0, s') && k < |s'.threads| && s'.threads[k] == s.threads[k] && s'.count == s.count
    ensures s'.status == Failed && !s'.restarting && !s'.stopped && s'.lives != []
  {
    var s1 := Rearmed(c, s0, s);
    assert s1.threads[i] == s1.threads[..|s.threads|][i] && s1.threads[k] == s1.threads[..|s.threads|][k];
    var s2 := RestartConnects(c, s0, s1, i);
    var s3 := RestartFails(c, s0, s2, i);
    s' := RestartGivesUp(c, s0, s3, i);
  }

  /** The watcher's restart drains every ticket and counts. */
  lemma SecondCounts(c: Config, s0: State, s: State, k: nat) returns (s': State)
    requires Flight(s0) && Reaches(c, s0, s) && k < |s.threads|
    requires s.status == Failed && !s.restarting && !s.stopped && s.lives != []
    requires s.threads[k].pc == Watch(StateCheck) || s.threads[k].pc == Watch(Cas)
    ensures Reaches(c, s0, s') && s'.count == s.count + 1
  {
    var r := |s.threads|;
    var s1 := WatcherLaunches(c, s0, s, k);
    var s2 := RestartDrains(c, s0, s1, r);
    var s3 := DrainAll(c, s0, s2, r);
    var s4 := Moves(c, s0, s3, r, true);
    s' := Moves(c, s0, s4, r, true);
  }

  /** A crowding count, from any state: a user who takes back the stop marker, a connection that
      fails, and the watcher that was past its check bring the count above the limit. */
  lemma CrowdedExceeds(c: Config, s: State, e: Step) returns (run: seq<Step>)
    requires Flight(s) && Enabled(s, e) && Crowded(c, s, e) && c.max > 0
    ensures Legal(c, s, [e] + run) && Exec(c, s, [e] + run).count > c.max
  {
    var i := e.thread;
    var k :| 0 <= k < |s.threads| && k != i && Cleared(s.threads[k]);
    OnlyRestart(s, i, k);
    assert WellPlaced(s.threads[i]) && WellPlaced(s.threads[k]);
    var s0 := Apply(c, s, e);
    StepFlight(c, s, e);
    assert Reaches(c, s0, s0) by { assert Exec(c, s0, []) == s0; }
    assert s0.threads[k] == s.threads[k];
    var s1 := FirstGivesUp(c, s0, s0, i, k);
    var s2 := SecondCounts(c, s0, s1, k);
    run :| Legal(c, s0, run) && Exec(c, s0, run) == s2;
    assert ([e] + run)[1..] == run;
  }
}
