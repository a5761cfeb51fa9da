/** How a reconnect loop begins, gives up, and ends after Close, and that nothing is opened
    from then on. */
module ReconnectLife {
  import opened Prelude
  import opened Reconnect

  // ------------------------------------------------------------ beginning and giving up

  /** An error report starts a loop, with no attempt made and the first wait ahead, unless the
      connection was closed, has given up, or has a loop already. */
  lemma ReportStartsLoop(c: Config, s: State, choice: bool) returns (run: seq<Step>)
    requires !s.g.shutdown && !s.g.failed && !s.g.reconnecting
    ensures Legal(c, s, run)
    ensures
      var s', n := Exec(c, s, run), |s.threads|;
      && |s'.threads| == n + 2 && s'.threads[n].pc == Gone && s'.threads[n + 1] == Thread(Loop(Top), 0, c.backoffMin)
      && s'.threads[..n] == s.threads && s'.g == s.g.(reconnecting := true)
  {
    var n := |s.threads|;
    var s1 := Apply(c, s, ReportError);
    var s2 := Apply(c, s1, Move(n, choice));
    var s3 := Apply(c, s2, Move(n, choice));
    run := [ReportError, Move(n, choice), Move(n, choice), Move(n, choice)];
    Unroll(c, s3, [Move(n, choice)]);
    Unroll(c, s2, [Move(n, choice), Move(n, choice)]);
    Unroll(c, s1, [Move(n, choice), Move(n, choice), Move(n, choice)]);
    Unroll(c, s, run);
  }

  /** A failed attempt that reaches the limit ends the loop and marks the connection failed. */
  lemma LimitGivesUp(c: Config, s: State, i: nat, choice: bool) returns (run: seq<Step>)
    requires i < |s.threads| && s.threads[i].pc == Loop(Retry)
    requires c.maxAttempts > 0 && s.threads[i].attempts == c.maxAttempts
    ensures Legal(c, s, run)
    ensures
      var s' := Exec(c, s, run);
      && s'.g == s.g.(failed := true, reconnecting := false)
      && s'.threads == s.threads[i := s.threads[i].(pc := Gone)]
  {
    var s1 := Moved(c, s, i, choice);
    var s2 := Moved(c, s1, i, choice);
    run := [Move(i, choice), Move(i, choice)];
    Unroll(c, s1, [Move(i, choice)]);
    Unroll(c, s, run);
  }

  /** Neither about to launch a loop, nor a loop, nor a Connect past its check. */
  predicate Outside(th: Thread) {
    th.pc == Gone || th.pc.Close? || th.pc == Report(CheckFlags) || th.pc == Connect(CheckShutdown)
  }

  predicate AllOutside(s: State) { forall i :: 0 <= i < |s.threads| ==> Outside(s.threads[i]) }

  /** One that failed for good, with no Connect to take that back. */
  predicate GivenUp(s: State) {
    s.g.failed && AllOutside(s) && forall i :: 0 <= i < |s.threads| ==> !s.threads[i].pc.Connect?
  }

  lemma GivenUpStep(c: Config, s: State, e: Step)
    requires GivenUp(s) && Enabled(s, e) && !e.CallConnect?
    ensures GivenUp(Apply(c, s, e)) && |Apply(c, s, e).g.conns| == |s.g.conns|
  {
  }

  /** Whatever is reported after that, no loop starts and nothing is opened until Connect is
      called. */
  lemma {:induction false} GivenUpStays(c: Config, s: State, run: seq<Step>)
    requires GivenUp(s) && Legal(c, s, run) && CallConnect !in run
    ensures GivenUp(Exec(c, s, run)) && |Exec(c, s, run).g.conns| == |s.g.conns|
    decreases |run|
  {
    if run == [] {
    } else {
      GivenUpStep(c, s, run[0]);
      GivenUpStays(c, Apply(c, s, run[0]), run[1..]);
    }
  }

  // ------------------------------------------------------------ after Close

  /** A step of somebody outside, after Close. */
  lemma ClosedEffect(c: Config, g: Shared, th: Thread, choice: bool)
    requires g.shutdown && Outside(th)
    ensures
      var e := EffectOf(c, g, th, choice);
      && e.g.shutdown && |e.g.conns| == |g.conns| && e.g.current == g.current && Outside(e.th)
      && (e.spawn.Some? ==> Outside(e.spawn.value))
  {
  }

  lemma ClosedStep(c: Config, s: State, e: Step)
    requires s.g.shutdown && AllOutside(s) && Enabled(s, e)
    ensures
      var s' := Apply(c, s, e);
      s'.g.shutdown && AllOutside(s') && |s'.g.conns| == |s.g.conns| && s'.g.current == s.g.current
  {
    if e.Move? { ClosedEffect(c, s.g, s.threads[e.thread], e.choice); }
  }

  /** After Close, once whoever had passed its check before is done, nothing is opened or
      published again, whatever is called. */
  lemma {:induction false} NothingOpens(c: Config, s: State, run: seq<Step>)
    requires s.g.shutdown && AllOutside(s) && Legal(c, s, run)
    ensures
      var s' := Exec(c, s, run);
      AllOutside(s') && |s'.g.conns| == |s.g.conns| && s'.g.current == s.g.current
    decreases |run|
  {
    if run == [] {
    } else {
      ClosedStep(c, s, run[0]);
      NothingOpens(c, Apply(c, s, run[0]), run[1..]);
    }
  }

  /** How many steps a loop has left at most once Close has signalled. */
  function StepsLeft(th: Thread): nat {
    if !th.pc.Loop? then 0
    else
      match th.pc.l
      case CloseOld => 6
      case Dial => 5
      case LockPublish(_) => 4
      case Retry => 4
      case CheckLive(_) => 3
      case Backoff => 2
      case Publish(_) => 2
      case _ => 1
  }

  lemma LoopStep(c: Config, g: Shared, th: Thread, choice: bool)
    requires g.shutdown && g.signalled && th.pc.Loop?
    ensures
      var e := EffectOf(c, g, th, choice);
      StepsLeft(e.th) < StepsLeft(th) && (e.th.pc.Loop? || e.th.pc == Gone) && e.spawn == None
  {
  }

  lemma EffectSignalled(c: Config, g: Shared, th: Thread, choice: bool)
    requires g.shutdown && g.signalled
    ensures var e := EffectOf(c, g, th, choice); e.g.shutdown && e.g.signalled
  {
    match th.pc
    case Loop(l) =>
    case Close(p) =>
    case Connect(n) =>
    case _ =>
  }

  lemma SignalStep(c: Config, s: State, e: Step)
    requires s.g.shutdown && s.g.signalled && Enabled(s, e)
    ensures var s' := Apply(c, s, e); s'.g.shutdown && s'.g.signalled && |s'.threads| >= |s.threads|
    ensures forall i :: 0 <= i < |s.threads| && !(e.Move? && e.thread == i) ==>
      Apply(c, s, e).threads[i] == s.threads[i]
  {
    if e.Move? { EffectSignalled(c, s.g, s.threads[e.thread], e.choice); }
  }

  /** How often thread i moves in a run. */
  function MovesOf(run: seq<Step>, i: nat): nat {
    if run == [] then 0 else (if run[0].Move? && run[0].thread == i then 1 else 0) + MovesOf(run[1..], i)
  }

  /** Once Close has signalled, a loop is gone after at most six more steps, however long its
      backoff: it makes no further attempt. */
  lemma {:induction false} LoopEnds(c: Config, s: State, run: seq<Step>, i: nat)
    requires s.g.shutdown && s.g.signalled && Legal(c, s, run)
    requires i < |s.threads| && (s.threads[i].pc.Loop? || s.threads[i].pc == Gone)
    ensures i < |Exec(c, s, run).threads|
    ensures MovesOf(run, i) + StepsLeft(Exec(c, s, run).threads[i]) <= StepsLeft(s.threads[i])
    ensures var th := Exec(c, s, run).threads[i]; th.pc.Loop? || th.pc == Gone
    ensures StepsLeft(s.threads[i]) <= 6
    decreases |run|
  {
    if run == [] {
    } else {
      SignalStep(c, s, run[0]);
      if run[0].Move? && run[0].thread == i { LoopStep(c, s.g, s.threads[i], run[0].choice); }
      LoopEnds(c, Apply(c, s, run[0]), run[1..], i);
    }
  }
}
