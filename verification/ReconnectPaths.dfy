/** What the loop, Connect and Close do when nobody interferes: a reconnect that succeeds, an
    attempt that fails, the backoff, a first connection, and closing. */
module ReconnectPaths {
  import opened Prelude
  import opened Reconnect

  /** One thread takes several steps in a row, and the environment always decides the same way. */
  function InARow(i: nat, n: nat, choice: bool): seq<Step> { seq(n, k => Move(i, choice)) }

  /** That is possible, and leads to these shared values and this thread; nobody else moves. */
  ghost predicate Goes(c: Config, s: State, i: nat, n: nat, choice: bool, g: Shared, th: Thread) {
    && i < |s.threads| && Legal(c, s, InARow(i, n, choice))
    && Exec(c, s, InARow(i, n, choice)) == State(g, s.threads[i := th])
  }

  lemma GoesNowhere(c: Config, s: State, i: nat, choice: bool)
    requires i < |s.threads|
    ensures Goes(c, s, i, 0, choice, s.g, s.threads[i])
  {
    assert InARow(i, 0, choice) == [];
    assert s.threads[i := s.threads[i]] == s.threads;
  }

  /** One more step, of a thread that is not about to launch a loop. */
  lemma Further(c: Config, s: State, i: nat, n: nat, choice: bool, g: Shared, th: Thread)
    returns (g': Shared, th': Thread)
    requires Goes(c, s, i, n, choice, g, th) && th.pc != Gone && th.pc != Report(Launch)
    requires NeedsLock(th.pc) ==> !g.lock
    ensures Goes(c, s, i, n + 1, choice, g', th')
    ensures g' == EffectOf(c, g, th, choice).g && th' == EffectOf(c, g, th, choice).th
  {
    var s1 := State(g, s.threads[i := th]);
    g', th' := EffectOf(c, g, th, choice).g, EffectOf(c, g, th, choice).th;
    var s2 := Moved(c, s1, i, choice);
    assert s.threads[i := th][i := th'] == s.threads[i := th'];
    Unroll(c, s1, [Move(i, choice)]);
    Append(c, s, InARow(i, n, choice), [Move(i, choice)]);
    assert InARow(i, n, choice) + [Move(i, choice)] == InARow(i, n + 1, choice);
  }

  // ------------------------------------------------------------ the loop

  /** Up to the dial: the old connection is closed and taken back. */
  lemma AttemptBegins(c: Config, s: State, i: nat, choice: bool) returns (g: Shared, th: Thread)
    requires i < |s.threads| && s.threads[i].pc == Loop(Top) && !s.g.shutdown && !s.g.lock
    ensures Goes(c, s, i, 2, choice, g, th)
    ensures th == s.threads[i].(pc := Loop(Dial), attempts := s.threads[i].attempts + 1)
    ensures g == s.g.(conns := CloseCurrent(s.g), current := None)
  {
    GoesNowhere(c, s, i, choice);
    var g1, th1 := Further(c, s, i, 0, choice, s.g, s.threads[i]);
    g, th := Further(c, s, i, 1, choice, g1, th1);
  }

  /** An undisturbed attempt that gets through: the old connection is closed, the new one is
      open and published, the connection no longer counts as failed, and the loop ends. */
  lemma ReconnectSucceeds(c: Config, s: State, i: nat) returns (g: Shared, th: Thread)
    requires i < |s.threads| && s.threads[i].pc == Loop(Top) && !s.g.shutdown && !s.g.lock
    ensures Goes(c, s, i, 7, true, g, th) && th.pc == Gone
    ensures
      var n := |s.g.conns|;
      && |g.conns| == n + 1 && !g.conns[n] && g.current == Some(n)
      && (s.g.current.Some? && s.g.current.value < n ==> g.conns[s.g.current.value])
      && (forall k :: 0 <= k < n && s.g.current != Some(k) ==> g.conns[k] == s.g.conns[k])
      && !g.failed && !g.reconnecting && !g.lock && !g.shutdown && g.signalled == s.g.signalled
  {
    var g1, th1 := AttemptBegins(c, s, i, true);
    var g2, th2 := Further(c, s, i, 2, true, g1, th1);
    var g3, th3 := Further(c, s, i, 3, true, g2, th2);
    g, th := Publishes(c, s, i, 4, g3, th3, |s.g.conns|);
  }

  lemma Publishes(c: Config, s: State, i: nat, n: nat, g: Shared, th: Thread, k: nat) returns (g': Shared, th': Thread)
    requires Goes(c, s, i, n, true, g, th) && th.pc == Loop(CheckLive(k)) && !g.shutdown
    ensures Goes(c, s, i, n + 3, true, g', th') && th'.pc == Gone
    ensures g' == g.(current := Some(k), lock := false, failed := false, reconnecting := false)
  {
    var g1, th1 := Further(c, s, i, n, true, g, th);
    var g2, th2 := Further(c, s, i, n + 1, true, g1, th1);
    g', th' := Further(c, s, i, n + 2, true, g2, th2);
  }

  /** An attempt whose dial fails is counted; the loop goes into its backoff, or gives up if
      that was the last attempt allowed. */
  lemma AttemptFails(c: Config, s: State, i: nat) returns (g: Shared, th: Thread)
    requires i < |s.threads| && s.threads[i].pc == Loop(Top) && !s.g.shutdown && !s.g.lock
    ensures
      var attempts := s.threads[i].attempts + 1;
      && Goes(c, s, i, 4, false, g, th) && th.attempts == attempts && th.backoff == s.threads[i].backoff
      && th.pc == Loop(if c.maxAttempts > 0 && attempts >= c.maxAttempts then GiveUp else Backoff)
      && g.current == None && |g.conns| == |s.g.conns| && g.reconnecting == s.g.reconnecting
  {
    var g1, th1 := AttemptBegins(c, s, i, false);
    var g2, th2 := Further(c, s, i, 2, false, g1, th1);
    g, th := Further(c, s, i, 3, false, g2, th2);
  }

  /** In the backoff: the timer starts the next attempt; a signal of Close ends the loop, with
      the flag given back; without either the loop stays where it is. */
  lemma BackoffWaits(c: Config, s: State, i: nat, timer: bool) returns (g: Shared, th: Thread)
    requires i < |s.threads| && s.threads[i].pc == Loop(Backoff)
    ensures Goes(c, s, i, 1, timer, g, th)
    ensures th.pc == if timer then Loop(Top) else if s.g.signalled then Gone else Loop(Backoff)
    ensures g == if !timer && s.g.signalled then s.g.(reconnecting := false) else s.g
    ensures th.attempts == s.threads[i].attempts && (!timer ==> th.backoff == s.threads[i].backoff)
  {
    GoesNowhere(c, s, i, timer);
    g, th := Further(c, s, i, 0, timer, s.g, s.threads[i]);
  }

  /** A loop that finds the connection shut down before an attempt makes none; one that finds
      it under the mutex closes what it has just dialled. */
  lemma LoopGivesWay(c: Config, s: State, i: nat, choice: bool) returns (g: Shared, th: Thread)
    requires i < |s.threads| && s.g.shutdown
    requires s.threads[i].pc == Loop(Top) || (s.threads[i].pc.Loop? && s.threads[i].pc.l.CheckLive?)
    ensures
      var top := s.threads[i].pc == Loop(Top);
      && Goes(c, s, i, if top then 1 else 2, choice, g, th) && th.pc == Gone && th.attempts == s.threads[i].attempts
      && !g.reconnecting && g.current == s.g.current && g.failed == s.g.failed && |g.conns| == |s.g.conns|
      && (top ==> g.conns == s.g.conns)
      && (!top && s.threads[i].pc.l.conn < |g.conns| ==> g.conns[s.threads[i].pc.l.conn] && !g.lock)
  {
    GoesNowhere(c, s, i, choice);
    g, th := Further(c, s, i, 0, choice, s.g, s.threads[i]);
    if s.threads[i].pc != Loop(Top) { g, th := Further(c, s, i, 1, choice, g, th); }
  }

  // ------------------------------------------------------------ Connect and Close

  lemma ConnectDials(c: Config, s: State, i: nat) returns (g: Shared, th: Thread)
    requires i < |s.threads| && s.threads[i].pc == Connect(CheckShutdown) && !s.g.shutdown && !s.g.lock
    ensures Goes(c, s, i, 4, true, g, th) && th.pc == Connect(CheckVersion(|s.g.conns|))
    ensures g == s.g.(failed := false, lock := true, conns := s.g.conns + [false])
  {
    GoesNowhere(c, s, i, true);
    var g1, th1 := Further(c, s, i, 0, true, s.g, s.threads[i]);
    var g2, th2 := Further(c, s, i, 1, true, g1, th1);
    var g3, th3 := Further(c, s, i, 2, true, g2, th2);
    g, th := Further(c, s, i, 3, true, g3, th3);
  }

  /** An undisturbed Connect takes back an earlier failure, publishes a fresh connection, and
      closes the one it replaced. */
  lemma ConnectSucceeds(c: Config, s: State, i: nat) returns (g: Shared, th: Thread)
    requires i < |s.threads| && s.threads[i].pc == Connect(CheckShutdown) && !s.g.shutdown && !s.g.lock
    requires s.g.current.Some? ==> s.g.current.value < |s.g.conns|
    ensures Goes(c, s, i, 7, true, g, th) && th.pc == Gone
    ensures
      var n := |s.g.conns|;
      && |g.conns| == n + 1 && !g.conns[n] && g.current == Some(n)
      && (s.g.current.Some? ==> g.conns[s.g.current.value])
      && (forall k :: 0 <= k < n && s.g.current != Some(k) ==> g.conns[k] == s.g.conns[k])
      && !g.failed && !g.lock && !g.shutdown && g.reconnecting == s.g.reconnecting
  {
    var g1, th1 := ConnectDials(c, s, i);
    var g2, th2 := Further(c, s, i, 4, true, g1, th1);
    var g3, th3 := Further(c, s, i, 5, true, g2, th2);
    g, th := Further(c, s, i, 6, true, g3, th3);
  }

  /** A server of another version: the fresh connection is closed again, and nothing else is
      touched. */
  lemma WrongVersion(c: Config, s: State, i: nat, k: nat) returns (g: Shared, th: Thread)
    requires i < |s.threads| && s.threads[i].pc == Connect(CheckVersion(k)) && k < |s.g.conns|
    ensures Goes(c, s, i, 1, false, g, th) && th.pc == Gone
    ensures g == s.g.(conns := s.g.conns[k := true], lock := false)
  {
    GoesNowhere(c, s, i, false);
    g, th := Further(c, s, i, 0, false, s.g, s.threads[i]);
  }

  /** The first Close marks the shutdown, wakes the loop and closes the published connection;
      any later one does nothing. */
  lemma CloseCloses(c: Config, s: State, i: nat, choice: bool) returns (g: Shared, th: Thread)
    requires i < |s.threads| && s.threads[i].pc == Close(Swap) && !s.g.lock
    requires s.g.current.Some? ==> s.g.current.value < |s.g.conns|
    ensures Goes(c, s, i, if s.g.shutdown then 1 else 4, choice, g, th)
    ensures s.g.shutdown ==> g == s.g && th.pc == Gone
    ensures !s.g.shutdown ==>
      && th.pc == Close(Returned) && g.shutdown && g.signalled && !g.lock && g.current == s.g.current
      && g.conns == if s.g.current.Some? then s.g.conns[s.g.current.value := true] else s.g.conns
  {
    GoesNowhere(c, s, i, choice);
    g, th := Further(c, s, i, 0, choice, s.g, s.threads[i]);
    if !s.g.shutdown {
      g, th := Further(c, s, i, 1, choice, g, th);
      g, th := Further(c, s, i, 2, choice, g, th);
      g, th := Further(c, s, i, 3, choice, g, th);
    }
  }
}
