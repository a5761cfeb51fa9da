/** Who may not start a subprocess: nobody restarts it while auto-restart is off, and behind a
    stop's marker only who was already past his look at it. */
module AutoRestartStops {
  import opened Prelude
  import opened AutoRestart

  // ------------------------------------------------------------ auto-restart switched off

  /** No restart is alive or about to be launched, and none was ever counted. */
  predicate NoRestart(s: State) {
    && !s.restarting && s.count == 0
    && forall i :: 0 <= i < |s.threads| ==> s.threads[i].role != Restart && !Restarts(s.threads[i].pc)
  }

  predicate Restarts(pc: Pc) { pc == Watch(StateCheck) || pc == Watch(Cas) || pc == Watch(Spawn) }

  lemma OffEffect(c: Config, s: State, th: Thread, choice: bool)
    requires !c.autoRestart && WellPlaced(th) && th.role != Restart && !Restarts(th.pc) && !s.restarting
    ensures
      var e := EffectOf(c, s, th, choice);
      && !e.restarting && e.count == s.count && !Restarts(e.pc)
      && (e.spawn.Some? ==> e.spawn.value.role != Restart && !Restarts(e.spawn.value.pc))
  {
    match th.pc
    case Watch(w) =>
    case Core(k) => if Early(k) { OffEarly(c, s, th, choice); } else { OffLate(c, s, th, choice); }
    case _ =>
  }

  lemma OffEarly(c: Config, s: State, th: Thread, choice: bool)
    requires th.pc.Core? && Early(th.pc.k) && th.role != Restart && !s.restarting
    ensures
      var e := CoreEffect(c, s, th.role, th.pc.k, choice);
      && !e.restarting && e.count == s.count && !Restarts(e.pc)
      && (e.spawn.Some? ==> e.spawn.value.role != Restart && !Restarts(e.spawn.value.pc))
  {
  }

  lemma OffLate(c: Config, s: State, th: Thread, choice: bool)
    requires th.pc.Core? && !Early(th.pc.k) && th.role != Restart && !s.restarting
    ensures
      var e := CoreEffect(c, s, th.role, th.pc.k, choice);
      && !e.restarting && e.count == s.count && !Restarts(e.pc)
      && (e.spawn.Some? ==> e.spawn.value.role != Restart && !Restarts(e.spawn.value.pc))
  {
  }

  lemma OffStep(c: Config, s: State, e: Step)
    requires !c.autoRestart && Placed(s) && NoRestart(s) && Enabled(s, e)
    ensures NoRestart(Apply(c, s, e))
  {
    if e.Move? {
      assert WellPlaced(s.threads[e.thread]);
      OffEffect(c, s, s.threads[e.thread], e.choice);
      OffPerform(s, e.thread, EffectOf(c, s, s.threads[e.thread], e.choice));
    }
  }

  lemma OffPerform(s: State, i: nat, e: Effect)
    requires NoRestart(s) && i < |s.threads| && !e.restarting && e.count == 0 && !Restarts(e.pc)
    requires e.spawn.Some? ==> e.spawn.value.role != Restart && !Restarts(e.spawn.value.pc)
    ensures NoRestart(Perform(s, i, e))
  {
  }

  lemma {:induction false} OffRun(c: Config, s: State, run: seq<Step>)
    requires !c.autoRestart && Flight(s) && NoRestart(s) && Legal(c, s, run)
    ensures NoRestart(Exec(c, s, run))
    decreases |run|
  {
    if run == [] {
    } else {
      StepFlight(c, s, run[0]);
      OffStep(c, s, run[0]);
      OffRun(c, Apply(c, s, run[0]), run[1..]);
    }
  }

  /** With auto-restart off, no run ever has a restart loop, sets the flag or counts a restart. */
  lemma OffNeverRestarts(c: Config, s0: State, run: seq<Step>)
    requires !c.autoRestart && Init(s0) && Legal(c, s0, run)
    ensures
      var s := Exec(c, s0, run);
      s.count == 0 && !s.restarting && forall i :: 0 <= i < |s.threads| ==> s.threads[i].role != Restart
  {
    InitInv(c, s0);
    OffRun(c, s0, run);
  }

  // ------------------------------------------------------------ the stop marker

  /** A user's start takes back the stop marker. */
  predicate TakesBack(s: State, e: Step) {
    e.Move? && e.thread < |s.threads| && s.threads[e.thread].pc == ClearMarker
  }

  ghost predicate NoTakeBack(c: Config, s: State, run: seq<Step>)
    requires Legal(c, s, run)
    decreases |run|
  {
    run != [] ==> !TakesBack(s, run[0]) && NoTakeBack(c, Apply(c, s, run[0]), run[1..])
  }

  /** Just behind a look at the stop marker that found it unset: about to cancel the old
      lifecycle, to reset or to stamp the state, to install a lifecycle, to connect, or to
      declare the subprocess running. */
  predicate Armed(pc: Pc) {
    || pc == Loop(Cancel) || pc == Loop(Reset) || pc == Loop(Stamp)
    || pc == Core(NewLife) || pc == Core(Connect) || pc == Core(SetRunning)
  }

  /** Since the state s the marker has stayed set, and whoever is armed has not moved. */
  predicate Held(s: State, s': State) {
    && s'.stopped
    && forall i :: 0 <= i < |s'.threads| && Armed(s'.threads[i].pc) ==>
      i < |s.threads| && s.threads[i].pc == s'.threads[i].pc
  }

  /** Behind a set marker nobody gets armed, and only an armed thread makes it run. */
  lemma EffectHeld(c: Config, s: State, th: Thread, choice: bool)
    requires s.stopped && th.pc != ClearMarker && th.pc != Gone
    ensures
      var e := EffectOf(c, s, th, choice);
      && e.stopped && !Armed(e.pc) && (e.spawn.Some? ==> !Armed(e.spawn.value.pc))
      && (e.status == Running ==> s.status == Running || th.pc == Core(SetRunning))
  {
    match th.pc
    case Watch(w) => WatchHeld(c, s, th, choice);
    case Core(k) => if Early(k) { CoreHeldEarly(c, s, th, choice); } else { CoreHeldLate(c, s, th, choice); }
    case Loop(_) => LoopHeld(c, s, th, choice);
    case _ =>
  }

  lemma WatchHeld(c: Config, s: State, th: Thread, choice: bool)
    requires s.stopped && th.pc.Watch?
    ensures
      var e := WatchEffect(c, s, th.role, th.life, th.pc.w, choice);
      && e.stopped && !Armed(e.pc) && (e.spawn.Some? ==> !Armed(e.spawn.value.pc))
      && (e.status == Running ==> s.status == Running)
  {
  }

  lemma LoopHeld(c: Config, s: State, th: Thread, choice: bool)
    requires s.stopped && th.pc.Loop?
    ensures
      var e := LoopEffect(c, s, th.life, th.pc.l, choice);
      e.stopped && !Armed(e.pc) && e.spawn == None && (e.status == Running ==> s.status == Running)
  {
  }

  lemma CoreHeldEarly(c: Config, s: State, th: Thread, choice: bool)
    requires s.stopped && th.pc.Core? && Early(th.pc.k)
    ensures
      var e := CoreEffect(c, s, th.role, th.pc.k, choice);
      && e.stopped && !Armed(e.pc) && (e.spawn.Some? ==> !Armed(e.spawn.value.pc))
      && (e.status == Running ==> s.status == Running || th.pc == Core(SetRunning))
  {
  }

  lemma CoreHeldLate(c: Config, s: State, th: Thread, choice: bool)
    requires s.stopped && th.pc.Core? && !Early(th.pc.k)
    ensures
      var e := CoreEffect(c, s, th.role, th.pc.k, choice);
      && e.stopped && !Armed(e.pc) && (e.spawn.Some? ==> !Armed(e.spawn.value.pc))
      && (e.status == Running ==> s.status == Running || th.pc == Core(SetRunning))
  {
  }

  lemma StepHeld(c: Config, s: State, s1: State, e: Step)
    requires Held(s, s1) && Enabled(s1, e) && !TakesBack(s1, e)
    ensures Held(s, Apply(c, s1, e))
    ensures
      Apply(c, s1, e).status == Running ==>
      s1.status == Running || exists i :: 0 <= i < |s.threads| && s.threads[i].pc == Core(SetRunning)
  {
    if e.Move? {
      EffectHeld(c, s1, s1.threads[e.thread], e.choice);
      var s2 := Apply(c, s1, e);
      forall k | 0 <= k < |s2.threads| && Armed(s2.threads[k].pc)
        ensures k < |s.threads| && s.threads[k].pc == s2.threads[k].pc
      {
        assert k < |s1.threads| && k != e.thread && s2.threads[k] == s1.threads[k];
      }
    }
  }

  lemma {:induction false} RunHeld(c: Config, s: State, s1: State, run: seq<Step>)
    requires Held(s, s1) && Legal(c, s1, run) && NoTakeBack(c, s1, run)
    ensures Held(s, Exec(c, s1, run))
    ensures
      Exec(c, s1, run).status == Running ==>
      s1.status == Running || exists i :: 0 <= i < |s.threads| && s.threads[i].pc == Core(SetRunning)
    decreases |run|
  {
    if run == [] {
    } else {
      StepHeld(c, s, s1, run[0]);
      RunHeld(c, s, Apply(c, s1, run[0]), run[1..]);
    }
  }

  /** From a state with the marker set and until a user takes it back: nobody who was not
      already past his look at the marker cancels, resets, stamps, installs a lifecycle,
      connects or declares the subprocess running. */
  lemma StopHolds(c: Config, s: State, run: seq<Step>, i: nat)
    requires s.stopped && Legal(c, s, run) && NoTakeBack(c, s, run)
    ensures Exec(c, s, run).stopped
    ensures
      var ts := Exec(c, s, run).threads;
      i < |ts| && Armed(ts[i].pc) ==> i < |s.threads| && s.threads[i].pc == ts[i].pc
  {
    RunHeld(c, s, s, run);
  }

  /** The run makes it run, and no user takes the marker back. */
  ghost predicate Revives(c: Config, s: State, run: seq<Step>) {
    Legal(c, s, run) && NoTakeBack(c, s, run) && Exec(c, s, run).status == Running
  }

  /** A subprocess that does not run and whose marker is set can come back to life, without
      a user taking the marker back, exactly when some start is already past its last check. */
  lemma Resurrects(c: Config, s: State)
    requires s.stopped && s.status != Running
    ensures
      (exists run :: Revives(c, s, run)) <==> exists i :: 0 <= i < |s.threads| && s.threads[i].pc == Core(SetRunning)
  {
    if run :| Revives(c, s, run) {
      RunHeld(c, s, s, run);
    }
    if i: nat :| i < |s.threads| && s.threads[i].pc == Core(SetRunning) {
      LastStep(c, s, i);
    }
  }

  lemma LastStep(c: Config, s: State, i: nat)
    requires i < |s.threads| && s.threads[i].pc == Core(SetRunning)
    ensures Revives(c, s, [Move(i, true)])
  {
    var run, s' := [Move(i, true)], Apply(c, s, Move(i, true));
    assert run[1..] == [] && Legal(c, s', []) && NoTakeBack(c, s', []) && Exec(c, s', []) == s';
  }
}
