/** The registry over whole runs: a started process stays findable under its key, and a failed
    start leaves nothing behind. */
module LifecycleRegistry {
  import opened Prelude
  import opened Lifecycle
  import opened LifecycleTheorems

  /** The failed start has removed its process from the registry. */
  predicate Removed(pc: Pc) { pc.FailCount? || pc.FailClose? || pc.Release? || pc.Returned? }

  /** Registered, and not failed or not yet removed. */
  predicate Kept(pc: Pc) {
    || pc.RegCount? || pc.Build? || pc.Lock2? || pc.Gate2? || pc.Spawn? || pc.Publish? || pc.Unlock2? || pc.Launch?
    || pc.FailState? || pc.FailInc? || pc.FailRemove? || Succeeded(pc)
  }

  /** Nothing in the registry leads to the process of a failed start. */
  predicate GoneOk(c: Config, s: State, t: nat)
    requires Shaped(c, s) && t < |s.pc|
  {
    Removed(s.pc[t]) && s.procs[c.target[t]].owner == Some(t) ==>
      forall k :: k in s.registry ==> s.registry[k] != c.target[t]
  }

  /** A process between its registration and its end is found under its key. */
  predicate KeptOk(c: Config, s: State, t: nat)
    requires Shaped(c, s) && t < |s.pc|
  {
    var k := c.key[c.target[t]];
    Kept(s.pc[t]) ==> k in s.registry && s.registry[k] == c.target[t]
  }

  /** How a step uses the registry, and when it enters or leaves these regions. */
  predicate UsesRegistry(t: nat, pc: Pc, q: Proc, taken: bool, e: Effect) {
    && (e.entry == Store ==> pc.RegStore? && !taken) && (e.entry == Delete <==> pc.FailRemove? && taken)
    && (Removed(pc) ==> e.proc.owner == q.owner)
    && (Removed(e.pc) && e.proc.owner == Some(t) ==> Removed(pc) || pc.FailRemove?)
    && (Kept(e.pc) ==> (Kept(pc) && !pc.FailRemove?) || e.entry == Store)
  }

  lemma EntersEarly(t: nat, pc: Pc, q: Proc, flag: bool, taken: bool, ok: bool)
    requires LocalOk(t, pc, q) && !Kept(pc) && !Removed(pc)
    ensures UsesRegistry(t, pc, q, taken, ThreadEffect(t, pc, q, flag, taken, ok))
  {
  }

  lemma EntersRemoved(t: nat, pc: Pc, q: Proc, flag: bool, taken: bool, ok: bool)
    requires LocalOk(t, pc, q) && Removed(pc)
    ensures UsesRegistry(t, pc, q, taken, ThreadEffect(t, pc, q, flag, taken, ok))
  {
  }

  lemma EntersLate(t: nat, pc: Pc, q: Proc, flag: bool, taken: bool, ok: bool)
    requires LocalOk(t, pc, q) && Kept(pc) && !Succeeded(pc)
    ensures UsesRegistry(t, pc, q, taken, ThreadEffect(t, pc, q, flag, taken, ok))
  {
    if pc.FailState? || pc.FailInc? || pc.FailRemove? { EntersFailing(t, pc, q, flag, taken, ok); }
  }

  lemma EntersFailing(t: nat, pc: Pc, q: Proc, flag: bool, taken: bool, ok: bool)
    requires LocalOk(t, pc, q) && (pc.FailState? || pc.FailInc? || pc.FailRemove?)
    ensures UsesRegistry(t, pc, q, taken, ThreadEffect(t, pc, q, flag, taken, ok))
  {
  }

  lemma EntersWaiter(t: nat, pc: Pc, q: Proc, flag: bool, taken: bool, ok: bool)
    requires LocalOk(t, pc, q) && Succeeded(pc)
    ensures UsesRegistry(t, pc, q, taken, ThreadEffect(t, pc, q, flag, taken, ok))
  {
  }

  lemma Uses(c: Config, s: State, t: nat, ok: bool)
    requires Inv(c, s) && t < |s.pc|
    ensures
      var p := c.target[t];
      UsesRegistry(t, s.pc[t], s.procs[p], c.key[p] in s.registry, EffectOf(c, s, t, ok))
  {
    var p := c.target[t];
    var taken := c.key[p] in s.registry;
    assert ThreadOk(c, s, t) && ProcOk(c, s, p);
    if Succeeded(s.pc[t]) { EntersWaiter(t, s.pc[t], s.procs[p], s.flag, taken, ok); }
    else if Kept(s.pc[t]) { EntersLate(t, s.pc[t], s.procs[p], s.flag, taken, ok); }
    else if Removed(s.pc[t]) { EntersRemoved(t, s.pc[t], s.procs[p], s.flag, taken, ok); }
    else { EntersEarly(t, s.pc[t], s.procs[p], s.flag, taken, ok); }
  }

  // ------------------------------------------------------------ one step

  lemma OwnGone(c: Config, s: State, t: nat, e: Effect)
    requires Inv(c, s) && t < |s.pc| && GoneOk(c, s, t)
    requires UsesRegistry(t, s.pc[t], s.procs[c.target[t]], c.key[c.target[t]] in s.registry, e)
    ensures Shaped(c, Perform(c, s, t, e)) && GoneOk(c, Perform(c, s, t, e), t)
  {
    var p, s' := c.target[t], Perform(c, s, t, e);
    if Removed(e.pc) && e.proc.owner == Some(t) {
      forall k | k in s'.registry ensures s'.registry[k] != p {
        assert EntryOk(c, s, k);
      }
    }
  }

  lemma OtherGone(c: Config, s: State, u: nat, e: Effect, t: nat)
    requires Inv(c, s) && t < |s.pc| && u < |s.pc| && u != t && GoneOk(c, s, t) && Sound(c, s, u, e)
    requires UsesRegistry(u, s.pc[u], s.procs[c.target[u]], c.key[c.target[u]] in s.registry, e)
    ensures Shaped(c, Perform(c, s, u, e)) && GoneOk(c, Perform(c, s, u, e), t)
  {
    var p, s' := c.target[t], Perform(c, s, u, e);
    assert ThreadOk(c, s, u) && ProcOk(c, s, p);
    if Removed(s.pc[t]) && s'.procs[p].owner == Some(t) {
      assert s.procs[p].owner == Some(t);
      assert e.entry == Store ==> c.target[u] != p;
    }
  }

  lemma OwnKept(c: Config, s: State, t: nat, e: Effect)
    requires Inv(c, s) && t < |s.pc| && KeptOk(c, s, t)
    requires UsesRegistry(t, s.pc[t], s.procs[c.target[t]], c.key[c.target[t]] in s.registry, e)
    ensures Shaped(c, Perform(c, s, t, e)) && KeptOk(c, Perform(c, s, t, e), t)
  {
  }

  lemma OtherKept(c: Config, s: State, u: nat, e: Effect, t: nat)
    requires Shaped(c, s) && t < |s.pc| && u < |s.pc| && u != t && KeptOk(c, s, t) && KeptOk(c, s, u)
    requires ThreadOk(c, s, u) && ThreadOk(c, s, t)
    requires UsesRegistry(u, s.pc[u], s.procs[c.target[u]], c.key[c.target[u]] in s.registry, e)
    ensures Shaped(c, Perform(c, s, u, e)) && KeptOk(c, Perform(c, s, u, e), t)
  {
    if Kept(s.pc[t]) && e.entry == Delete {
      assert Kept(s.pc[u]) && Owns(s.pc[u]) && Owns(s.pc[t]);
      assert c.key[c.target[u]] != c.key[c.target[t]];
    }
  }

  predicate AllGone(c: Config, s: State) { Shaped(c, s) && forall t :: 0 <= t < |s.pc| ==> GoneOk(c, s, t) }

  predicate AllKept(c: Config, s: State) { Shaped(c, s) && forall t :: 0 <= t < |s.pc| ==> KeptOk(c, s, t) }

  /** What every step but a thread's leaves alone. */
  predicate Beside(s: State, s': State) {
    && s'.pc == s.pc && |s'.procs| == |s.procs|
    && (forall p :: 0 <= p < |s.procs| ==> s'.procs[p].owner == s.procs[p].owner)
    && (forall k :: k in s'.registry ==> k in s.registry && s'.registry[k] == s.registry[k])
  }

  lemma RestBeside(c: Config, s: State, e: Step)
    requires Shaped(c, s) && Enabled(c, s, e) && !e.Advance?
    ensures Beside(s, Apply(c, s, e)) && (!e.RemoveEntry? ==> Apply(c, s, e).registry == s.registry)
  {
  }

  lemma GoneBeside(c: Config, s: State, s': State)
    requires AllGone(c, s) && Beside(s, s')
    ensures AllGone(c, s')
  {
    forall t | 0 <= t < |s.pc| ensures GoneOk(c, s', t) { assert GoneOk(c, s, t); }
  }

  lemma KeptBeside(c: Config, s: State, s': State)
    requires AllKept(c, s) && Beside(s, s') && s'.registry == s.registry
    ensures AllKept(c, s')
  {
    forall t | 0 <= t < |s.pc| ensures KeptOk(c, s', t) { assert KeptOk(c, s, t); }
  }

  lemma GoneAdvance(c: Config, s: State, u: nat, ok: bool)
    requires Inv(c, s) && Enabled(c, s, Advance(u, ok)) && AllGone(c, s)
    ensures AllGone(c, Perform(c, s, u, EffectOf(c, s, u, ok)))
  {
    var e := EffectOf(c, s, u, ok);
    Uses(c, s, u, ok);
    AdvanceSound(c, s, u, ok);
    forall t | 0 <= t < |s.pc| ensures Shaped(c, Perform(c, s, u, e)) && GoneOk(c, Perform(c, s, u, e), t) {
      assert GoneOk(c, s, t);
      if t == u { OwnGone(c, s, t, e); } else { OtherGone(c, s, u, e, t); }
    }
  }

  lemma GoneStep(c: Config, s: State, e: Step)
    requires Inv(c, s) && Enabled(c, s, e) && AllGone(c, s)
    ensures AllGone(c, Apply(c, s, e))
  {
    if e.Advance? {
      GoneAdvance(c, s, e.t, e.ok);
    } else {
      RestBeside(c, s, e);
      GoneBeside(c, s, Apply(c, s, e));
    }
  }

  lemma KeptAdvance(c: Config, s: State, u: nat, ok: bool)
    requires Inv(c, s) && Enabled(c, s, Advance(u, ok)) && AllKept(c, s)
    ensures AllKept(c, Perform(c, s, u, EffectOf(c, s, u, ok)))
  {
    var e := EffectOf(c, s, u, ok);
    Uses(c, s, u, ok);
    forall t | 0 <= t < |s.pc| ensures Shaped(c, Perform(c, s, u, e)) && KeptOk(c, Perform(c, s, u, e), t) {
      assert ThreadOk(c, s, t) && ThreadOk(c, s, u) && KeptOk(c, s, t) && KeptOk(c, s, u);
      if t == u { OwnKept(c, s, t, e); } else { OtherKept(c, s, u, e, t); }
    }
  }

  lemma KeptStep(c: Config, s: State, e: Step)
    requires Inv(c, s) && Enabled(c, s, e) && AllKept(c, s) && !e.RemoveEntry?
    ensures AllKept(c, Apply(c, s, e))
  {
    if e.Advance? {
      KeptAdvance(c, s, e.t, e.ok);
    } else {
      RestBeside(c, s, e);
      KeptBeside(c, s, Apply(c, s, e));
    }
  }

  // ------------------------------------------------------------ whole runs

  lemma {:induction false} GoneRun(c: Config, s: State, run: seq<Step>)
    requires Inv(c, s) && Legal(c, s, run) && AllGone(c, s)
    ensures AllGone(c, Exec(c, s, run))
    decreases |run|
  {
    if run == [] {
    } else {
      StepInv(c, s, run[0]);
      GoneStep(c, s, run[0]);
      GoneRun(c, Apply(c, s, run[0]), run[1..]);
    }
  }

  /** In every run: once a Start that had won its process has returned an error, no key leads to
      that process any more. */
  lemma FailedIsGone(c: Config, s0: State, run: seq<Step>, s: State, t: nat)
    requires Reached(c, s0, run, s) && t < |s.pc| && s.pc[t] == Returned && s.procs[c.target[t]].owner == Some(t)
    ensures forall k :: k in s.registry ==> s.registry[k] != c.target[t]
  {
    InitInv(c, s0);
    GoneRun(c, s0, run);
    assert GoneOk(c, s, t);
  }

  ghost predicate NoRemoval(run: seq<Step>) { forall i :: 0 <= i < |run| ==> !run[i].RemoveEntry? }

  lemma {:induction false} KeptRun(c: Config, s: State, run: seq<Step>)
    requires Inv(c, s) && Legal(c, s, run) && AllKept(c, s) && NoRemoval(run)
    ensures AllKept(c, Exec(c, s, run))
    decreases |run|
  {
    if run == [] {
    } else {
      StepInv(c, s, run[0]);
      KeptStep(c, s, run[0]);
      KeptRun(c, Apply(c, s, run[0]), run[1..]);
    }
  }

  /** In every run in which nobody removes an entry by hand: a process whose Start succeeded is
      found under its key, while it runs and after it has ended, whoever else asked for that
      key. */
  lemma StartedIsFound(c: Config, s0: State, run: seq<Step>, s: State, t: nat)
    requires Reached(c, s0, run, s) && NoRemoval(run) && t < |s.pc| && Succeeded(s.pc[t])
    ensures var k := c.key[c.target[t]]; k in s.registry && s.registry[k] == c.target[t]
  {
    InitInv(c, s0);
    KeptRun(c, s0, run);
    assert KeptOk(c, s, t);
  }
}
