/** How a Start ends and how a process ends, in every interleaving, told from what happened:
    the answers of the operating system, the stops, and what stood in the way of the Start. */
module LifecycleEndings {
  import opened Prelude
  import opened Lifecycle
  import opened LifecycleTheorems

  /** What a run did to thread t and its process.  moved: a stop has moved the process to
      Stopping.  answer: what Wait returned.  seen: whether the process had been moved when the
      waiter looked, after an error.  reason: something stood in the way of the Start. */
  datatype Past = Past(moved: bool, answer: Option<bool>, seen: Option<bool>, reason: bool)

  const NOTHING := Past(false, None, None, false)

  /** What stands in the way at a program point: the shutdown flag at its three checks, a process
      that is not Pending, a key that is taken, or the operating system. */
  predicate Obstacle(pc: Pc, st: ProcState, flag: bool, taken: bool, ok: bool) {
    || ((pc.Gate1? || pc.RegCheck? || pc.Gate2?) && flag)
    || (pc.Cas? && st != Pending)
    || (pc.RegStore? && taken)
    || ((pc.Build? || pc.Spawn?) && !ok)
  }

  function Own(pc: Pc, q: Proc, flag: bool, taken: bool, ok: bool, h: Past): Past {
    h.(answer := if pc.WWait? then Some(ok) else h.answer,
       seen := if pc.WErr? then Some(h.moved) else h.seen,
       reason := h.reason || Obstacle(pc, q.st, flag, taken, ok))
  }

  function Next(c: Config, s: State, e: Step, t: nat, h: Past): Past
    requires Shaped(c, s) && t < |s.pc|
  {
    var p := c.target[t];
    match e
    case Advance(u, ok) => if u == t then Own(s.pc[t], s.procs[p], s.flag, c.key[p] in s.registry, ok, h) else h
    case StopCas(r) => if r == p then h.(moved := true) else h
    case ForceCas(r) => if r == p then h.(moved := true) else h
    case _ => h
  }

  ghost function Tell(c: Config, s: State, run: seq<Step>, t: nat, h: Past): Past
    requires Shaped(c, s) && t < |s.pc| && Legal(c, s, run)
    decreases |run|
  {
    if run == [] then h else Tell(c, Apply(c, s, run[0]), run[1..], t, Next(c, s, run[0], t, h))
  }

  // ------------------------------------------------------------ what it makes of the process

  /** The Start is on its way out without success. */
  predicate Refused(pc: Pc) {
    || pc.RegUndo? || pc.FailState? || pc.FailInc? || pc.FailRemove? || pc.FailCount? || pc.FailClose?
    || pc.Release? || pc.Returned?
  }

  predicate Moved(q: Proc, h: Past) {
    && (q.st == Pending || q.st == Starting || q.st == Running ==> !h.moved)
    && (q.st == Stopping ==> h.moved)
  }

  predicate Ended(pc: Pc, q: Proc, h: Past) {
    match pc
    case WErr => h.answer == Some(false)
    case WClean => h.answer == Some(true)
    case WSetFailed | WInc => h.answer == Some(false) && h.seen == Some(false)
    case WClose | WRelease | WReturned =>
      if h.answer == Some(true) then q.st == Stopped
      else h.answer == Some(false) && h.seen.Some? && q.st == if h.seen.value then Stopped else Failed
    case _ => true
  }

  predicate Told(pc: Pc, q: Proc, h: Past) {
    Moved(q, h) && Ended(pc, q, h) && (Refused(pc) <==> h.reason)
  }

  lemma WaiterTold(t: nat, pc: Pc, q: Proc, flag: bool, taken: bool, ok: bool, h: Past)
    requires LocalOk(t, pc, q) && Succeeded(pc) && Told(pc, q, h)
    ensures var e := ThreadEffect(t, pc, q, flag, taken, ok); Told(e.pc, e.proc, Own(pc, q, flag, taken, ok, h))
  {
    WaiterMoved(t, pc, q, flag, taken, ok, h);
    WaiterEnded(t, pc, q, flag, taken, ok, h);
  }

  lemma WaiterMoved(t: nat, pc: Pc, q: Proc, flag: bool, taken: bool, ok: bool, h: Past)
    requires LocalOk(t, pc, q) && Succeeded(pc) && Moved(q, h)
    ensures var e := ThreadEffect(t, pc, q, flag, taken, ok); Moved(e.proc, h) && !Refused(e.pc)
  {
  }

  lemma WaiterEnded(t: nat, pc: Pc, q: Proc, flag: bool, taken: bool, ok: bool, h: Past)
    requires LocalOk(t, pc, q) && Succeeded(pc) && Moved(q, h) && Ended(pc, q, h)
    ensures var e := ThreadEffect(t, pc, q, flag, taken, ok); Ended(e.pc, e.proc, Own(pc, q, flag, taken, ok, h))
  {
  }

  lemma StartTold(t: nat, pc: Pc, q: Proc, flag: bool, taken: bool, ok: bool, h: Past)
    requires LocalOk(t, pc, q) && !Succeeded(pc) && Told(pc, q, h)
    ensures var e := ThreadEffect(t, pc, q, flag, taken, ok); Told(e.pc, e.proc, Own(pc, q, flag, taken, ok, h))
  {
    StartMoved(t, pc, q, flag, taken, ok, h);
    StartRefused(t, pc, q, flag, taken, ok);
  }

  lemma StartMoved(t: nat, pc: Pc, q: Proc, flag: bool, taken: bool, ok: bool, h: Past)
    requires LocalOk(t, pc, q) && !Succeeded(pc) && Moved(q, h)
    ensures var e := ThreadEffect(t, pc, q, flag, taken, ok); Moved(e.proc, h) && Ended(e.pc, e.proc, h)
  {
  }

  lemma StartRefused(t: nat, pc: Pc, q: Proc, flag: bool, taken: bool, ok: bool)
    requires LocalOk(t, pc, q) && !Succeeded(pc)
    ensures
      Refused(ThreadEffect(t, pc, q, flag, taken, ok).pc) <==> Refused(pc) || Obstacle(pc, q.st, flag, taken, ok)
  {
  }

  /** A process at the hands of somebody else, as far as thread t is concerned. */
  lemma OtherTold(t: nat, pc: Pc, q: Proc, q': Proc, h: Past, h': Past)
    requires LocalOk(t, pc, q) && Told(pc, q, h) && Edge(q.st, q'.st)
    requires h' == h.(moved := h'.moved) && (h'.moved <==> h.moved || (q.st != Stopping && q'.st == Stopping))
    requires h'.moved && !h.moved ==> q'.st == Stopping
    ensures Told(pc, q', h')
  {
  }

  lemma AdvanceTold(c: Config, s: State, u: nat, ok: bool, t: nat, h: Past)
    requires Inv(c, s) && Enabled(c, s, Advance(u, ok)) && t < |s.pc| && Told(s.pc[t], s.procs[c.target[t]], h)
    ensures
      var s' := Apply(c, s, Advance(u, ok));
      t < |s'.pc| && |s'.procs| == |s.procs| && Told(s'.pc[t], s'.procs[c.target[t]], Next(c, s, Advance(u, ok), t, h))
  {
    if u == t { OwnTold(c, s, ok, t, h); } else { StrangerTold(c, s, u, ok, t, h); }
  }

  lemma OwnTold(c: Config, s: State, ok: bool, t: nat, h: Past)
    requires Inv(c, s) && t < |s.pc| && Told(s.pc[t], s.procs[c.target[t]], h)
    ensures
      var e := EffectOf(c, s, t, ok);
      Told(e.pc, e.proc, Own(s.pc[t], s.procs[c.target[t]], s.flag, c.key[c.target[t]] in s.registry, ok, h))
  {
    var p := c.target[t];
    assert ThreadOk(c, s, t) && ProcOk(c, s, p);
    var taken := c.key[p] in s.registry;
    if Succeeded(s.pc[t]) {
      WaiterTold(t, s.pc[t], s.procs[p], s.flag, taken, ok, h);
    } else {
      StartTold(t, s.pc[t], s.procs[p], s.flag, taken, ok, h);
    }
  }

  lemma StrangerTold(c: Config, s: State, u: nat, ok: bool, t: nat, h: Past)
    requires Inv(c, s) && Enabled(c, s, Advance(u, ok)) && t < |s.pc| && t != u
    requires Told(s.pc[t], s.procs[c.target[t]], h)
    ensures
      var s' := Perform(c, s, u, EffectOf(c, s, u, ok));
      s'.pc[t] == s.pc[t] && Told(s.pc[t], s'.procs[c.target[t]], h)
  {
    var p := c.target[t];
    assert ThreadOk(c, s, t) && ProcOk(c, s, p);
    AdvanceSound(c, s, u, ok);
    if c.target[u] == p {
      NeverStops(u, s.pc[u], s.procs[p], s.flag, c.key[p] in s.registry, ok);
      OtherTold(t, s.pc[t], s.procs[p], EffectOf(c, s, u, ok).proc, h, h);
    }
  }

  lemma NeverStops(u: nat, pc: Pc, q: Proc, flag: bool, taken: bool, ok: bool)
    ensures ThreadEffect(u, pc, q, flag, taken, ok).proc.st == Stopping ==> q.st == Stopping
  {
  }

  lemma PutTold(c: Config, s: State, e: Step, t: nat, h: Past)
    requires Inv(c, s) && Enabled(c, s, e) && OnProcess(e) && t < |s.pc| && Told(s.pc[t], s.procs[c.target[t]], h)
    ensures
      var s' := Apply(c, s, e);
      s'.pc == s.pc && |s'.procs| == |s.procs| && Told(s.pc[t], s'.procs[c.target[t]], Next(c, s, e, t, h))
  {
    var p := c.target[t];
    assert ThreadOk(c, s, t) && ProcOk(c, s, p);
    if e.ForceCas? { ForceOnlyRunning(c, s, e.p); }
    OtherTold(t, s.pc[t], s.procs[p], Apply(c, s, e).procs[p], h, Next(c, s, e, t, h));
  }

  lemma VisitTold(c: Config, s: State, r: nat, t: nat, h: Past)
    requires Inv(c, s) && Enabled(c, s, ShutVisit(r)) && t < |s.pc| && Told(s.pc[t], s.procs[c.target[t]], h)
    ensures
      var s' := Apply(c, s, ShutVisit(r));
      s'.pc == s.pc && |s'.procs| == |s.procs| && Told(s.pc[t], s'.procs[c.target[t]], h)
  {
    assert ThreadOk(c, s, t) && ProcOk(c, s, c.target[t]);
    OtherTold(t, s.pc[t], s.procs[c.target[t]], Apply(c, s, ShutVisit(r)).procs[c.target[t]], h, h);
  }

  lemma StepTold(c: Config, s: State, e: Step, t: nat, h: Past)
    requires Inv(c, s) && Enabled(c, s, e) && t < |s.pc| && Told(s.pc[t], s.procs[c.target[t]], h)
    ensures
      var s' := Apply(c, s, e);
      && Shaped(c, s') && t < |s'.pc| && Told(s'.pc[t], s'.procs[c.target[t]], Next(c, s, e, t, h))
  {
    StepInv(c, s, e);
    match e
    case Advance(u, ok) => AdvanceTold(c, s, u, ok, t, h);
    case StopCas(_) | SawRunning(_) | ForceCas(_) => PutTold(c, s, e, t, h);
    case HealthRunning(p) => HealthNeverFires(c, s, p);
    case HealthStarting(p) => HealthNeverFires(c, s, p);
    case HealthStopping(p) => HealthNeverFires(c, s, p);
    case ShutVisit(p) => VisitTold(c, s, p, t, h);
    case _ =>
  }

  lemma {:induction false} TellRun(c: Config, s: State, run: seq<Step>, t: nat, h: Past)
    requires Inv(c, s) && Legal(c, s, run) && t < |s.pc| && Told(s.pc[t], s.procs[c.target[t]], h)
    ensures t < |Exec(c, s, run).pc|
    ensures Told(Exec(c, s, run).pc[t], Exec(c, s, run).procs[c.target[t]], Tell(c, s, run, t, h))
    decreases |run|
  {
    if run == [] {
    } else {
      StepTold(c, s, run[0], t, h);
      StepInv(c, s, run[0]);
      TellRun(c, Apply(c, s, run[0]), run[1..], t, Next(c, s, run[0], t, h));
    }
  }

  lemma PastTold(c: Config, s0: State, run: seq<Step>, s: State, t: nat)
    requires Reached(c, s0, run, s) && t < |s0.pc|
    ensures Shaped(c, s) && t < |s.pc| && Told(s.pc[t], s.procs[c.target[t]], Tell(c, s0, run, t, NOTHING))
  {
    InitInv(c, s0);
    TellRun(c, s0, run, t, NOTHING);
  }

  // ------------------------------------------------------------ what every run shows

  /** In every run, when the process of a successful Start has ended, Wait has returned; a clean
      exit makes it Stopped; an error makes it Failed if and only if no stop had moved it to
      Stopping by the time the waiter looked, and Stopped otherwise. */
  lemma ProcessEnds(c: Config, s0: State, run: seq<Step>, s: State, t: nat)
    requires Reached(c, s0, run, s) && t < |s0.pc| && t < |s.pc| && Succeeded(s.pc[t])
    requires Terminal(s.procs[c.target[t]].st)
    ensures
      var h, st := Tell(c, s0, run, t, NOTHING), s.procs[c.target[t]].st;
      && h.answer.Some? && (h.answer.value ==> st == Stopped)
      && (!h.answer.value ==> h.seen.Some? && (st == Failed <==> !h.seen.value) && (st == Stopped <==> h.seen.value))
  {
    ReachedInv(c, s0, run, s);
    PastTold(c, s0, run, s, t);
    OwnerSees(c, s, t);
    WaitedFor(s.pc[t], s.procs[c.target[t]], Tell(c, s0, run, t, NOTHING));
  }

  lemma OwnerSees(c: Config, s: State, t: nat)
    requires Inv(c, s) && t < |s.pc| && Succeeded(s.pc[t])
    ensures OwnerView(s.pc[t], s.procs[c.target[t]])
  {
    assert ThreadOk(c, s, t) && ProcOk(c, s, c.target[t]);
  }

  lemma WaitedFor(pc: Pc, q: Proc, h: Past)
    requires Succeeded(pc) && Terminal(q.st) && OwnerView(pc, q) && Ended(pc, q, h)
    ensures h.answer.Some? && (h.answer.value ==> q.st == Stopped)
    ensures !h.answer.value ==> h.seen.Some? && q.st == if h.seen.value then Stopped else Failed
  {
  }

  /** In every run a Start that has returned has returned an error if and only if something stood
      in its way: the shutdown flag at one of its checks, a process that was not Pending, a taken
      key, or an error of the operating system in building the command or starting it. */
  lemma StartEnds(c: Config, s0: State, run: seq<Step>, s: State, t: nat)
    requires Reached(c, s0, run, s) && t < |s0.pc| && t < |s.pc| && (s.pc[t] == Returned || Succeeded(s.pc[t]))
    ensures s.pc[t] == Returned <==> Tell(c, s0, run, t, NOTHING).reason
  {
    PastTold(c, s0, run, s, t);
  }

  // ------------------------------------------------------------ a Start that succeeds

  /** The state after the next step of thread t, which the operating system allows. */
  function After(c: Config, s: State, t: nat): (s': State)
    requires Shaped(c, s) && t < |s.pc|
    ensures Shaped(c, s')
  {
    Perform(c, s, t, EffectOf(c, s, t, true))
  }

  function Undisturbed(t: nat, n: nat): seq<Step> {
    if n == 0 then [] else [Advance(t, true)] + Undisturbed(t, n - 1)
  }

  /** n undisturbed steps of thread t lead from s to s'. */
  ghost predicate Advances(c: Config, s: State, t: nat, n: nat, s': State)
    requires Shaped(c, s)
  {
    Legal(c, s, Undisturbed(t, n)) && Exec(c, s, Undisturbed(t, n)) == s'
  }

  lemma AdvancesMore(c: Config, s: State, t: nat, n: nat, s1: State, s': State)
    requires Shaped(c, s) && Enabled(c, s, Advance(t, true)) && s1 == After(c, s, t)
    requires if n == 0 then s1 == s' else Advances(c, s1, t, n, s')
    ensures Advances(c, s, t, n + 1, s')
  {
    assert Undisturbed(t, n + 1)[1..] == Undisturbed(t, n);
  }

  lemma {:induction false} Append(c: Config, s: State, a: seq<Step>, b: seq<Step>)
    requires Shaped(c, s) && Legal(c, s, a) && Legal(c, Exec(c, s, a), b)
    ensures Legal(c, s, a + b) && Exec(c, s, a + b) == Exec(c, Exec(c, s, a), b)
    decreases |a|
  {
    if a == [] {
      assert a + b == b;
    } else {
      var s' := First(c, s, a);
      Append(c, s', a[1..], b);
      Extended(c, s, a, s', b);
    }
  }

  lemma First(c: Config, s: State, a: seq<Step>) returns (s': State)
    requires Shaped(c, s) && a != [] && Legal(c, s, a)
    ensures Shaped(c, s') && Legal(c, s', a[1..]) && Exec(c, s, a) == Exec(c, s', a[1..])
    ensures Enabled(c, s, a[0]) && s' == Apply(c, s, a[0])
  {
    s' := Apply(c, s, a[0]);
  }

  lemma Extended(c: Config, s: State, a: seq<Step>, s': State, b: seq<Step>)
    requires Shaped(c, s) && a != [] && Legal(c, s, a) && s' == Apply(c, s, a[0])
    requires Shaped(c, s') && Legal(c, s', a[1..] + b)
    ensures Legal(c, s, a + b) && Exec(c, s, a + b) == Exec(c, s', a[1..] + b)
  {
    assert (a + b)[0] == a[0] && (a + b)[1..] == a[1..] + b;
  }

  lemma {:induction false} UndisturbedJoin(t: nat, n: nat, m: nat)
    ensures Undisturbed(t, n) + Undisturbed(t, m) == Undisturbed(t, n + m)
  {
    if n == 0 {
      assert Undisturbed(t, 0) + Undisturbed(t, m) == Undisturbed(t, m);
    } else {
      UndisturbedJoin(t, n - 1, m);
      assert Undisturbed(t, n) + Undisturbed(t, m) == [Advance(t, true)] + (Undisturbed(t, n - 1) + Undisturbed(t, m));
    }
  }

  lemma AdvancesJoin(c: Config, s: State, t: nat, n: nat, s1: State, m: nat, s': State)
    requires Shaped(c, s) && Advances(c, s, t, n, s1) && Shaped(c, s1) && Advances(c, s1, t, m, s')
    ensures Advances(c, s, t, n + m, s')
  {
    Append(c, s, Undisturbed(t, n), Undisturbed(t, m));
    UndisturbedJoin(t, n, m);
  }

  /** The process is taken, before any shutdown. */
  lemma StartTakes(c: Config, s: State, t: nat) returns (s': State)
    requires Shaped(c, s) && t < |s.pc| && s.pc[t] == Idle && s.mu == Free && !s.flag
    requires s.procs[c.target[t]].st == Pending
    ensures Shaped(c, s') && Advances(c, s, t, 3, s')
    ensures
      var p := c.target[t];
      s' == s.(pc := s.pc[t := RegCheck], procs := s.procs[p := s.procs[p].(st := Starting, owner := Some(t))],
               wg := s.wg + 1)
  {
    var s1 := After(c, s, t);
    var s2 := After(c, s1, t);
    s' := After(c, s2, t);
    AdvancesMore(c, s2, t, 0, s', s');
    AdvancesMore(c, s1, t, 1, s2, s');
    AdvancesMore(c, s, t, 2, s1, s');
  }

  /** It is registered under a free key. */
  lemma StartRegisters(c: Config, s: State, t: nat) returns (s': State)
    requires Shaped(c, s) && t < |s.pc| && s.pc[t] == RegCheck && !s.flag && c.key[c.target[t]] !in s.registry
    ensures Shaped(c, s') && Advances(c, s, t, 3, s')
    ensures
      s' == s.(pc := s.pc[t := Build], active := s.active + 1,
               registry := s.registry[c.key[c.target[t]] := c.target[t]])
  {
    var s1 := After(c, s, t);
    var s2 := After(c, s1, t);
    s' := After(c, s2, t);
    AdvancesMore(c, s2, t, 0, s', s');
    AdvancesMore(c, s1, t, 1, s2, s');
    AdvancesMore(c, s, t, 2, s1, s');
  }

  /** The command is built and the flag checked again under the mutex. */
  lemma StartChecks(c: Config, s: State, t: nat) returns (s': State)
    requires Shaped(c, s) && t < |s.pc| && s.pc[t] == Build && s.mu == Free && !s.flag
    ensures Shaped(c, s') && Advances(c, s, t, 3, s')
    ensures s' == s.(pc := s.pc[t := Spawn], mu := HeldBy(t))
  {
    var s1 := After(c, s, t);
    var s2 := After(c, s1, t);
    s' := After(c, s2, t);
    AdvancesMore(c, s2, t, 0, s', s');
    AdvancesMore(c, s1, t, 1, s2, s');
    AdvancesMore(c, s, t, 2, s1, s');
  }

  /** The process is started and published. */
  lemma StartPublishes(c: Config, s: State, t: nat) returns (s': State)
    requires Shaped(c, s) && t < |s.pc| && s.pc[t] == Spawn
    ensures Shaped(c, s') && Advances(c, s, t, 2, s')
    ensures
      var p := c.target[t];
      s' == s.(pc := s.pc[t := Unlock2],
               procs := s.procs[p := s.procs[p].(st := Running, spawned := true, startTime := true)])
  {
    var s1 := After(c, s, t);
    s' := After(c, s1, t);
    AdvancesMore(c, s1, t, 0, s', s');
    AdvancesMore(c, s, t, 1, s1, s');
  }

  /** Its waiter is launched. */
  lemma StartReturns(c: Config, s: State, t: nat) returns (s': State)
    requires Shaped(c, s) && t < |s.pc| && s.pc[t] == Unlock2
    ensures Shaped(c, s') && Advances(c, s, t, 2, s') && s' == s.(pc := s.pc[t := WWait], mu := Free)
  {
    var s1 := After(c, s, t);
    s' := After(c, s1, t);
    AdvancesMore(c, s1, t, 0, s', s');
    AdvancesMore(c, s, t, 1, s1, s');
  }

  /** The state after a Start that has succeeded. */
  function Started(c: Config, s: State, t: nat): State
    requires Shaped(c, s) && t < |s.pc|
  {
    var p := c.target[t];
    s.(pc := s.pc[t := WWait],
       procs := s.procs[p := s.procs[p].(st := Running, spawned := true, startTime := true, owner := Some(t))],
       wg := s.wg + 1, registry := s.registry[c.key[p] := p], active := s.active + 1)
  }

  lemma FirstHalf(c: Config, s: State, t: nat) returns (s': State)
    requires Shaped(c, s) && t < |s.pc| && s.pc[t] == Idle && s.mu == Free && !s.flag
    requires s.procs[c.target[t]].st == Pending && c.key[c.target[t]] !in s.registry
    ensures Shaped(c, s') && Advances(c, s, t, 6, s')
    ensures
      var p := c.target[t];
      s' == s.(pc := s.pc[t := Build], procs := s.procs[p := s.procs[p].(st := Starting, owner := Some(t))],
               wg := s.wg + 1, registry := s.registry[c.key[p] := p], active := s.active + 1)
  {
    var s1 := StartTakes(c, s, t);
    s' := StartRegisters(c, s1, t);
    AdvancesJoin(c, s, t, 3, s1, 3, s');
  }

  lemma SecondHalf(c: Config, s: State, t: nat) returns (s': State)
    requires Shaped(c, s) && t < |s.pc| && s.pc[t] == Build && s.mu == Free && !s.flag
    ensures Shaped(c, s') && Advances(c, s, t, 7, s')
    ensures
      var p := c.target[t];
      s' == s.(pc := s.pc[t := WWait],
               procs := s.procs[p := s.procs[p].(st := Running, spawned := true, startTime := true)])
  {
    var s1 := StartChecks(c, s, t);
    var s2 := StartPublishes(c, s1, t);
    s' := StartReturns(c, s2, t);
    AdvancesJoin(c, s1, t, 2, s2, 2, s');
    AdvancesJoin(c, s, t, 3, s1, 4, s');
  }

  /** With the flag unset, the mutex and the key free, a Pending process and an operating system
      that says yes, an undisturbed Start returns nil: its process runs, is registered and
      counted, its waiter holds the ticket, and nothing else has changed. */
  lemma StartSucceeds(c: Config, s: State, t: nat)
    requires Shaped(c, s) && t < |s.pc| && s.pc[t] == Idle && s.mu == Free && !s.flag
    requires s.procs[c.target[t]].st == Pending && c.key[c.target[t]] !in s.registry
    ensures Legal(c, s, Undisturbed(t, 13)) && Exec(c, s, Undisturbed(t, 13)) == Started(c, s, t)
    ensures Succeeded(Started(c, s, t).pc[t])
  {
    var s1 := FirstHalf(c, s, t);
    var s' := SecondHalf(c, s1, t);
    AdvancesJoin(c, s, t, 6, s1, 7, s');
    assert s'.pc == s.pc[t := WWait];
    assert s'.procs == Started(c, s, t).procs;
  }
}
