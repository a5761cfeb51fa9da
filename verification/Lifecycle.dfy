/** The start/stop/shutdown protocol of the process manager, as an interleaving of
    atomic steps.  Thread t is one call of Start followed, when the call succeeds, by
    the waiter goroutine that inherits its WaitGroup ticket; c.target[t] is the process
    it was called with.  Any number of threads may target the same process, and any
    number of processes may share a registry key.

    Every lock operation, compare-and-swap, atomic store, counter update, map operation
    and channel close of the source is a step of its own, except that the writes of
    the start time, the PID and the Running state are one step. */
module Lifecycle {
  import opened Prelude
  import opened Counting

  datatype ProcState = Pending | Starting | Running | Stopping | Stopped | Failed

  /** Where a thread is.  The names follow the code of Start (Idle .. Launch), failStart
      (FailState .. FailClose), the deferred ticket release, and waitForProcess. */
  datatype Pc =
    | Idle | Gate1 | Cas | RegCheck | RegStore | RegUndo | RegCount | Build
    | Lock2 | Gate2 | Spawn | Publish | Unlock2 | Launch
    | FailState | FailInc | FailRemove | FailCount | FailClose
    | Release | Returned
    | WWait | WErr | WSetFailed | WInc | WClean | WClose | WRelease | WReturned

  /** owner is a history variable: the thread whose compare-and-swap won the process
      and has not given it back.  sawRunning says that some caller of forceKill has
      read Running; stopRequested that Shutdown has launched a stopper. */
  datatype Proc = Proc(
    st: ProcState, spawned: bool, closes: nat, startTime: bool,
    owner: Option<nat>, sawRunning: bool, stopRequested: bool)

  datatype Mutex = Free | HeldBy(thread: nat) | HeldByShutdown

  datatype ShutPc = SIdle | SLocked | SFlagged | SScan | SWait | SComplete | SExpired

  datatype Config = Config(target: seq<nat>, key: seq<nat>)

  datatype State = State(
    flag: bool, mu: Mutex, wg: int, pc: seq<Pc>, procs: seq<Proc>,
    registry: map<nat, nat>, active: int, totalFailed: int, pendingRemovals: nat,
    health: bool, shut: ShutPc, toVisit: set<nat>)

  datatype Step =
    | Advance(t: nat, ok: bool)      // next step of Start or of the waiter; ok is the OS's answer
    | StopCas(p: nat)                // StopProcess: Running -> Stopping
    | SawRunning(p: nat)             // a later caller of forceKill reads Running
    | ForceCas(p: nat)               // forceKill's loop wins its compare-and-swap
    | HealthRunning(p: nat) | HealthStarting(p: nat) | HealthStopping(p: nat)
    | RemoveEntry(k: nat) | RemoveCount
    | HealthExit
    | ShutLock | ShutFlag | ShutUnlock | ShutVisit(p: nat) | ShutScanned | ShutGroupDone | ShutExpire

  // ---------------------------------------------------------------- classification

  predicate HoldsTicket(pc: Pc) {
    !((pc.Idle? || pc.Gate1? || pc.Returned? || pc.WReturned?))
  }

  predicate InMutex(pc: Pc) { (pc.Gate1? || pc.Gate2? || pc.Spawn? || pc.Publish? || pc.Unlock2?) }

  /** The final flag check has passed inside the second critical section. */
  predicate PastGate2(pc: Pc) { (pc.Spawn? || pc.Publish?) }

  /** Start has returned nil to its caller. */
  predicate Succeeded(pc: Pc) {
    || pc.WWait? || pc.WErr? || pc.WSetFailed? || pc.WInc? || pc.WClean? || pc.WClose?
    || pc.WRelease? || pc.WReturned?
  }

  predicate OwesFailure(pc: Pc) { (pc.FailInc? || pc.WInc?) }

  predicate OwesRegistration(pc: Pc) { pc == RegCount }

  predicate OwesRemoval(pc: Pc) { pc == FailCount }

  predicate IsFailed(q: Proc) { q.st == Failed }

  predicate Terminal(st: ProcState) { st == Stopped || st == Failed }

  /** The transitions a managed process may make. */
  predicate Edge(a: ProcState, b: ProcState) {
    || a == b
    || (a == Pending && b == Starting)
    || (a == Starting && (b.Pending? || b.Running? || b.Failed?))
    || (a == Running && (b.Stopping? || b.Stopped? || b.Failed?))
    || (a == Stopping && (b.Stopped? || b.Failed?))
  }

  // ---------------------------------------------------------------- steps

  predicate Shaped(c: Config, s: State) {
    && |s.pc| == |c.target|
    && |s.procs| == |c.key|
    && (forall t :: 0 <= t < |c.target| ==> c.target[t] < |c.key|)
  }

  function Put(s: State, p: nat, q: Proc): State
    requires p < |s.procs|
  {
    s.(procs := s.procs[p := q])
  }

  predicate Enabled(c: Config, s: State, e: Step)
    requires Shaped(c, s)
  {
    match e
    case Advance(t, _) =>
      && t < |s.pc|
      && s.pc[t] != Returned && s.pc[t] != WReturned
      && ((s.pc[t].Idle? || s.pc[t].Lock2?) ==> s.mu == Free)
    case StopCas(p) => p < |s.procs| && s.procs[p].st == Running
    case SawRunning(p) => p < |s.procs| && s.procs[p].st == Running
    case ForceCas(p) =>
      && p < |s.procs| && s.procs[p].sawRunning
      && (s.procs[p].st.Pending? || s.procs[p].st.Starting? || s.procs[p].st.Running?)
    case HealthRunning(p) => p < |s.procs| && s.procs[p].closes > 0 && s.procs[p].st == Running
    case HealthStarting(p) => p < |s.procs| && s.procs[p].startTime && s.procs[p].st == Starting
    case HealthStopping(p) => p < |s.procs| && s.procs[p].closes > 0 && s.procs[p].st == Stopping
    case RemoveEntry(k) => k in s.registry
    case RemoveCount => s.pendingRemovals > 0
    case HealthExit => s.health && s.flag
    case ShutLock => s.shut == SIdle && s.mu == Free
    case ShutFlag => s.shut == SLocked
    case ShutUnlock => s.shut == SFlagged
    case ShutVisit(p) => s.shut == SScan && p in s.toVisit && p < |s.procs|
    case ShutScanned => s.shut == SScan && s.toVisit == {}
    case ShutGroupDone => s.shut == SWait && s.wg == 0
    case ShutExpire => s.shut == SWait
  }

  datatype LockOp = Keep | Lock | Unlock

  datatype EntryOp = Leave | Store | Delete

  /** What one step of a thread does: its next program point, its process, and the
      changes to the mutex, the WaitGroup, the registry entry of the process's key, the
      active count and the failure count. */
  datatype Effect = Effect(pc: Pc, proc: Proc, lock: LockOp, tickets: int, entry: EntryOp, active: int, failed: int)

  /** One step of thread t on process q: the bodies of Start, failStart and
      waitForProcess.  taken says whether the process's key is in the registry. */
  function ThreadEffect(t: nat, pc: Pc, q: Proc, flag: bool, taken: bool, ok: bool): Effect {
    var at := Effect(pc, q, Keep, 0, Leave, 0, 0);
    match pc
    case Idle => at.(pc := Gate1, lock := Lock)
    case Gate1 => if flag then at.(pc := Returned, lock := Unlock) else at.(pc := Cas, lock := Unlock, tickets := 1)
    case Cas =>
      if q.st == Pending then at.(pc := RegCheck, proc := q.(st := Starting, owner := Some(t))) else at.(pc := Release)
    case RegCheck => at.(pc := if flag then RegUndo else RegStore)
    case RegStore => if taken then at.(pc := RegUndo) else at.(pc := RegCount, entry := Store)
    case RegUndo => at.(pc := Release, proc := q.(st := Pending, owner := None))
    case RegCount => at.(pc := Build, active := 1)
    case Build => at.(pc := if ok then Lock2 else FailState)
    case Lock2 => at.(pc := Gate2, lock := Lock)
    case Gate2 => if flag then at.(pc := FailState, lock := Unlock) else at.(pc := Spawn)
    case Spawn => if ok then at.(pc := Publish, proc := q.(spawned := true)) else at.(pc := FailState, lock := Unlock)
    case Publish => at.(pc := Unlock2, proc := q.(st := Running, startTime := true))
    case Unlock2 => at.(pc := Launch, lock := Unlock)
    case Launch => at.(pc := WWait)
    case FailState => at.(pc := FailInc, proc := q.(st := Failed))
    case FailInc => at.(pc := FailRemove, failed := 1)
    case FailRemove => if taken then at.(pc := FailCount, entry := Delete) else at.(pc := FailClose)
    case FailCount => at.(pc := FailClose, active := -1)
    case FailClose => at.(pc := Release, proc := q.(closes := q.closes + 1))
    case Release => at.(pc := Returned, tickets := -1)
    case WWait => at.(pc := if ok then WClean else WErr)
    case WErr => if q.st == Stopping then at.(pc := WClose, proc := q.(st := Stopped)) else at.(pc := WSetFailed)
    case WSetFailed => at.(pc := WInc, proc := q.(st := Failed))
    case WInc => at.(pc := WClose, failed := 1)
    case WClean => at.(pc := WClose, proc := q.(st := Stopped))
    case WClose => at.(pc := WRelease, proc := q.(closes := q.closes + 1))
    case WRelease => at.(pc := WReturned, tickets := -1)
    case Returned | WReturned => at
  }

  function EffectOf(c: Config, s: State, t: nat, ok: bool): Effect
    requires Shaped(c, s) && t < |s.pc|
  {
    ThreadEffect(t, s.pc[t], s.procs[c.target[t]], s.flag, c.key[c.target[t]] in s.registry, ok)
  }

  function Perform(c: Config, s: State, t: nat, e: Effect): State
    requires Shaped(c, s) && t < |s.pc|
  {
    var p := c.target[t];
    var k := c.key[p];
    s.(pc := s.pc[t := e.pc],
       procs := s.procs[p := e.proc],
       mu := match e.lock { case Keep => s.mu case Lock => HeldBy(t) case Unlock => Free },
       wg := s.wg + e.tickets,
       registry :=
          match e.entry { case Leave => s.registry case Store => s.registry[k := p] case Delete => s.registry - {k} },
       active := s.active + e.active,
       totalFailed := s.totalFailed + e.failed)
  }

  function Apply(c: Config, s: State, e: Step): State
    requires Shaped(c, s) && Enabled(c, s, e)
  {
    match e
    case Advance(t, ok) => Perform(c, s, t, EffectOf(c, s, t, ok))
    case StopCas(p) => Put(s, p, s.procs[p].(st := Stopping, sawRunning := true))
    case SawRunning(p) => Put(s, p, s.procs[p].(sawRunning := true))
    case ForceCas(p) => Put(s, p, s.procs[p].(st := Stopping))
    case HealthRunning(p) => Put(s, p, s.procs[p].(st := Failed))
    case HealthStarting(p) => Put(s, p, s.procs[p].(st := Failed)).(totalFailed := s.totalFailed + 1)
    case HealthStopping(p) => Put(s, p, s.procs[p].(st := Stopped))
    case RemoveEntry(k) => s.(registry := s.registry - {k}, pendingRemovals := s.pendingRemovals + 1)
    case RemoveCount => s.(active := s.active - 1, pendingRemovals := s.pendingRemovals - 1)
    case HealthExit => s.(health := false, wg := s.wg - 1)
    case ShutLock => s.(shut := SLocked, mu := HeldByShutdown)
    case ShutFlag => s.(shut := SFlagged, flag := true)
    case ShutUnlock => s.(shut := SScan, mu := Free, toVisit := s.registry.Values)
    case ShutVisit(p) =>
      var s' := s.(toVisit := s.toVisit - {p});
      if s.procs[p].st == Running
      then Put(s', p, s.procs[p].(stopRequested := true, sawRunning := true))
      else s'
    case ShutScanned => s.(shut := SWait)
    case ShutGroupDone => s.(shut := SComplete)
    case ShutExpire => s.(shut := SExpired)
  }

  const FRESH_PROC := Proc(Pending, false, 0, false, None, false, false)

  /** Nothing started; health says whether the manager runs its health-check goroutine,
      which holds one ticket from the beginning. */
  predicate Init(c: Config, s: State) {
    && Shaped(c, s)
    && !s.flag && s.mu == Free && s.wg == Bit(s.health)
    && (forall t :: 0 <= t < |s.pc| ==> s.pc[t] == Idle)
    && (forall p :: 0 <= p < |s.procs| ==> s.procs[p] == FRESH_PROC)
    && s.registry == map[] && s.active == 0 && s.totalFailed == 0 && s.pendingRemovals == 0
    && s.shut == SIdle && s.toVisit == {}
  }

  // ---------------------------------------------------------------- the invariant

  /** What the process of an owning thread looks like at each of its program points. */
  predicate OwnerView(pc: Pc, q: Proc) {
    match pc
    case RegCheck | RegStore | RegUndo | RegCount | Build | Lock2 | Gate2 | Spawn | FailState =>
      q.st == Starting && !q.spawned && q.closes == 0
    case Publish => q.st == Starting && q.spawned && q.closes == 0
    case Unlock2 | Launch | WWait | WErr | WSetFailed | WClean =>
      (q.st.Running? || q.st.Stopping?) && q.spawned && q.closes == 0
    case FailInc | FailRemove | FailCount | FailClose => q.st == Failed && !q.spawned && q.closes == 0
    case Release | Returned => q.st == Failed && !q.spawned && q.closes == 1
    case WInc => q.st == Failed && q.spawned && q.closes == 0
    case WClose => Terminal(q.st) && q.spawned && q.closes == 0
    case WRelease | WReturned => Terminal(q.st) && q.spawned && q.closes == 1
    case Idle | Gate1 | Cas => false
  }

  predicate Owns(pc: Pc) { !(pc.Idle? || pc.Gate1? || pc.Cas? || pc.Release? || pc.Returned?) }

  predicate FreshOk(q: Proc) {
    && (q.owner == None <==> q.st == Pending)
    && (q.owner == None ==> !q.spawned && q.closes == 0)
    && (q.sawRunning || q.startTime || q.stopRequested ==> !(q.st.Pending? || q.st.Starting?))
  }

  predicate ProcOk(c: Config, s: State, p: nat)
    requires Shaped(c, s) && p < |s.procs|
  {
    && FreshOk(s.procs[p])
    && (s.procs[p].owner.Some? ==>
          var t := s.procs[p].owner.value;
          t < |s.pc| && c.target[t] == p && OwnerView(s.pc[t], s.procs[p]))
  }

  predicate ThreadOk(c: Config, s: State, t: nat)
    requires Shaped(c, s) && t < |s.pc|
  {
    && (Owns(s.pc[t]) ==> s.procs[c.target[t]].owner == Some(t))
    && (InMutex(s.pc[t]) <==> s.mu == HeldBy(t))
    && (PastGate2(s.pc[t]) ==> !s.flag)
  }

  predicate Unstored(pc: Pc) { pc.RegCheck? || pc.RegStore? || pc.RegUndo? }

  /** A registered process has been stored by its owner, under its own key. */
  predicate EntryOk(c: Config, s: State, k: nat)
    requires Shaped(c, s) && k in s.registry
  {
    var p := s.registry[k];
    && p < |s.procs| && c.key[p] == k
    && s.procs[p].owner.Some? && s.procs[p].owner.value < |s.pc|
    && !Unstored(s.pc[s.procs[p].owner.value])
  }

  predicate Structure(c: Config, s: State)
    requires Shaped(c, s)
  {
    && (forall p :: 0 <= p < |s.procs| ==> ProcOk(c, s, p))
    && (forall t :: 0 <= t < |s.pc| ==> ThreadOk(c, s, t))
    && (forall k :: k in s.registry ==> EntryOk(c, s, k))
    && (s.mu == HeldByShutdown <==> (s.shut.SLocked? || s.shut.SFlagged?))
    && (s.mu.HeldBy? ==> s.mu.thread < |s.pc|)
    && (s.flag <==> !(s.shut.SIdle? || s.shut.SLocked?))
  }

  /** Every running registered process is either still to be visited by Shutdown's scan
      or has its stopper. */
  predicate ScanOk(c: Config, s: State)
    requires Shaped(c, s)
  {
    && (forall p :: p in s.toVisit ==> p < |s.procs|)
    && (!(s.shut.SIdle? || s.shut.SLocked? || s.shut.SFlagged?) ==>
          forall k :: k in s.registry && s.registry[k] < |s.procs| && s.procs[s.registry[k]].st == Running ==>
            s.procs[s.registry[k]].stopRequested || (s.shut == SScan && s.registry[k] in s.toVisit))
  }

  predicate Counters(s: State) {
    && s.wg == Count(s.pc, HoldsTicket) + Bit(s.health)
    && s.totalFailed + Count(s.pc, OwesFailure) == Count(s.procs, IsFailed)
    && s.active + Count(s.pc, OwesRegistration)
         == |s.registry| + Count(s.pc, OwesRemoval) + s.pendingRemovals
  }

  predicate Inv(c: Config, s: State) {
    Shaped(c, s) && Structure(c, s) && ScanOk(c, s) && Counters(s)
    && (s.shut == SComplete ==> s.wg == 0)
  }

  lemma InitInv(c: Config, s: State)
    requires Init(c, s)
    ensures Inv(c, s)
  {
    CountZero(s.pc, HoldsTicket);
    CountZero(s.pc, OwesFailure);
    CountZero(s.pc, OwesRegistration);
    CountZero(s.pc, OwesRemoval);
    CountZero(s.procs, IsFailed);
  }

  /** One thread and its process: the part of a step that involves nobody else. */
  predicate LocalOk(t: nat, pc: Pc, q: Proc) {
    && FreshOk(q)
    && (Owns(pc) ==> q.owner == Some(t))
    && (q.owner == Some(t) ==> OwnerView(pc, q))
  }

  predicate GoodProc(t: nat, pc: Pc, q: Proc, e: Effect) { LocalOk(t, e.pc, e.proc) && GoodChange(t, pc, q, e) }

  predicate GoodChange(t: nat, pc: Pc, q: Proc, e: Effect) {
    && Edge(q.st, e.proc.st)
    && (q.owner.Some? && q.owner != Some(t) ==> e.proc == q)
    && (e.proc.owner == q.owner || e.proc.owner == None || e.proc.owner == Some(t))
    && (e.proc.owner == None ==> q.owner == None || pc.RegUndo?)
    && (e.proc.st == Running ==> e.entry != Store && (q.st == Running || PastGate2(pc)))
    && (e.proc.spawned == q.spawned || PastGate2(pc))
    && e.proc.stopRequested == q.stopRequested
  }

  /** The counters a step changes, against what the thread owes before and after. */
  predicate GoodCounts(pc: Pc, q: Proc, flag: bool, e: Effect) {
    && e.tickets == Bit(HoldsTicket(e.pc)) - Bit(HoldsTicket(pc))
    && (e.tickets > 0 ==> !flag)
    && e.failed + Bit(OwesFailure(e.pc)) - Bit(OwesFailure(pc)) == Bit(IsFailed(e.proc)) - Bit(IsFailed(q))
  }

  predicate GoodEntry(pc: Pc, taken: bool, e: Effect) {
    && (e.entry == Store ==> !taken) && (e.entry == Delete ==> taken)
    && e.active + Bit(OwesRegistration(e.pc)) - Bit(OwesRegistration(pc))
         == Bit(e.entry == Store) - Bit(e.entry == Delete) + Bit(OwesRemoval(e.pc)) - Bit(OwesRemoval(pc))
  }

  predicate GoodLock(pc: Pc, e: Effect) {
    && (e.lock == Lock ==> (pc.Idle? || pc.Lock2?) && InMutex(e.pc))
    && (e.lock == Unlock ==> InMutex(pc) && !InMutex(e.pc))
    && (e.lock == Keep ==> InMutex(pc) == InMutex(e.pc))
  }

  predicate GoodMoves(pc: Pc, flag: bool, e: Effect) {
    && GoodLock(pc, e)
    && (PastGate2(e.pc) ==> PastGate2(pc) || !flag)
    && (e.entry == Store ==> e.pc.RegCount?)
    && (Unstored(e.pc) ==> e.entry == Leave && (pc.Cas? || pc.RegCheck? || pc.RegStore?))
  }

  /** A Start that is failing, or has failed. */
  predicate Failing(pc: Pc) {
    || pc.FailState? || pc.FailInc? || pc.FailRemove? || pc.FailCount? || pc.FailClose?
    || pc.Release? || pc.Returned?
  }

  lemma MovesEffect(t: nat, pc: Pc, q: Proc, flag: bool, taken: bool, ok: bool)
    ensures GoodMoves(pc, flag, ThreadEffect(t, pc, q, flag, taken, ok))
  {
    LockEffect(t, pc, q, flag, taken, ok);
  }

  lemma LockEffect(t: nat, pc: Pc, q: Proc, flag: bool, taken: bool, ok: bool)
    ensures GoodLock(pc, ThreadEffect(t, pc, q, flag, taken, ok))
  {
  }

  lemma StartCounts(t: nat, pc: Pc, q: Proc, flag: bool, taken: bool, ok: bool)
    requires LocalOk(t, pc, q) && !Succeeded(pc) && !Failing(pc)
    ensures GoodCounts(pc, q, flag, ThreadEffect(t, pc, q, flag, taken, ok))
  {
  }

  lemma FailingCounts(t: nat, pc: Pc, q: Proc, flag: bool, taken: bool, ok: bool)
    requires LocalOk(t, pc, q) && Failing(pc)
    ensures GoodCounts(pc, q, flag, ThreadEffect(t, pc, q, flag, taken, ok))
  {
  }

  lemma WaiterCounts(t: nat, pc: Pc, q: Proc, flag: bool, taken: bool, ok: bool)
    requires LocalOk(t, pc, q) && Succeeded(pc)
    ensures GoodCounts(pc, q, flag, ThreadEffect(t, pc, q, flag, taken, ok))
  {
  }

  lemma CountsEffect(t: nat, pc: Pc, q: Proc, flag: bool, taken: bool, ok: bool)
    requires LocalOk(t, pc, q)
    ensures GoodCounts(pc, q, flag, ThreadEffect(t, pc, q, flag, taken, ok))
  {
    if Succeeded(pc) { WaiterCounts(t, pc, q, flag, taken, ok); }
    else if Failing(pc) { FailingCounts(t, pc, q, flag, taken, ok); }
    else { StartCounts(t, pc, q, flag, taken, ok); }
  }

  lemma EntryEffect(t: nat, pc: Pc, q: Proc, flag: bool, taken: bool, ok: bool)
    ensures GoodEntry(pc, taken, ThreadEffect(t, pc, q, flag, taken, ok))
  {
    if Succeeded(pc) { WaiterEntry(t, pc, q, flag, taken, ok); }
  }

  lemma WaiterEntry(t: nat, pc: Pc, q: Proc, flag: bool, taken: bool, ok: bool)
    requires Succeeded(pc)
    ensures GoodEntry(pc, taken, ThreadEffect(t, pc, q, flag, taken, ok))
  {
  }

  lemma StartEffect(t: nat, pc: Pc, q: Proc, flag: bool, taken: bool, ok: bool)
    requires LocalOk(t, pc, q) && q.owner == Some(t) && !Succeeded(pc)
    ensures GoodProc(t, pc, q, ThreadEffect(t, pc, q, flag, taken, ok))
  {
    StartLocal(t, pc, q, flag, taken, ok);
  }

  lemma StartLocal(t: nat, pc: Pc, q: Proc, flag: bool, taken: bool, ok: bool)
    requires LocalOk(t, pc, q) && q.owner == Some(t) && !Succeeded(pc)
    ensures var e := ThreadEffect(t, pc, q, flag, taken, ok); LocalOk(t, e.pc, e.proc)
  {
    match pc
    case RegCheck => RegisterLocal(t, pc, q, flag, taken, ok);
    case RegStore => RegisterLocal(t, pc, q, flag, taken, ok);
    case RegUndo => RegisterLocal(t, pc, q, flag, taken, ok);
    case RegCount => RegisterLocal(t, pc, q, flag, taken, ok);
    case Build => LaunchLocal(t, pc, q, flag, taken, ok);
    case Lock2 => LaunchLocal(t, pc, q, flag, taken, ok);
    case Gate2 => LaunchLocal(t, pc, q, flag, taken, ok);
    case Spawn => LaunchLocal(t, pc, q, flag, taken, ok);
    case _ => LateLocal(t, pc, q, flag, taken, ok);
  }

  lemma RegisterLocal(t: nat, pc: Pc, q: Proc, flag: bool, taken: bool, ok: bool)
    requires LocalOk(t, pc, q) && q.owner == Some(t) && (pc.RegCheck? || pc.RegStore? || pc.RegUndo? || pc.RegCount?)
    ensures var e := ThreadEffect(t, pc, q, flag, taken, ok); LocalOk(t, e.pc, e.proc)
  {
  }

  lemma LaunchLocal(t: nat, pc: Pc, q: Proc, flag: bool, taken: bool, ok: bool)
    requires LocalOk(t, pc, q) && q.owner == Some(t) && (pc.Build? || pc.Lock2? || pc.Gate2? || pc.Spawn?)
    ensures var e := ThreadEffect(t, pc, q, flag, taken, ok); LocalOk(t, e.pc, e.proc)
  {
  }

  lemma LateLocal(t: nat, pc: Pc, q: Proc, flag: bool, taken: bool, ok: bool)
    requires LocalOk(t, pc, q) && q.owner == Some(t) && !Succeeded(pc)
    requires !(pc.RegCheck? || pc.RegStore? || pc.RegUndo? || pc.RegCount?)
    requires !(pc.Build? || pc.Lock2? || pc.Gate2? || pc.Spawn?)
    ensures var e := ThreadEffect(t, pc, q, flag, taken, ok); LocalOk(t, e.pc, e.proc)
  {
  }

  lemma WaiterLocal(t: nat, pc: Pc, q: Proc, flag: bool, taken: bool, ok: bool)
    requires LocalOk(t, pc, q) && q.owner == Some(t) && Succeeded(pc)
    ensures var e := ThreadEffect(t, pc, q, flag, taken, ok); LocalOk(t, e.pc, e.proc)
  {
  }

  lemma WaiterEffect(t: nat, pc: Pc, q: Proc, flag: bool, taken: bool, ok: bool)
    requires LocalOk(t, pc, q) && q.owner == Some(t) && Succeeded(pc)
    ensures GoodProc(t, pc, q, ThreadEffect(t, pc, q, flag, taken, ok))
  {
    WaiterLocal(t, pc, q, flag, taken, ok);
  }

  lemma StrangerEffect(t: nat, pc: Pc, q: Proc, flag: bool, taken: bool, ok: bool)
    requires LocalOk(t, pc, q) && q.owner != Some(t)
    ensures GoodProc(t, pc, q, ThreadEffect(t, pc, q, flag, taken, ok))
  {
  }

  predicate Sound(c: Config, s: State, t: nat, e: Effect)
    requires Shaped(c, s) && t < |s.pc|
  {
    && GoodProc(t, s.pc[t], s.procs[c.target[t]], e)
    && GoodMoves(s.pc[t], s.flag, e)
    && (e.lock == Lock ==> s.mu == Free)
  }

  predicate Counted(c: Config, s: State, t: nat, e: Effect)
    requires Shaped(c, s) && t < |s.pc|
  {
    && GoodCounts(s.pc[t], s.procs[c.target[t]], s.flag, e)
    && GoodEntry(s.pc[t], c.key[c.target[t]] in s.registry, e)
  }

  lemma PerformProc(c: Config, s: State, t: nat, e: Effect, p: nat)
    requires Shaped(c, s) && t < |s.pc| && p < |s.procs| && Sound(c, s, t, e)
    requires ThreadOk(c, s, t) && ProcOk(c, s, c.target[t]) && ProcOk(c, s, p)
    ensures Shaped(c, Perform(c, s, t, e)) && ProcOk(c, Perform(c, s, t, e), p)
  {
  }

  lemma PerformThread(c: Config, s: State, t: nat, e: Effect, u: nat)
    requires Shaped(c, s) && t < |s.pc| && u < |s.pc| && Sound(c, s, t, e)
    requires ThreadOk(c, s, t) && ThreadOk(c, s, u) && ProcOk(c, s, c.target[t]) && ProcOk(c, s, c.target[u])
    ensures Shaped(c, Perform(c, s, t, e)) && ThreadOk(c, Perform(c, s, t, e), u)
  {
  }

  lemma PerformEntry(c: Config, s: State, t: nat, e: Effect, k: nat)
    requires Shaped(c, s) && t < |s.pc| && Sound(c, s, t, e)
    requires ThreadOk(c, s, t) && ProcOk(c, s, c.target[t])
    requires k in s.registry ==> EntryOk(c, s, k) && ProcOk(c, s, s.registry[k])
    requires k in Perform(c, s, t, e).registry
    ensures Shaped(c, Perform(c, s, t, e)) && EntryOk(c, Perform(c, s, t, e), k)
  {
  }

  lemma PerformStructure(c: Config, s: State, t: nat, e: Effect)
    requires Shaped(c, s) && Structure(c, s) && t < |s.pc| && Sound(c, s, t, e)
    ensures Shaped(c, Perform(c, s, t, e)) && Structure(c, Perform(c, s, t, e))
  {
    var s' := Perform(c, s, t, e);
    assert ThreadOk(c, s, t) && ProcOk(c, s, c.target[t]);
    forall p | 0 <= p < |s'.procs| ensures ProcOk(c, s', p) { assert ProcOk(c, s, p); PerformProc(c, s, t, e, p); }
    forall u | 0 <= u < |s'.pc| ensures ThreadOk(c, s', u) {
      assert ThreadOk(c, s, u) && ProcOk(c, s, c.target[u]);
      PerformThread(c, s, t, e, u);
    }
    forall k | k in s'.registry ensures EntryOk(c, s', k) {
      assert k in s.registry ==> EntryOk(c, s, k) && ProcOk(c, s, s.registry[k]);
      PerformEntry(c, s, t, e, k);
    }
  }

  lemma AdvanceSound(c: Config, s: State, t: nat, ok: bool)
    requires Shaped(c, s) && Structure(c, s) && Enabled(c, s, Advance(t, ok))
    ensures Sound(c, s, t, EffectOf(c, s, t, ok))
  {
    var q := s.procs[c.target[t]];
    var taken := c.key[c.target[t]] in s.registry;
    assert ThreadOk(c, s, t) && ProcOk(c, s, c.target[t]);
    MovesEffect(t, s.pc[t], q, s.flag, taken, ok);
    if q.owner != Some(t) { StrangerEffect(t, s.pc[t], q, s.flag, taken, ok); }
    else if Succeeded(s.pc[t]) { WaiterEffect(t, s.pc[t], q, s.flag, taken, ok); }
    else { StartEffect(t, s.pc[t], q, s.flag, taken, ok); }
  }

  lemma AdvanceCounted(c: Config, s: State, t: nat, ok: bool)
    requires Shaped(c, s) && Structure(c, s) && Enabled(c, s, Advance(t, ok))
    ensures Counted(c, s, t, EffectOf(c, s, t, ok))
  {
    var q := s.procs[c.target[t]];
    var taken := c.key[c.target[t]] in s.registry;
    assert ThreadOk(c, s, t) && ProcOk(c, s, c.target[t]);
    CountsEffect(t, s.pc[t], q, s.flag, taken, ok);
    EntryEffect(t, s.pc[t], q, s.flag, taken, ok);
  }

  lemma PerformCounters(c: Config, s: State, t: nat, e: Effect)
    requires Shaped(c, s) && Counters(s) && t < |s.pc|
    requires Counted(c, s, t, e)
    ensures Counters(Perform(c, s, t, e))
  {
    CountUpdate(s.pc, t, e.pc, HoldsTicket);
    CountUpdate(s.pc, t, e.pc, OwesFailure);
    CountUpdate(s.procs, c.target[t], e.proc, IsFailed);
    PerformSize(c, s, t, e);
  }

  lemma PerformSize(c: Config, s: State, t: nat, e: Effect)
    requires Shaped(c, s) && t < |s.pc| && GoodEntry(s.pc[t], c.key[c.target[t]] in s.registry, e)
    requires s.active + Count(s.pc, OwesRegistration) == |s.registry| + Count(s.pc, OwesRemoval) + s.pendingRemovals
    ensures
      var s' := Perform(c, s, t, e);
      s'.active + Count(s'.pc, OwesRegistration) == |s'.registry| + Count(s'.pc, OwesRemoval) + s'.pendingRemovals
  {
    CountUpdate(s.pc, t, e.pc, OwesRegistration);
    CountUpdate(s.pc, t, e.pc, OwesRemoval);
    EntrySize(s.registry, c.key[c.target[t]], c.target[t]);
  }

  lemma EntrySize(m: map<nat, nat>, k: nat, p: nat)
    ensures k !in m ==> |m[k := p]| == |m| + 1
    ensures k in m ==> |m - {k}| == |m| - 1
  {
    assert k in m ==> (m - {k}).Keys == m.Keys - {k};
    assert k !in m ==> m[k := p].Keys == m.Keys + {k};
  }

  lemma AdvanceInv(c: Config, s: State, t: nat, ok: bool)
    requires Inv(c, s) && Enabled(c, s, Advance(t, ok))
    ensures Inv(c, Apply(c, s, Advance(t, ok)))
  {
    var e := EffectOf(c, s, t, ok);
    AdvanceSound(c, s, t, ok);
    AdvanceCounted(c, s, t, ok);
    PerformInv(c, s, t, e);
  }

  lemma PerformInv(c: Config, s: State, t: nat, e: Effect)
    requires Inv(c, s) && t < |s.pc| && Sound(c, s, t, e) && Counted(c, s, t, e)
    ensures Inv(c, Perform(c, s, t, e))
  {
    PerformStructure(c, s, t, e);
    PerformCounters(c, s, t, e);
    CountZero(s.pc, HoldsTicket);
    PerformScan(c, s, t, e);
  }

  lemma PerformScan(c: Config, s: State, t: nat, e: Effect)
    requires Shaped(c, s) && Structure(c, s) && ScanOk(c, s) && t < |s.pc| && Sound(c, s, t, e)
    ensures Shaped(c, Perform(c, s, t, e)) && ScanOk(c, Perform(c, s, t, e))
  {
    assert ThreadOk(c, s, t);
  }

  // ---------------------------------------------------------------- the other steps

  /** The health check's compare-and-swaps can never succeed: a process whose done
      channel is closed is already terminal, and the start time is published together
      with Running. */
  lemma HealthNeverFires(c: Config, s: State, p: nat)
    requires Inv(c, s)
    ensures !Enabled(c, s, HealthRunning(p)) && !Enabled(c, s, HealthStopping(p)) && !Enabled(c, s, HealthStarting(p))
  {
    if p < |s.procs| { assert ProcOk(c, s, p); }
  }

  /** forceKill's loop only ever moves a process out of Running. */
  lemma ForceOnlyRunning(c: Config, s: State, p: nat)
    requires Inv(c, s) && Enabled(c, s, ForceCas(p))
    ensures s.procs[p].st == Running
  {
    assert ProcOk(c, s, p);
  }

  /** Rewriting one process, leaving its owner and its failure status alone. */
  lemma PutInv(c: Config, s: State, p: nat, q: Proc)
    requires Inv(c, s) && p < |s.procs|
    requires q.owner == s.procs[p].owner && FreshOk(q)
    requires q.owner.Some? && q.owner.value < |s.pc| && OwnerView(s.pc[q.owner.value], s.procs[p]) ==>
        OwnerView(s.pc[q.owner.value], q)
    requires (q.st == Running ==> s.procs[p].st == Running) && IsFailed(q) == IsFailed(s.procs[p])
    requires s.procs[p].stopRequested ==> q.stopRequested
    ensures Inv(c, Put(s, p, q))
  {
    CountUpdate(s.procs, p, q, IsFailed);
    PutStructure(c, s, p, q);
  }

  lemma PutStructure(c: Config, s: State, p: nat, q: Proc)
    requires Shaped(c, s) && Structure(c, s) && p < |s.procs| && q.owner == s.procs[p].owner && FreshOk(q)
    requires q.owner.Some? && q.owner.value < |s.pc| && OwnerView(s.pc[q.owner.value], s.procs[p]) ==>
        OwnerView(s.pc[q.owner.value], q)
    ensures Structure(c, Put(s, p, q))
  {
    var s' := Put(s, p, q);
    forall r | 0 <= r < |s'.procs| ensures ProcOk(c, s', r) { assert ProcOk(c, s, r); }
    forall t | 0 <= t < |s'.pc| ensures ThreadOk(c, s', t) { assert ThreadOk(c, s, t); }
    forall k | k in s'.registry ensures EntryOk(c, s', k) { assert EntryOk(c, s, k); }
  }

  /** Steps that touch no thread and no process. */
  lemma StructureKept(c: Config, s: State, s': State)
    requires Shaped(c, s) && Structure(c, s) && s'.pc == s.pc && s'.procs == s.procs
    requires forall k :: k in s'.registry ==> k in s.registry && s'.registry[k] == s.registry[k]
    requires s'.mu == s.mu || (!s.mu.HeldBy? && !s'.mu.HeldBy?)
    requires s'.flag == s.flag || !s.mu.HeldBy?
    requires (s'.mu == HeldByShutdown <==> (s'.shut.SLocked? || s'.shut.SFlagged?))
    requires s'.flag <==> !(s'.shut.SIdle? || s'.shut.SLocked?)
    ensures Shaped(c, s') && Structure(c, s')
  {
    forall p | 0 <= p < |s'.procs| ensures ProcOk(c, s', p) { assert ProcOk(c, s, p); }
    forall t | 0 <= t < |s'.pc| ensures ThreadOk(c, s', t) { assert ThreadOk(c, s, t); }
    forall k | k in s'.registry ensures EntryOk(c, s', k) { assert EntryOk(c, s, k); }
  }

  predicate OnProcess(e: Step) {
    e.StopCas? || e.SawRunning? || e.ForceCas?
  }

  lemma ProcessStepInv(c: Config, s: State, e: Step)
    requires Inv(c, s) && Enabled(c, s, e) && OnProcess(e)
    ensures Inv(c, Apply(c, s, e))
  {
    assert ProcOk(c, s, e.p);
    PutInv(c, s, e.p, Apply(c, s, e).procs[e.p]);
  }

  lemma RegistryStepInv(c: Config, s: State, e: Step)
    requires Inv(c, s) && Enabled(c, s, e) && (e.RemoveEntry? || e.RemoveCount? || e.HealthExit?)
    ensures Inv(c, Apply(c, s, e))
  {
    var s' := Apply(c, s, e);
    if e.RemoveEntry? { EntrySize(s.registry, e.k, 0); }
    StructureKept(c, s, s');
  }

  lemma MutexStepInv(c: Config, s: State, e: Step)
    requires Inv(c, s) && Enabled(c, s, e) && (e.ShutLock? || e.ShutFlag? || e.ShutUnlock?)
    ensures Inv(c, Apply(c, s, e))
  {
    var s' := Apply(c, s, e);
    StructureKept(c, s, s');
    forall p | p in s'.toVisit ensures p < |s'.procs| {
      if e.ShutUnlock? { var k :| k in s.registry && s.registry[k] == p; assert EntryOk(c, s, k); }
    }
  }

  lemma WaitStepInv(c: Config, s: State, e: Step)
    requires Inv(c, s) && Enabled(c, s, e) && (e.ShutScanned? || e.ShutGroupDone? || e.ShutExpire?)
    ensures Inv(c, Apply(c, s, e))
  {
    StructureKept(c, s, Apply(c, s, e));
  }

  lemma DropVisit(c: Config, s: State, p: nat)
    requires Inv(c, s) && p in s.toVisit && (s.procs[p].st == Running ==> s.procs[p].stopRequested)
    ensures Inv(c, s.(toVisit := s.toVisit - {p}))
  {
    StructureKept(c, s, s.(toVisit := s.toVisit - {p}));
  }

  lemma VisitInv(c: Config, s: State, p: nat)
    requires Inv(c, s) && Enabled(c, s, ShutVisit(p))
    ensures Inv(c, Apply(c, s, ShutVisit(p)))
  {
    var q := s.procs[p];
    if q.st == Running {
      assert ProcOk(c, s, p);
      var s1 := Put(s, p, q.(stopRequested := true, sawRunning := true));
      PutInv(c, s, p, s1.procs[p]);
      DropVisit(c, s1, p);
    } else {
      DropVisit(c, s, p);
    }
  }

  lemma StepInv(c: Config, s: State, e: Step)
    requires Inv(c, s) && Enabled(c, s, e)
    ensures Inv(c, Apply(c, s, e))
  {
    match e
    case Advance(t, ok) => AdvanceInv(c, s, t, ok);
    case StopCas(_) | SawRunning(_) | ForceCas(_) => ProcessStepInv(c, s, e);
    case HealthRunning(p) => HealthNeverFires(c, s, p);
    case HealthStarting(p) => HealthNeverFires(c, s, p);
    case HealthStopping(p) => HealthNeverFires(c, s, p);
    case RemoveEntry(_) | RemoveCount | HealthExit => RegistryStepInv(c, s, e);
    case ShutVisit(p) => VisitInv(c, s, p);
    case ShutLock | ShutFlag | ShutUnlock => MutexStepInv(c, s, e);
    case ShutScanned | ShutGroupDone | ShutExpire => WaitStepInv(c, s, e);
  }

  // ---------------------------------------------------------------- runs

  ghost predicate Legal(c: Config, s: State, run: seq<Step>)
    requires Shaped(c, s)
    decreases |run|
  {
    run != [] ==>
      && Enabled(c, s, run[0])
      && Shaped(c, Apply(c, s, run[0]))
      && Legal(c, Apply(c, s, run[0]), run[1..])
  }

  ghost function Exec(c: Config, s: State, run: seq<Step>): (r: State)
    requires Shaped(c, s) && Legal(c, s, run)
    ensures Shaped(c, r)
    decreases |run|
  {
    if run == [] then s else Exec(c, Apply(c, s, run[0]), run[1..])
  }

  lemma {:induction false} ExecInv(c: Config, s: State, run: seq<Step>)
    requires Inv(c, s) && Legal(c, s, run)
    ensures Inv(c, Exec(c, s, run))
    decreases |run|
  {
    if run == [] {
    } else {
      StepInv(c, s, run[0]);
      ExecInv(c, Apply(c, s, run[0]), run[1..]);
    }
  }
}
