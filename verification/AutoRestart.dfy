/** The automatic restart of one subprocess: health loop, process monitor, restart loop,
    user starts and stops, interleaved step by step. */
module AutoRestart {
  import opened Prelude
  import opened Counting

  datatype Status = Pending | Starting | Running | Stopping | Stopped | Failed

  /** Health and Monitor hold a ticket of the wait group while they live. */
  datatype Role = Health | Monitor | Restart | User | Stopper

  /** Between ticks (health loop) or in Wait (monitor), and triggerAutoRestart. */
  datatype WatchPc = Begin | Watching | Crashed | Budget | StateCheck | Cas | Spawn

  /** doRestart. */
  datatype LoopPc = Top | Waiting | Marker | Cancel | Drain | CountUp | Recheck | Reset | AfterFail | Stamp | BudgetLeft

  /** startCore. */
  datatype CorePc =
    | Enter | Marker1 | NewLife | Marker2 | Connect | LastCheck | SetRunning | StartHealth
    | AbortCancel | Abort | ConnectFailed

  /** stop, and Unregister's part of it. */
  datatype StopPc =
    | Check | Mark | SetStopping | CancelLife | AwaitDrain | SetStopped | MarkUnregistered | CancelUnregistered

  datatype Pc = Watch(w: WatchPc) | Loop(l: LoopPc) | Core(k: CorePc) | ClearMarker | Stop(p: StopPc) | Gone

  /** life: the lifecycle context that the thread's current select watches. */
  datatype Thread = Thread(role: Role, pc: Pc, life: nat)

  /** max <= 0 means no limit; stdio subprocesses have a monitor. */
  datatype Config = Config(autoRestart: bool, max: int, health: bool, stdio: bool)

  /** lives: for every lifecycle ever installed, whether it was cancelled; the last is the
      current one. */
  datatype State = State(status: Status, stopped: bool, restarting: bool, count: nat, lives: seq<bool>, wg: int,
                         threads: seq<Thread>)

  predicate Cancelled(s: State, life: nat) { life < |s.lives| && s.lives[life] }

  function Current(s: State): nat { if s.lives == [] then 0 else |s.lives| - 1 }

  function CancelCurrent(s: State): seq<bool> { if s.lives == [] then [] else s.lives[|s.lives| - 1 := true] }

  /** What one step of a thread does: the new shared values, where the thread goes, and the
      thread it starts, if any. */
  datatype Effect = Effect(status: Status, stopped: bool, restarting: bool, count: nat, lives: seq<bool>, pc: Pc,
                           spawn: Option<Thread>)

  predicate Exhausted(c: Config, count: nat) { c.max > 0 && count >= c.max }

  function Keep(s: State, pc: Pc): Effect {
    Effect(s.status, s.stopped, s.restarting, s.count, s.lives, pc, None)
  }

  /** Where triggerAutoRestart returns to. */
  function Back(role: Role): Pc { if role == Health then Watch(Begin) else Gone }

  /** choice resolves what the environment decides: a tick or a timeout, a failed probe, a
      crash, a connection error. */
  function WatchEffect(c: Config, s: State, role: Role, life: nat, w: WatchPc, choice: bool): Effect {
    match w
    case Begin => Keep(s, Watch(Watching))
    case Watching =>
      if role == Health then
        if choice then Keep(s, if Cancelled(s, life) then Gone else Watch(Begin))
        else Keep(s, if s.status == Running then Watch(Budget) else Watch(Begin))
      else if choice then Keep(s, if s.status == Running then Watch(Crashed) else Gone)
      else Keep(s, Gone).(status := if s.status == Running then Stopped else s.status)
    case Crashed => Keep(s, Watch(Budget)).(status := Failed)
    case Budget =>
      if !c.autoRestart then Keep(s, Back(role))
      else if Exhausted(c, s.count) then Keep(s, Back(role)).(status := Failed)
      else Keep(s, Watch(StateCheck))
    case StateCheck => Keep(s, if s.status == Running || s.status == Failed then Watch(Cas) else Back(role))
    case Cas => if s.restarting then Keep(s, Back(role)) else Keep(s, Watch(Spawn)).(restarting := true)
    case Spawn => Keep(s, Back(role)).(spawn := Some(Thread(Restart, Loop(Top), 0)))
  }

  /** The end of doRestart releases the single-flight flag. */
  function Leave(s: State): Effect { Keep(s, Gone).(restarting := false) }

  function LoopEffect(c: Config, s: State, life: nat, l: LoopPc, choice: bool): Effect {
    match l
    case Top => Keep(s, Loop(Waiting))
    case Waiting => if choice && Cancelled(s, life) then Leave(s) else Keep(s, Loop(Marker))
    case Marker => if s.stopped then Leave(s) else Keep(s, Loop(Cancel))
    case Cancel => Keep(s, Loop(Drain)).(lives := CancelCurrent(s))
    case Drain => Keep(s, Loop(CountUp))
    case CountUp => Keep(s, Loop(Recheck)).(count := s.count + 1)
    case Recheck => if s.stopped then Leave(s) else Keep(s, Loop(Reset))
    case Reset => Keep(s, Core(Enter)).(status := Stopped)
    case AfterFail => if s.stopped then Leave(s) else Keep(s, Loop(Stamp))
    case Stamp => Keep(s, Loop(BudgetLeft)).(status := Failed)
    case BudgetLeft => if Exhausted(c, s.count) then Leave(s) else Keep(s, Loop(Top))
  }

  /** The way out of startCore: the restart loop looks at the error, a user start returns. */
  function CoreEnd(s: State, role: Role, ok: bool): Effect {
    if role == Restart then (if ok then Leave(s) else Keep(s, Loop(AfterFail))) else Keep(s, Gone)
  }

  predicate Busy(st: Status) { st == Running || st == Starting || st == Stopping }

  function CoreEffect(c: Config, s: State, role: Role, k: CorePc, choice: bool): Effect {
    match k
    case Enter => if Busy(s.status) then CoreEnd(s, role, false) else Keep(s, Core(Marker1)).(status := Starting)
    case Marker1 => Keep(s, Core(if s.stopped then Abort else NewLife))
    case NewLife => Keep(s, Core(Marker2)).(lives := s.lives + [false])
    case Marker2 => Keep(s, Core(if s.stopped then AbortCancel else Connect))
    case Connect =>
      if choice then Keep(s, Core(ConnectFailed))
      else Keep(s, Core(LastCheck)).(spawn := if c.stdio then Some(Thread(Monitor, Watch(Watching), 0)) else None)
    case LastCheck => Keep(s, Core(if s.stopped || Cancelled(s, Current(s)) then AbortCancel else SetRunning))
    case SetRunning => Keep(s, Core(StartHealth)).(status := Running)
    case StartHealth =>
      CoreEnd(s, role, true).(spawn := if c.health then Some(Thread(Health, Watch(Begin), 0)) else None)
    case AbortCancel => Keep(s, Core(Abort)).(lives := CancelCurrent(s))
    case Abort => CoreEnd(s, role, false).(status := Stopped)
    case ConnectFailed => CoreEnd(s, role, false).(status := Failed)
  }

  function StopEffect(s: State, p: StopPc): Effect {
    match p
    case Check => Keep(s, if s.status == Running || s.status == Starting then Stop(Mark) else Gone)
    case Mark => Keep(s, Stop(SetStopping)).(stopped := true)
    case SetStopping => Keep(s, Stop(CancelLife)).(status := Stopping)
    case CancelLife => Keep(s, Stop(AwaitDrain)).(lives := CancelCurrent(s))
    case AwaitDrain => Keep(s, Stop(SetStopped))
    case SetStopped => Keep(s, Gone).(status := Stopped)
    case MarkUnregistered => Keep(s, Stop(CancelUnregistered)).(stopped := true)
    case CancelUnregistered => Keep(s, Gone).(lives := CancelCurrent(s))
  }

  function EffectOf(c: Config, s: State, th: Thread, choice: bool): Effect {
    match th.pc
    case Watch(w) => WatchEffect(c, s, th.role, th.life, w, choice)
    case Loop(l) => LoopEffect(c, s, th.life, l, choice)
    case Core(k) => CoreEffect(c, s, th.role, k, choice)
    case Stop(p) => StopEffect(s, p)
    case ClearMarker => Keep(s, Core(Enter)).(stopped := false)
    case Gone => Keep(s, Gone)
  }

  predicate Ticket(th: Thread) { (th.role == Health || th.role == Monitor) && th.pc != Gone }

  function Tickets(spawn: Option<Thread>): nat { match spawn case Some(th) => Bit(Ticket(th)) case None => 0 }

  function Perform(s: State, i: nat, e: Effect): State
    requires i < |s.threads|
  {
    var th := Thread(s.threads[i].role, e.pc, Current(s));
    State(e.status, e.stopped, e.restarting, e.count, e.lives,
          s.wg + Bit(Ticket(th)) - Bit(Ticket(s.threads[i])) + Tickets(e.spawn),
          s.threads[i := th] + match e.spawn case Some(n) => [n] case None => [])
  }

  datatype Step = Move(thread: nat, choice: bool) | CallStart | CallStop | CallUnregister

  predicate Enabled(s: State, e: Step) {
    match e
    case Move(i, _) =>
      i < |s.threads| && s.threads[i].pc != Gone
        && (s.threads[i].pc == Loop(Drain) || s.threads[i].pc == Stop(AwaitDrain) ==> s.wg == 0)
    case _ => true
  }

  function Apply(c: Config, s: State, e: Step): State
    requires Enabled(s, e)
  {
    match e
    case Move(i, choice) => Perform(s, i, EffectOf(c, s, s.threads[i], choice))
    case CallStart => s.(threads := s.threads + [Thread(User, ClearMarker, 0)])
    case CallStop => s.(threads := s.threads + [Thread(Stopper, Stop(Check), 0)])
    case CallUnregister => s.(threads := s.threads + [Thread(Stopper, Stop(MarkUnregistered), 0)])
  }

  predicate Init(s: State) {
    && s.status == Pending && !s.stopped && !s.restarting && s.count == 0
    && s.lives == [false] && s.wg == 0 && s.threads == []
  }

  // ------------------------------------------------------------ single flight

  /** The restart in flight: about to be launched, or running. */
  predicate InRestart(th: Thread) { th.pc == Watch(Spawn) || (th.role == Restart && th.pc != Gone) }

  /** The program counters of each role. */
  predicate WellPlaced(th: Thread) {
    th.pc == Gone ||
    match th.role
    case Health => th.pc.Watch?
    case Monitor => th.pc.Watch?
    case Restart => th.pc.Loop? || th.pc.Core?
    case User => th.pc == ClearMarker || th.pc.Core?
    case Stopper => th.pc.Stop?
  }

  predicate Placed(s: State) { forall i :: 0 <= i < |s.threads| ==> WellPlaced(s.threads[i]) }

  /** The wait group counts the ticket holders; the flag stands for exactly one restart. */
  predicate Flight(s: State) {
    && Placed(s)
    && s.wg == Count(s.threads, Ticket)
    && Count(s.threads, InRestart) == Bit(s.restarting)
  }

  predicate Early(k: CorePc) {
    k == Enter || k == Marker1 || k == NewLife || k == Marker2 || k == Connect || k == LastCheck
  }

  predicate Starts(e: Effect) { e.spawn.Some? && InRestart(e.spawn.value) }

  /** The step keeps the thread in its role, and trades the flag for a restart. */
  predicate Trades(s: State, th: Thread, e: Effect) {
    && WellPlaced(th.(pc := e.pc)) && (e.spawn.Some? ==> WellPlaced(e.spawn.value))
    && Bit(InRestart(th.(pc := e.pc))) + Bit(Starts(e)) + Bit(s.restarting) == Bit(InRestart(th)) + Bit(e.restarting)
  }

  lemma WatchFlight(c: Config, s: State, th: Thread, choice: bool)
    requires WellPlaced(th) && th.pc.Watch? && (InRestart(th) ==> s.restarting)
    ensures Trades(s, th, WatchEffect(c, s, th.role, th.life, th.pc.w, choice))
  {
    match th.pc.w
    case Begin =>
    case Watching =>
    case Crashed =>
    case Budget =>
    case _ => LaunchFlight(c, s, th, choice);
  }

  /** From the state check to the launch of a restart. */
  lemma LaunchFlight(c: Config, s: State, th: Thread, choice: bool)
    requires WellPlaced(th) && (th.pc == Watch(StateCheck) || th.pc == Watch(Cas) || th.pc == Watch(Spawn))
    requires InRestart(th) ==> s.restarting
    ensures Trades(s, th, WatchEffect(c, s, th.role, th.life, th.pc.w, choice))
  {
  }

  lemma LoopFlight(c: Config, s: State, th: Thread, choice: bool)
    requires WellPlaced(th) && th.pc.Loop? && s.restarting
    ensures Trades(s, th, LoopEffect(c, s, th.life, th.pc.l, choice))
  {
  }

  lemma CoreFlightEarly(c: Config, s: State, th: Thread, choice: bool)
    requires WellPlaced(th) && th.pc.Core? && Early(th.pc.k) && (InRestart(th) ==> s.restarting)
    ensures Trades(s, th, CoreEffect(c, s, th.role, th.pc.k, choice))
  {
    match th.pc.k
    case Enter =>
    case Marker1 =>
    case NewLife =>
    case Marker2 =>
    case _ =>
  }

  lemma CoreFlightLate(c: Config, s: State, th: Thread, choice: bool)
    requires WellPlaced(th) && th.pc.Core? && !Early(th.pc.k) && (InRestart(th) ==> s.restarting)
    ensures Trades(s, th, CoreEffect(c, s, th.role, th.pc.k, choice))
  {
    match th.pc.k
    case SetRunning =>
    case StartHealth => HealthFlight(c, s, th, choice);
    case AbortCancel =>
    case Abort =>
    case ConnectFailed =>
    case _ =>
  }

  lemma HealthFlight(c: Config, s: State, th: Thread, choice: bool)
    requires WellPlaced(th) && th.pc == Core(StartHealth) && (InRestart(th) ==> s.restarting)
    ensures Trades(s, th, CoreEffect(c, s, th.role, StartHealth, choice))
  {
  }

  lemma EffectFlight(c: Config, s: State, th: Thread, choice: bool)
    requires WellPlaced(th) && (InRestart(th) ==> s.restarting)
    ensures Trades(s, th, EffectOf(c, s, th, choice))
  {
    match th.pc
    case Watch(_) => WatchFlight(c, s, th, choice);
    case Loop(_) => LoopFlight(c, s, th, choice);
    case Core(k) => if Early(k) { CoreFlightEarly(c, s, th, choice); } else { CoreFlightLate(c, s, th, choice); }
    case Stop(_) => StopFlight(s, th);
    case _ =>
  }

  lemma StopFlight(s: State, th: Thread)
    requires WellPlaced(th) && th.pc.Stop?
    ensures Trades(s, th, StopEffect(s, th.pc.p))
  {
  }

  lemma PerformFlight(s: State, i: nat, e: Effect)
    requires i < |s.threads| && Flight(s) && Trades(s, s.threads[i], e)
    ensures Flight(Perform(s, i, e))
  {
    PerformCounts(s, i, e);
    assert Placed(Perform(s, i, e));
  }

  lemma PerformCounts(s: State, i: nat, e: Effect)
    requires i < |s.threads|
    ensures
      var th, ts := Thread(s.threads[i].role, e.pc, Current(s)), Perform(s, i, e).threads;
      && Count(ts, Ticket) + Bit(Ticket(s.threads[i])) == Count(s.threads, Ticket) + Bit(Ticket(th)) + Tickets(e.spawn)
      && Count(ts, InRestart) + Bit(InRestart(s.threads[i])) ==
           Count(s.threads, InRestart) + Bit(InRestart(th)) + Bit(Starts(e))
  {
    var th := Thread(s.threads[i].role, e.pc, Current(s));
    var ts := s.threads[i := th];
    CountUpdate(s.threads, i, th, Ticket);
    CountUpdate(s.threads, i, th, InRestart);
    if e.spawn.Some? {
      CountAppend(ts, e.spawn.value, Ticket);
      CountAppend(ts, e.spawn.value, InRestart);
    } else {
      assert ts + [] == ts;
    }
  }

  lemma FlagHeld(s: State, i: nat)
    requires i < |s.threads| && Flight(s) && InRestart(s.threads[i])
    ensures s.restarting
  {
    CountZero(s.threads, InRestart);
  }

  lemma CallFlight(s: State, th: Thread)
    requires Flight(s) && WellPlaced(th) && !Ticket(th) && !InRestart(th)
    ensures Flight(s.(threads := s.threads + [th]))
  {
    CountAppend(s.threads, th, Ticket);
    CountAppend(s.threads, th, InRestart);
  }

  lemma StepFlight(c: Config, s: State, e: Step)
    requires Flight(s) && Enabled(s, e)
    ensures Flight(Apply(c, s, e))
  {
    match e
    case Move(i, choice) =>
      if InRestart(s.threads[i]) { FlagHeld(s, i); }
      EffectFlight(c, s, s.threads[i], choice);
      PerformFlight(s, i, EffectOf(c, s, s.threads[i], choice));
    case CallStart => CallFlight(s, Thread(User, ClearMarker, 0));
    case CallStop => CallFlight(s, Thread(Stopper, Stop(Check), 0));
    case CallUnregister => CallFlight(s, Thread(Stopper, Stop(MarkUnregistered), 0));
  }

  // ------------------------------------------------------------ the budget

  /** Past the budget check, and before the count that it allows. */
  predicate Cleared(th: Thread) {
    match th.pc
    case Watch(w) => w == StateCheck || w == Cas || w == Spawn
    case Loop(l) => l == Top || l == Waiting || l == Marker || l == Cancel || l == Drain || l == CountUp
    case _ => false
  }

  const AT_COUNT := Loop(CountUp)

  predicate WithinBudget(c: Config, s: State) {
    c.max > 0 ==>
      && s.count <= c.max
      && forall i :: 0 <= i < |s.threads| && Cleared(s.threads[i]) ==> s.count < c.max
  }

  /** A restart about to count has drained every ticket. */
  predicate Drained(s: State) {
    forall i :: 0 <= i < |s.threads| && s.threads[i].pc == AT_COUNT ==> s.wg == 0
  }

  predicate Inv(c: Config, s: State) { Flight(s) && WithinBudget(c, s) && Drained(s) }

  /** A step other than the count: who is cleared afterwards was before, or has just passed
      the check. */
  predicate Clears(c: Config, s: State, th: Thread, e: Effect) {
    && e.count == s.count + Bit(th.pc == AT_COUNT)
    && (Cleared(th.(pc := e.pc)) ==> th.pc != AT_COUNT && (Cleared(th) || !Exhausted(c, s.count)))
    && (e.spawn.Some? ==> e.spawn.value.pc != AT_COUNT && th.pc != AT_COUNT && (Cleared(e.spawn.value) ==> Cleared(th)))
    && (e.spawn.Some? && Ticket(e.spawn.value) ==> th.pc == Core(Connect) || th.pc == Core(StartHealth))
    && (e.pc == AT_COUNT ==> th.pc == Loop(Drain) && e.spawn == None)
    && (Ticket(th.(pc := e.pc)) ==> Ticket(th))
  }

  lemma WatchClears(c: Config, s: State, th: Thread, choice: bool)
    requires WellPlaced(th) && th.pc.Watch?
    ensures Clears(c, s, th, WatchEffect(c, s, th.role, th.life, th.pc.w, choice))
  {
    match th.pc.w
    case Begin =>
    case Watching =>
    case Crashed =>
    case Budget =>
    case StateCheck =>
    case Cas =>
    case Spawn =>
  }

  lemma LoopClears(c: Config, s: State, th: Thread, choice: bool)
    requires WellPlaced(th) && th.pc.Loop?
    ensures Clears(c, s, th, LoopEffect(c, s, th.life, th.pc.l, choice))
  {
    match th.pc.l
    case Top =>
    case Waiting =>
    case Marker =>
    case Cancel =>
    case Drain =>
    case CountUp =>
    case _ => LaterClears(c, s, th, choice);
  }

  lemma LaterClears(c: Config, s: State, th: Thread, choice: bool)
    requires WellPlaced(th) && th.pc.Loop? && !Cleared(th)
    ensures Clears(c, s, th, LoopEffect(c, s, th.life, th.pc.l, choice))
  {
  }

  lemma CoreClearsEarly(c: Config, s: State, th: Thread, choice: bool)
    requires WellPlaced(th) && th.pc.Core? && Early(th.pc.k)
    ensures Clears(c, s, th, CoreEffect(c, s, th.role, th.pc.k, choice))
  {
    match th.pc.k
    case Enter =>
    case Marker1 =>
    case NewLife =>
    case Marker2 =>
    case _ =>
  }

  lemma CoreClearsLate(c: Config, s: State, th: Thread, choice: bool)
    requires WellPlaced(th) && th.pc.Core? && !Early(th.pc.k)
    ensures Clears(c, s, th, CoreEffect(c, s, th.role, th.pc.k, choice))
  {
    match th.pc.k
    case SetRunning =>
    case StartHealth =>
    case AbortCancel =>
    case Abort =>
    case ConnectFailed =>
    case _ =>
  }

  lemma EffectClears(c: Config, s: State, th: Thread, choice: bool)
    requires WellPlaced(th)
    ensures Clears(c, s, th, EffectOf(c, s, th, choice))
  {
    match th.pc
    case Watch(_) => WatchClears(c, s, th, choice);
    case Loop(_) => LoopClears(c, s, th, choice);
    case Core(k) => if Early(k) { CoreClearsEarly(c, s, th, choice); } else { CoreClearsLate(c, s, th, choice); }
    case _ =>
  }

  /** When the count is made, nobody else is cleared: other restarts do not exist, and
      ticket holders have drained. */
  lemma NobodyElse(s: State, i: nat, j: nat)
    requires Flight(s) && Drained(s) && i < |s.threads| && j < |s.threads| && i != j
    requires s.threads[i].pc == AT_COUNT
    ensures !Cleared(s.threads[j])
  {
    assert WellPlaced(s.threads[j]);
    CountZero(s.threads, Ticket);
    OnlyRestart(s, i, j);
  }

  lemma OnlyRestart(s: State, i: nat, j: nat)
    requires Flight(s) && i < |s.threads| && j < |s.threads| && i != j && s.threads[i].pc == AT_COUNT
    ensures !InRestart(s.threads[j])
  {
    assert WellPlaced(s.threads[i]) && InRestart(s.threads[i]);
    if InRestart(s.threads[j]) {
      if i < j { CountTwo(s.threads, i, j, InRestart); } else { CountTwo(s.threads, j, i, InRestart); }
    }
  }

  /** A restart uses up the last of the budget while another thread is past the check. */
  ghost predicate Crowded(c: Config, s: State, e: Step) {
    && e.Move? && e.thread < |s.threads| && s.threads[e.thread].pc == AT_COUNT && s.count + 1 == c.max
    && exists k :: 0 <= k < |s.threads| && k != e.thread && Cleared(s.threads[k])
  }

  lemma MoveBudget(c: Config, s: State, i: nat, choice: bool, e: Effect)
    requires WithinBudget(c, s) && Enabled(s, Move(i, choice)) && Clears(c, s, s.threads[i], e) && c.max > 0
    ensures WithinBudget(c, Perform(s, i, e)) <==> !Crowded(c, s, Move(i, choice))
  {
    var th := s.threads[i];
    var s' := Perform(s, i, e);
    if th.pc == AT_COUNT { assert Cleared(th); }
    if Crowded(c, s, Move(i, choice)) {
      var k :| 0 <= k < |s.threads| && k != i && Cleared(s.threads[k]);
      assert s'.threads[k] == s.threads[k] && Cleared(s'.threads[k]);
    } else {
      forall k | 0 <= k < |s'.threads| && Cleared(s'.threads[k]) ensures s'.count < c.max {
        if k < |s.threads| && k != i { assert s'.threads[k] == s.threads[k]; }
      }
    }
  }

  /** The only step that can break the budget invariant: a count, of the last restart allowed,
      while another thread is past the check. */
  lemma BudgetStep(c: Config, s: State, e: Step)
    requires Flight(s) && WithinBudget(c, s) && c.max > 0 && Enabled(s, e)
    ensures WithinBudget(c, Apply(c, s, e)) <==> !Crowded(c, s, e)
  {
    if e.Move? {
      EffectClears(c, s, s.threads[e.thread], e.choice);
      MoveBudget(c, s, e.thread, e.choice, EffectOf(c, s, s.threads[e.thread], e.choice));
    }
  }

  /** A ticket is taken while a restart stands between its drain and its count. */
  ghost predicate Refills(c: Config, s: State, e: Step) {
    && e.Move? && e.thread < |s.threads| && Tickets(EffectOf(c, s, s.threads[e.thread], e.choice).spawn) > 0
    && exists k :: 0 <= k < |s.threads| && s.threads[k].pc == AT_COUNT
  }

  lemma MoveDrained(s: State, i: nat, e: Effect, c: Config)
    requires Flight(s) && Drained(s) && i < |s.threads| && Clears(c, s, s.threads[i], e)
    requires s.threads[i].pc == Loop(Drain) ==> s.wg == 0
    ensures
      var counting := exists k :: 0 <= k < |s.threads| && s.threads[k].pc == AT_COUNT;
      Drained(Perform(s, i, e)) <==> !(counting && Tickets(e.spawn) > 0)
  {
    var th, s' := s.threads[i], Perform(s, i, e);
    assert WellPlaced(th);
    assert forall k :: 0 <= k < |s.threads| && k != i ==> s'.threads[k] == s.threads[k];
    if k :| 0 <= k < |s.threads| && s.threads[k].pc == AT_COUNT {
      CountZero(s.threads, Ticket);
      assert s'.wg == Tickets(e.spawn);
      if k != i { assert s'.threads[k].pc == AT_COUNT; }
    } else {
      assert forall k :: 0 <= k < |s'.threads| && s'.threads[k].pc == AT_COUNT ==> k == i;
    }
  }

  /** The only step that can take away a drained wait group is one that takes a ticket. */
  lemma DrainedStep(c: Config, s: State, e: Step)
    requires Flight(s) && Drained(s) && Enabled(s, e)
    ensures Drained(Apply(c, s, e)) <==> !Refills(c, s, e)
  {
    if e.Move? {
      EffectClears(c, s, s.threads[e.thread], e.choice);
      MoveDrained(s, e.thread, EffectOf(c, s, s.threads[e.thread], e.choice), c);
    }
  }

  /** Such a step is a user's: of a start that launches its monitor, or its health loop. */
  lemma RefillIsUserStart(c: Config, s: State, e: Step)
    requires Flight(s) && Enabled(s, e) && Refills(c, s, e)
    ensures
      var th := s.threads[e.thread];
      th.role == User && (th.pc == Core(Connect) || th.pc == Core(StartHealth))
  {
    var k :| 0 <= k < |s.threads| && s.threads[k].pc == AT_COUNT;
    EffectClears(c, s, s.threads[e.thread], e.choice);
    assert WellPlaced(s.threads[e.thread]);
    OnlyRestart(s, k, e.thread);
  }

  /** While tickets are drained before they count, restarts never crowd. */
  lemma NeverCrowded(c: Config, s: State, e: Step)
    requires Flight(s) && Drained(s)
    ensures !Crowded(c, s, e)
  {
    if e.Move? && e.thread < |s.threads| && s.threads[e.thread].pc == AT_COUNT {
      forall k | 0 <= k < |s.threads| && k != e.thread ensures !Cleared(s.threads[k]) { NobodyElse(s, e.thread, k); }
    }
  }

  /** Every step keeps the invariant, unless it takes a ticket at that one moment. */
  lemma StepInv(c: Config, s: State, e: Step)
    requires Inv(c, s) && Enabled(s, e)
    ensures Inv(c, Apply(c, s, e)) <==> !Refills(c, s, e)
  {
    StepFlight(c, s, e);
    DrainedStep(c, s, e);
    if c.max > 0 {
      BudgetStep(c, s, e);
      NeverCrowded(c, s, e);
    }
  }

  // ------------------------------------------------------------ runs

  ghost predicate Legal(c: Config, s: State, run: seq<Step>)
    decreases |run|
  {
    run != [] ==> Enabled(s, run[0]) && Legal(c, Apply(c, s, run[0]), run[1..])
  }

  ghost function Exec(c: Config, s: State, run: seq<Step>): State
    requires Legal(c, s, run)
    decreases |run|
  {
    if run == [] then s else Exec(c, Apply(c, s, run[0]), run[1..])
  }

  /** No ticket is taken between the drain and the count of a restart. */
  ghost predicate NoRefill(c: Config, s: State, run: seq<Step>)
    requires Legal(c, s, run)
    decreases |run|
  {
    run != [] ==> !Refills(c, s, run[0]) && NoRefill(c, Apply(c, s, run[0]), run[1..])
  }

  lemma InitInv(c: Config, s: State)
    requires Init(s)
    ensures Inv(c, s)
  {
  }

  lemma {:induction false} ExecFlight(c: Config, s: State, run: seq<Step>)
    requires Flight(s) && Legal(c, s, run)
    ensures Flight(Exec(c, s, run))
    decreases |run|
  {
    if run == [] {
    } else {
      StepFlight(c, s, run[0]);
      ExecFlight(c, Apply(c, s, run[0]), run[1..]);
    }
  }

  lemma {:induction false} ExecInv(c: Config, s: State, run: seq<Step>)
    requires Inv(c, s) && Legal(c, s, run) && NoRefill(c, s, run)
    ensures Inv(c, Exec(c, s, run))
    decreases |run|
  {
    if run == [] {
    } else {
      StepInv(c, s, run[0]);
      ExecInv(c, Apply(c, s, run[0]), run[1..]);
    }
  }

  /** In every run whatsoever at most one restart loop is alive. */
  lemma OneRestart(c: Config, s0: State, run: seq<Step>, i: nat, j: nat)
    requires Init(s0) && Legal(c, s0, run)
    requires
      var ts := Exec(c, s0, run).threads;
      i < |ts| && j < |ts| && ts[i].role == Restart && ts[i].pc != Gone && ts[j].role == Restart && ts[j].pc != Gone
    ensures i == j
  {
    InitInv(c, s0);
    ExecFlight(c, s0, run);
    var s := Exec(c, s0, run);
    if i < j { CountTwo(s.threads, i, j, InRestart); }
    if j < i { CountTwo(s.threads, j, i, InRestart); }
  }

  ghost predicate NeverCrowds(c: Config, s: State, run: seq<Step>)
    requires Legal(c, s, run)
    decreases |run|
  {
    run != [] ==> !Crowded(c, s, run[0]) && NeverCrowds(c, Apply(c, s, run[0]), run[1..])
  }

  /** The budget invariant holds in every state the run passes through. */
  ghost predicate AlwaysWithin(c: Config, s: State, run: seq<Step>)
    requires Legal(c, s, run)
    decreases |run|
  {
    WithinBudget(c, s) && (run != [] ==> AlwaysWithin(c, Apply(c, s, run[0]), run[1..]))
  }

  /** Over a whole run, with user starts at any moment: the budget invariant is kept exactly
      when no restart uses up the budget while another thread is past the check. */
  lemma {:induction false} BudgetExact(c: Config, s: State, run: seq<Step>)
    requires Flight(s) && WithinBudget(c, s) && c.max > 0 && Legal(c, s, run)
    ensures AlwaysWithin(c, s, run) <==> NeverCrowds(c, s, run)
    decreases |run|
  {
    if run == [] {
    } else {
      var s' := Apply(c, s, run[0]);
      BudgetStep(c, s, run[0]);
      StepFlight(c, s, run[0]);
      if WithinBudget(c, s') { BudgetExact(c, s', run[1..]); }
    }
  }

  /** A user start may overlap a restart: as long as it takes no ticket between the restart's
      drain and its count, a positive limit on restarts is kept, and a restart counts itself
      only when no health loop or monitor is left. */
  lemma BudgetKept(c: Config, s0: State, run: seq<Step>)
    requires Init(s0) && Legal(c, s0, run) && NoRefill(c, s0, run)
    ensures
      var s := Exec(c, s0, run);
      && (c.max > 0 ==> s.count <= c.max)
      && forall i, j :: 0 <= i < |s.threads| && 0 <= j < |s.threads| && s.threads[i].pc == AT_COUNT ==>
        !Ticket(s.threads[j])
  {
    InitInv(c, s0);
    ExecInv(c, s0, run);
    CountZero(Exec(c, s0, run).threads, Ticket);
  }
}
