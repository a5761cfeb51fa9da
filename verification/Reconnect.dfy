/** The self-healing client connection: Connect, error reports, the reconnect loop and Close,
    interleaved step by step. */
module Reconnect {
  import opened Prelude
  import opened Counting
  import opened Int64

  // ------------------------------------------------------------ the backoff

  function MinDuration(a: int, b: int): (r: int)
    ensures r <= a && r <= b && (r == a || r == b)
  {
    if a < b then a else b
  }

  /** The k-th wait (from 0), in int64 arithmetic. */
  function Delay(min: int, max: int, k: nat): int {
    if k == 0 then min else MinDuration(Wrap(Delay(min, max, k - 1) * 2), max)
  }

  /** The k-th wait is the first one doubled k times, or the largest if that is less; the very
      first one is never cut. */
  predicate Exact(min: int, max: int, k: nat) {
    Delay(min, max, k) == if k == 0 || min * Pow2(k) < max then min * Pow2(k) else max
  }

  lemma {:induction false} DelayExact(min: int, max: int, k: nat)
    requires 0 < min < Pow2(62) && 0 < max < Pow2(62)
    ensures Exact(min, max, k) && 0 < Delay(min, max, k) < Pow2(62)
  {
    Pow2At62();
    if k == 0 {
    } else {
      DelayExact(min, max, k - 1);
      var d := Delay(min, max, k - 1);
      WrapExact(d * 2);
      Doubling(min, k - 1);
      assert if k > 1 && max <= min * Pow2(k - 1) then d == max else d == min * Pow2(k - 1);
    }
  }

  lemma Doubling(min: int, k: nat)
    requires 0 < min
    ensures min * Pow2(k + 1) == 2 * (min * Pow2(k)) && min * Pow2(k) > 0
  {
    assert min * (2 * Pow2(k)) == 2 * (min * Pow2(k));
    assert min * Pow2(k) >= 1 * Pow2(k);
  }

  /** The first wait of at least 2^62; the one after it has wrapped around. */
  lemma {:induction false} FirstLarge(min: int, max: int, k: nat) returns (n: nat)
    requires 0 < min && Pow2(62) <= max <= MAX64 && min * Pow2(k) < Pow2(62)
    requires Delay(min, max, k) == min * Pow2(k)
    ensures Pow2(62) <= Delay(min, max, n) <= MAX64
    decreases Pow2(62) - min * Pow2(k)
  {
    Pow2At62();
    Doubling(min, k);
    WrapExact(Delay(min, max, k) * 2);
    assert Delay(min, max, k + 1) == MinDuration(2 * (min * Pow2(k)), max);
    if 2 * (min * Pow2(k)) >= Pow2(62) {
      n := k + 1;
    } else {
      n := FirstLarge(min, max, k + 1);
    }
  }

  lemma WrapsNegative(min: int, max: int, n: nat)
    requires 0 < min && 0 < max && Pow2(62) <= Delay(min, max, n) <= MAX64
    ensures !Exact(min, max, n + 1)
  {
    Pow2At62();
    assert Wrap(Delay(min, max, n) * 2) < 0;
    Doubling(min, n);
  }

  /** For positive bounds every wait is exact precisely when both are below 2^62. */
  lemma DelaysExact(min: int, max: int)
    requires 0 < min <= MAX64 && 0 < max <= MAX64
    ensures (forall k :: Exact(min, max, k)) <==> min < Pow2(62) && max < Pow2(62)
  {
    Pow2At62();
    if min < Pow2(62) && max < Pow2(62) {
      forall k: nat ensures Exact(min, max, k) { DelayExact(min, max, k); }
    } else if min >= Pow2(62) {
      WrapsNegative(min, max, 0);
    } else {
      assert min * Pow2(0) == min;
      var n := FirstLarge(min, max, 0);
      WrapsNegative(min, max, n);
    }
  }

  const DEFAULT_BACKOFF_MIN := 100_000_000
  const DEFAULT_BACKOFF_MAX := 30_000_000_000

  /** The constructor replaces a bound that is not positive (durations are nanoseconds). */
  function Normalised(d: int, default_: int): int { if d <= 0 then default_ else d }

  /** For every configuration: the k-th wait is the smaller of Min * 2^k and Max for every
      k >= 1 (and Min itself for k = 0) exactly when neither bound was given as 2^62 or more. */
  lemma ConfiguredDelays(rawMin: int, rawMax: int)
    requires Fits(rawMin) && Fits(rawMax)
    ensures
      var min := if rawMin > 0 then rawMin else 100_000_000;
      var max := if rawMax > 0 then rawMax else 30_000_000_000;
      && min == Normalised(rawMin, DEFAULT_BACKOFF_MIN) && max == Normalised(rawMax, DEFAULT_BACKOFF_MAX)
      && ((forall k :: Exact(min, max, k)) <==> rawMin < Pow2(62) && rawMax < Pow2(62))
  {
    Pow2At62();
    DelaysExact(Normalised(rawMin, DEFAULT_BACKOFF_MIN), Normalised(rawMax, DEFAULT_BACKOFF_MAX));
  }

  // ------------------------------------------------------------ the protocol

  /** A reporter of a connection error: triggerReconnect. */
  datatype ReportPc = CheckFlags | Cas | Launch

  /** reconnectLoop; conn is the connection just dialled. */
  datatype LoopPc =
    | Top | CloseOld | Dial
    | LockPublish(conn: nat) | CheckLive(conn: nat) | Publish(conn: nat) | DropConn(conn: nat)
    | Announce | Retry | GiveUp | Backoff

  /** Close. */
  datatype ClosePc = Swap | Signal | LockClose | CloseConn | Returned

  /** Connect; it holds the mutex from before the dial to the end. */
  datatype ConnectPc =
    | CheckShutdown | ClearFailed | LockConnect | DialFirst
    | CheckVersion(conn: nat) | PublishFirst(conn: nat) | CloseReplaced(replaced: Option<nat>)

  datatype Pc = Report(r: ReportPc) | Loop(l: LoopPc) | Close(p: ClosePc) | Connect(n: ConnectPc) | Gone

  /** attempts and backoff are the loop's local variables. */
  datatype Thread = Thread(pc: Pc, attempts: nat, backoff: int)

  /** maxAttempts <= 0 means no limit. */
  datatype Config = Config(backoffMin: int, backoffMax: int, maxAttempts: int)

  /** conns: for every connection ever opened, whether it was closed; current is the
      published one; lock is the connection mutex. */
  datatype Shared = Shared(shutdown: bool, signalled: bool, reconnecting: bool, failed: bool, lock: bool,
                           conns: seq<bool>, current: Option<nat>)

  datatype State = State(g: Shared, threads: seq<Thread>)

  /** The shared state after a step of one thread, that thread, and one it starts. */
  datatype Effect = Effect(g: Shared, th: Thread, spawn: Option<Thread>)

  function Go(g: Shared, th: Thread, pc: Pc): Effect { Effect(g, th.(pc := pc), None) }

  /** The loop's deferred release of the single-flight flag. */
  function Leave(g: Shared, th: Thread): Effect { Go(g.(reconnecting := false), th, Gone) }

  function CloseNth(conns: seq<bool>, k: nat): seq<bool> { if k < |conns| then conns[k := true] else conns }

  function CloseCurrent(g: Shared): seq<bool> {
    if g.current.Some? then CloseNth(g.conns, g.current.value) else g.conns
  }

  function ReportEffect(c: Config, g: Shared, th: Thread, r: ReportPc): Effect {
    match r
    case CheckFlags => Go(g, th, if g.shutdown || g.failed then Gone else Report(Cas))
    case Cas => if g.reconnecting then Go(g, th, Gone) else Go(g.(reconnecting := true), th, Report(Launch))
    case Launch => Effect(g, th.(pc := Gone), Some(Thread(Loop(Top), 0, c.backoffMin)))
  }

  /** choice: whether the dial succeeds; in the backoff, whether the timer fires first. */
  function LoopEffect(c: Config, g: Shared, th: Thread, l: LoopPc, choice: bool): Effect {
    match l
    case Top => if g.shutdown then Leave(g, th) else Go(g, th.(attempts := th.attempts + 1), Loop(CloseOld))
    case CloseOld => Go(g.(conns := CloseCurrent(g), current := None), th, Loop(Dial))
    case Dial =>
      if choice then Go(g.(conns := g.conns + [false]), th, Loop(LockPublish(|g.conns|))) else Go(g, th, Loop(Retry))
    case LockPublish(k) => Go(g.(lock := true), th, Loop(CheckLive(k)))
    case CheckLive(k) =>
      if g.shutdown then Go(g.(lock := false), th, Loop(DropConn(k))) else Go(g, th, Loop(Publish(k)))
    case Publish(k) => Go(g.(current := Some(k), lock := false), th, Loop(Announce))
    case DropConn(k) => Leave(g.(conns := CloseNth(g.conns, k)), th)
    case Announce => Leave(g.(failed := false), th)
    case Retry => Go(g, th, Loop(if c.maxAttempts > 0 && th.attempts >= c.maxAttempts then GiveUp else Backoff))
    case GiveUp => Leave(g.(failed := true), th)
    case Backoff =>
      if choice then Go(g, th.(backoff := MinDuration(Wrap(th.backoff * 2), c.backoffMax)), Loop(Top))
      else if g.signalled then Leave(g, th) else Go(g, th, Loop(Backoff))
  }

  function CloseEffect(g: Shared, th: Thread, p: ClosePc): Effect {
    match p
    case Swap => if g.shutdown then Go(g, th, Gone) else Go(g.(shutdown := true), th, Close(Signal))
    case Signal => Go(g.(signalled := true), th, Close(LockClose))
    case LockClose => Go(g.(lock := true), th, Close(CloseConn))
    case CloseConn => Go(g.(conns := CloseCurrent(g), lock := false), th, Close(Returned))
    case Returned => Go(g, th, Close(Returned))
  }

  /** choice: whether the dial succeeds, whether the version suits. */
  function ConnectEffect(g: Shared, th: Thread, n: ConnectPc, choice: bool): Effect {
    match n
    case CheckShutdown => Go(g, th, if g.shutdown then Gone else Connect(ClearFailed))
    case ClearFailed => Go(g.(failed := false), th, Connect(LockConnect))
    case LockConnect => Go(g.(lock := true), th, Connect(DialFirst))
    case DialFirst =>
      if choice then Go(g.(conns := g.conns + [false]), th, Connect(CheckVersion(|g.conns|)))
      else Go(g.(lock := false), th, Gone)
    case CheckVersion(k) =>
      if choice then Go(g, th, Connect(PublishFirst(k)))
      else Go(g.(conns := CloseNth(g.conns, k), lock := false), th, Gone)
    case PublishFirst(k) => Go(g.(current := Some(k)), th, Connect(CloseReplaced(g.current)))
    case CloseReplaced(replaced) =>
      Go(g.(conns := if replaced.Some? then CloseNth(g.conns, replaced.value) else g.conns, lock := false), th, Gone)
  }

  function EffectOf(c: Config, g: Shared, th: Thread, choice: bool): Effect {
    match th.pc
    case Report(r) => ReportEffect(c, g, th, r)
    case Loop(l) => LoopEffect(c, g, th, l, choice)
    case Close(p) => CloseEffect(g, th, p)
    case Connect(n) => ConnectEffect(g, th, n, choice)
    case Gone => Go(g, th, Gone)
  }

  function Perform(s: State, i: nat, e: Effect): State
    requires i < |s.threads|
  {
    State(e.g, s.threads[i := e.th] + match e.spawn case Some(n) => [n] case None => [])
  }

  datatype Step = Move(thread: nat, choice: bool) | CallConnect | ReportError | CallClose

  /** Steps that take the mutex wait for it. */
  predicate NeedsLock(pc: Pc) {
    pc == Loop(CloseOld) || (pc.Loop? && pc.l.LockPublish?) || pc == Close(LockClose) || pc == Connect(LockConnect)
  }

  predicate Enabled(s: State, e: Step) {
    e.Move? ==>
      e.thread < |s.threads| && s.threads[e.thread].pc != Gone && (NeedsLock(s.threads[e.thread].pc) ==> !s.g.lock)
  }

  function Apply(c: Config, s: State, e: Step): State
    requires Enabled(s, e)
  {
    match e
    case Move(i, choice) => Perform(s, i, EffectOf(c, s.g, s.threads[i], choice))
    case CallConnect => s.(threads := s.threads + [Thread(Connect(CheckShutdown), 0, 0)])
    case ReportError => s.(threads := s.threads + [Thread(Report(CheckFlags), 0, 0)])
    case CallClose => s.(threads := s.threads + [Thread(Close(Swap), 0, 0)])
  }

  predicate Init(s: State) {
    && s.threads == [] && s.g.conns == [] && s.g.current == None
    && !s.g.shutdown && !s.g.signalled && !s.g.reconnecting && !s.g.failed && !s.g.lock
  }

  // ------------------------------------------------------------ one loop, one lock holder

  /** The reconnect in flight: about to be launched, or running. */
  predicate InFlight(th: Thread) { th.pc == Report(Launch) || th.pc.Loop? }

  predicate Locked(th: Thread) {
    || (th.pc.Loop? && (th.pc.l.CheckLive? || th.pc.l.Publish?)) || th.pc == Close(CloseConn)
    || (th.pc.Connect?
        && (th.pc.n.DialFirst? || th.pc.n.CheckVersion? || th.pc.n.PublishFirst? || th.pc.n.CloseReplaced?))
  }

  predicate Flags(s: State) {
    && Count(s.threads, InFlight) == Bit(s.g.reconnecting)
    && Count(s.threads, Locked) == Bit(s.g.lock)
  }

  function SpawnBit(e: Effect): nat { match e.spawn case Some(n) => Bit(InFlight(n)) case None => 0 }

  /** A step trades the flag for a reconnect and the mutex for a critical section. */
  predicate Trades(g: Shared, th: Thread, e: Effect) {
    && Bit(InFlight(e.th)) + SpawnBit(e) + Bit(g.reconnecting) == Bit(InFlight(th)) + Bit(e.g.reconnecting)
    && Bit(Locked(e.th)) + Bit(g.lock) == Bit(Locked(th)) + Bit(e.g.lock)
    && (e.spawn.Some? ==> !Locked(e.spawn.value))
  }

  lemma EffectTrades(c: Config, g: Shared, th: Thread, choice: bool)
    requires (InFlight(th) ==> g.reconnecting) && (Locked(th) ==> g.lock) && (NeedsLock(th.pc) ==> !g.lock)
    ensures Trades(g, th, EffectOf(c, g, th, choice))
  {
    match th.pc
    case Report(r) => ReportTrades(c, g, th, r);
    case Loop(l) => LoopTrades(c, g, th, l, choice);
    case Close(p) => CloseTrades(g, th, p);
    case Connect(n) => ConnectTrades(g, th, n, choice);
    case Gone =>
  }

  lemma ReportTrades(c: Config, g: Shared, th: Thread, r: ReportPc)
    requires th.pc == Report(r) && (InFlight(th) ==> g.reconnecting)
    ensures Trades(g, th, ReportEffect(c, g, th, r))
  {
  }

  lemma CloseTrades(g: Shared, th: Thread, p: ClosePc)
    requires th.pc == Close(p) && (Locked(th) ==> g.lock) && (NeedsLock(th.pc) ==> !g.lock)
    ensures Trades(g, th, CloseEffect(g, th, p))
  {
  }

  lemma ConnectTrades(g: Shared, th: Thread, n: ConnectPc, choice: bool)
    requires th.pc == Connect(n) && (Locked(th) ==> g.lock) && (NeedsLock(th.pc) ==> !g.lock)
    ensures Trades(g, th, ConnectEffect(g, th, n, choice))
  {
  }

  lemma LoopTrades(c: Config, g: Shared, th: Thread, l: LoopPc, choice: bool)
    requires th.pc == Loop(l) && g.reconnecting && (Locked(th) ==> g.lock) && (NeedsLock(th.pc) ==> !g.lock)
    ensures Trades(g, th, LoopEffect(c, g, th, l, choice))
  {
  }

  lemma PerformFlags(s: State, i: nat, e: Effect)
    requires i < |s.threads| && Flags(s) && Trades(s.g, s.threads[i], e)
    ensures Flags(Perform(s, i, e))
  {
    var ts := s.threads[i := e.th];
    CountUpdate(s.threads, i, e.th, InFlight);
    CountUpdate(s.threads, i, e.th, Locked);
    if e.spawn.Some? {
      CountAppend(ts, e.spawn.value, InFlight);
      CountAppend(ts, e.spawn.value, Locked);
    } else {
      assert ts + [] == ts;
    }
  }

  lemma FlagsHeld(s: State, i: nat)
    requires i < |s.threads| && Flags(s)
    ensures InFlight(s.threads[i]) ==> s.g.reconnecting
    ensures Locked(s.threads[i]) ==> s.g.lock
  {
    CountZero(s.threads, InFlight);
    CountZero(s.threads, Locked);
  }

  lemma OnlyOne(s: State, i: nat, j: nat)
    requires Flags(s) && i < |s.threads| && j < |s.threads| && i != j
    ensures !(InFlight(s.threads[i]) && InFlight(s.threads[j]))
    ensures !(Locked(s.threads[i]) && Locked(s.threads[j]))
  {
    var a, b := if i < j then i else j, if i < j then j else i;
    if InFlight(s.threads[i]) && InFlight(s.threads[j]) { CountTwo(s.threads, a, b, InFlight); }
    if Locked(s.threads[i]) && Locked(s.threads[j]) { CountTwo(s.threads, a, b, Locked); }
  }

  // ------------------------------------------------------------ the loop's locals

  /** The loop's locals: the backoff is the one that follows the attempts made so far. */
  predicate LocalsOk(c: Config, th: Thread) {
    th.pc.Loop? ==>
      && (if th.pc.l == Top then th.backoff == Delay(c.backoffMin, c.backoffMax, th.attempts)
          else th.attempts > 0 && th.backoff == Delay(c.backoffMin, c.backoffMax, th.attempts - 1))
      && (c.maxAttempts > 0 ==>
            if th.pc.l == Top || th.pc.l == Backoff then th.attempts < c.maxAttempts
            else th.attempts <= c.maxAttempts)
      && (th.pc.l == GiveUp ==> c.maxAttempts > 0 && th.attempts == c.maxAttempts)
  }

  /** What holds in every run. */
  predicate Basic(c: Config, s: State) {
    Flags(s) && forall i :: 0 <= i < |s.threads| ==> LocalsOk(c, s.threads[i])
  }

  lemma EffectLocals(c: Config, g: Shared, th: Thread, choice: bool)
    requires LocalsOk(c, th)
    ensures var e := EffectOf(c, g, th, choice); LocalsOk(c, e.th) && (e.spawn.Some? ==> LocalsOk(c, e.spawn.value))
  {
    match th.pc
    case Report(r) => ReportLocals(c, g, th, r);
    case Loop(l) => LoopLocals(c, g, th, l, choice);
    case Close(p) => NotInLoop(g, th, choice);
    case Connect(n) => NotInLoop(g, th, choice);
    case Gone =>
  }

  lemma NotInLoop(g: Shared, th: Thread, choice: bool)
    ensures th.pc.Close? ==> var e := CloseEffect(g, th, th.pc.p); !e.th.pc.Loop? && e.spawn == None
    ensures th.pc.Connect? ==> var e := ConnectEffect(g, th, th.pc.n, choice); !e.th.pc.Loop? && e.spawn == None
  {
  }

  lemma ReportLocals(c: Config, g: Shared, th: Thread, r: ReportPc)
    requires th.pc == Report(r)
    ensures
      var e := ReportEffect(c, g, th, r);
      LocalsOk(c, e.th) && (e.spawn.Some? ==> LocalsOk(c, e.spawn.value))
  {
  }

  lemma LoopLocals(c: Config, g: Shared, th: Thread, l: LoopPc, choice: bool)
    requires th.pc == Loop(l) && LocalsOk(c, th)
    ensures LocalsOk(c, LoopEffect(c, g, th, l, choice).th) && LoopEffect(c, g, th, l, choice).spawn == None
  {
  }

  /** Every step keeps one loop, one lock holder, and the loop's locals. */
  lemma StepBasic(c: Config, s: State, e: Step)
    requires Basic(c, s) && Enabled(s, e)
    ensures Basic(c, Apply(c, s, e))
  {
    match e
    case Move(i, choice) =>
      FlagsHeld(s, i);
      EffectTrades(c, s.g, s.threads[i], choice);
      EffectLocals(c, s.g, s.threads[i], choice);
      PerformFlags(s, i, EffectOf(c, s.g, s.threads[i], choice));
    case CallConnect => CallBasic(c, s, Thread(Connect(CheckShutdown), 0, 0));
    case ReportError => CallBasic(c, s, Thread(Report(CheckFlags), 0, 0));
    case CallClose => CallBasic(c, s, Thread(Close(Swap), 0, 0));
  }

  predicate Calls(th: Thread) { th.pc == Connect(CheckShutdown) || th.pc == Report(CheckFlags) || th.pc == Close(Swap) }

  lemma CallBasic(c: Config, s: State, th: Thread)
    requires Basic(c, s) && Calls(th)
    ensures Basic(c, s.(threads := s.threads + [th]))
  {
    CountAppend(s.threads, th, InFlight);
    CountAppend(s.threads, th, Locked);
  }

  // ------------------------------------------------------------ runs

  ghost predicate Legal(c: Config, s: State, run: seq<Step>)
    decreases |run|
  {
    run != [] ==> Enabled(s, run[0]) && Legal(c, Apply(c, s, run[0]), run[1..])
  }

  ghost function Exec(c: Config, s: State, run: seq<Step>): State
    requires Legal(c, s, run)
    decreases |run|
  {
    if run == [] then s else Exec(c, Apply(c, s, run[0]), run[1..])
  }

  lemma InitBasic(c: Config, s: State)
    requires Init(s)
    ensures Basic(c, s)
  {
  }

  lemma {:induction false} ExecBasic(c: Config, s: State, run: seq<Step>)
    requires Basic(c, s) && Legal(c, s, run)
    ensures Basic(c, Exec(c, s, run))
    decreases |run|
  {
    if run == [] {
    } else {
      StepBasic(c, s, run[0]);
      ExecBasic(c, Apply(c, s, run[0]), run[1..]);
    }
  }

  /** At most one reconnect loop runs, in every run. */
  lemma OneLoop(c: Config, s0: State, run: seq<Step>, i: nat, j: nat)
    requires Init(s0) && Legal(c, s0, run)
    requires var ts := Exec(c, s0, run).threads; i < |ts| && j < |ts| && ts[i].pc.Loop? && ts[j].pc.Loop?
    ensures i == j
  {
    InitBasic(c, s0);
    ExecBasic(c, s0, run);
    if i != j { OnlyOne(Exec(c, s0, run), i, j); }
  }

  /** The wait after the n-th failed attempt of a loop is the (n-1)-th delay. */
  lemma WaitsFollowDelay(c: Config, s0: State, run: seq<Step>, i: nat)
    requires Init(s0) && Legal(c, s0, run)
    requires var ts := Exec(c, s0, run).threads; i < |ts| && ts[i].pc == Loop(Backoff)
    ensures
      var th := Exec(c, s0, run).threads[i];
      th.attempts > 0 && th.backoff == Delay(c.backoffMin, c.backoffMax, th.attempts - 1)
  {
    InitBasic(c, s0);
    ExecBasic(c, s0, run);
    assert LocalsOk(c, Exec(c, s0, run).threads[i]);
  }

  /** In every run, with both bounds below 2^62, a loop waits after its n-th failed attempt for
      Min * 2^(n-1), or for Max if that is less and n > 1. */
  lemma WaitsDouble(c: Config, s0: State, run: seq<Step>, i: nat)
    requires Init(s0) && Legal(c, s0, run) && 0 < c.backoffMin < Pow2(62) && 0 < c.backoffMax < Pow2(62)
    requires var ts := Exec(c, s0, run).threads; i < |ts| && ts[i].pc == Loop(Backoff)
    ensures
      var th := Exec(c, s0, run).threads[i];
      && th.attempts > 0
      && var doubled := c.backoffMin * Pow2(th.attempts - 1);
         th.backoff == if th.attempts == 1 || doubled < c.backoffMax then doubled else c.backoffMax
  {
    WaitsFollowDelay(c, s0, run, i);
    ExactAt(c.backoffMin, c.backoffMax, Exec(c, s0, run).threads[i].attempts);
  }

  lemma ExactAt(min: int, max: int, n: nat)
    requires 0 < min < Pow2(62) && 0 < max < Pow2(62) && n > 0
    ensures
      var doubled := min * Pow2(n - 1);
      Delay(min, max, n - 1) == if n == 1 || doubled < max then doubled else max
  {
    DelayExact(min, max, n - 1);
  }

  /** In every run a loop gives up after exactly the configured number of failed attempts, and
      never without a limit; before that it waits and tries again. */
  lemma GivesUpAtLimit(c: Config, s0: State, run: seq<Step>, i: nat)
    requires Init(s0) && Legal(c, s0, run)
    requires var ts := Exec(c, s0, run).threads; i < |ts| && ts[i].pc.Loop?
    ensures
      var th := Exec(c, s0, run).threads[i];
      && (th.pc == Loop(GiveUp) ==> c.maxAttempts > 0 && th.attempts == c.maxAttempts)
      && (th.pc == Loop(Backoff) ==> c.maxAttempts <= 0 || th.attempts < c.maxAttempts)
  {
    InitBasic(c, s0);
    ExecBasic(c, s0, run);
    assert LocalsOk(c, Exec(c, s0, run).threads[i]);
  }

  lemma {:induction false} Append(c: Config, s: State, a: seq<Step>, b: seq<Step>)
    requires Legal(c, s, a) && Legal(c, Exec(c, s, a), b)
    ensures Legal(c, s, a + b) && Exec(c, s, a + b) == Exec(c, Exec(c, s, a), b)
    decreases |a|
  {
    if a == [] {
      assert a + b == b;
    } else {
      assert (a + b)[1..] == a[1..] + b;
      Append(c, Apply(c, s, a[0]), a[1..], b);
    }
  }

  lemma Moved(c: Config, s: State, i: nat, choice: bool) returns (s': State)
    requires Enabled(s, Move(i, choice)) && !(s.threads[i].pc == Report(Launch))
    ensures s' == Apply(c, s, Move(i, choice)) && |s'.threads| == |s.threads|
    ensures s'.g == EffectOf(c, s.g, s.threads[i], choice).g
    ensures s'.threads == s.threads[i := EffectOf(c, s.g, s.threads[i], choice).th]
  {
    s' := Apply(c, s, Move(i, choice));
    NoSpawn(c, s.g, s.threads[i], choice);
  }

  lemma NoSpawn(c: Config, g: Shared, th: Thread, choice: bool)
    requires th.pc != Report(Launch)
    ensures EffectOf(c, g, th, choice).spawn == None
  {
  }

  lemma Unroll(c: Config, s: State, run: seq<Step>)
    requires run != [] && Enabled(s, run[0]) && Legal(c, Apply(c, s, run[0]), run[1..])
    ensures Legal(c, s, run) && Exec(c, s, run) == Exec(c, Apply(c, s, run[0]), run[1..])
  {
  }
}
