/** What the start/stop/shutdown protocol guarantees in every interleaving: statements
    about every run of Lifecycle, from an initial manager. */
module LifecycleTheorems {
  import opened Prelude
  import opened Counting
  import opened Lifecycle

  /** s is reached from an initial manager by the given steps. */
  ghost predicate Reached(c: Config, s0: State, run: seq<Step>, s: State) {
    Init(c, s0) && Legal(c, s0, run) && Exec(c, s0, run) == s
  }

  lemma ReachedInv(c: Config, s0: State, run: seq<Step>, s: State)
    requires Reached(c, s0, run, s)
    ensures Inv(c, s)
  {
    InitInv(c, s0);
    ExecInv(c, s0, run);
  }

  // ------------------------------------------------------------ shutdown

  lemma FlagStep(c: Config, s: State, e: Step)
    requires Inv(c, s) && s.flag && Enabled(c, s, e)
    ensures
      var s' := Apply(c, s, e);
      && s'.flag && s'.wg <= s.wg && |s'.procs| == |s.procs|
      && forall p :: 0 <= p < |s.procs| ==> s'.procs[p].spawned == s.procs[p].spawned
  {
    if e.Advance? {
      assert ThreadOk(c, s, e.t);
      AdvanceSound(c, s, e.t, e.ok);
      AdvanceCounted(c, s, e.t, e.ok);
    }
  }

  /** Once the flag is set no later step of any thread spawns an OS process or takes a
      WaitGroup ticket. */
  lemma {:induction false} NothingStartsAfterFlag(c: Config, s: State, run: seq<Step>)
    requires Inv(c, s) && s.flag && Legal(c, s, run)
    ensures
      var s' := Exec(c, s, run);
      && s'.flag && s'.wg <= s.wg && |s'.procs| == |s.procs|
      && forall p :: 0 <= p < |s.procs| ==> s'.procs[p].spawned == s.procs[p].spawned
    decreases |run|
  {
    if run == [] {
    } else {
      FlagStep(c, s, run[0]);
      StepInv(c, s, run[0]);
      NothingStartsAfterFlag(c, Apply(c, s, run[0]), run[1..]);
    }
  }

  /** While Shutdown scans (and ever after) no spawned process is still Starting, so the
      scan sees every spawned process either published or finished. */
  lemma NoSpawnedStarting(c: Config, s0: State, run: seq<Step>, s: State, p: nat)
    requires Reached(c, s0, run, s) && s.flag && p < |s.procs| && s.procs[p].spawned
    ensures s.procs[p].st != Starting && s.procs[p].st != Pending
  {
    ReachedInv(c, s0, run, s);
    assert ProcOk(c, s, p);
    assert ThreadOk(c, s, s.procs[p].owner.value);
  }

  /** Once the scan is over every registered process that still runs has its stopper. */
  lemma ScanMissesNothing(c: Config, s0: State, run: seq<Step>, s: State, k: nat)
    requires Reached(c, s0, run, s) && (s.shut == SWait || s.shut == SComplete || s.shut == SExpired)
    requires k in s.registry && s.registry[k] < |s.procs| && s.procs[s.registry[k]].st == Running
    ensures s.procs[s.registry[k]].stopRequested
  {
    ReachedInv(c, s0, run, s);
  }

  /** The WaitGroup counter is the number of threads that hold a ticket, plus the health
      check's; so a ticket is released exactly once and the counter is never negative. */
  lemma TicketsBalance(c: Config, s0: State, run: seq<Step>, s: State)
    requires Reached(c, s0, run, s)
    ensures s.wg == Count(s.pc, HoldsTicket) + Bit(s.health) && s.wg >= 0
  {
    ReachedInv(c, s0, run, s);
  }

  /** When the group wait completes, every Start that returned nil has run to its end:
      its process is terminal and its done channel has been closed exactly once. */
  lemma GroupWaitMeansDone(c: Config, s0: State, run: seq<Step>, s: State, t: nat)
    requires Reached(c, s0, run, s) && s.shut == SComplete && t < |s.pc| && Succeeded(s.pc[t])
    ensures s.pc[t] == WReturned && s.procs[c.target[t]].closes == 1 && Terminal(s.procs[c.target[t]].st)
  {
    ReachedInv(c, s0, run, s);
    CountZero(s.pc, HoldsTicket);
    SucceededOwns(c, s, t);
    NoTicketLeft(s.pc[t]);
    assert ProcOk(c, s, c.target[t]);
  }

  lemma NoTicketLeft(pc: Pc)
    requires Succeeded(pc) && !HoldsTicket(pc)
    ensures pc == WReturned
  {
  }

  // ------------------------------------------------------------ process states

  lemma ProcessStep(c: Config, s: State, e: Step, p: nat)
    requires Inv(c, s) && Enabled(c, s, e) && p < |s.procs|
    ensures |Apply(c, s, e).procs| == |s.procs| && Edge(s.procs[p].st, Apply(c, s, e).procs[p].st)
  {
    match e
    case Advance(t, ok) => AdvanceSound(c, s, t, ok);
    case ForceCas(r) => ForceOnlyRunning(c, s, r);
    case HealthRunning(r) => HealthNeverFires(c, s, r);
    case HealthStarting(r) => HealthNeverFires(c, s, r);
    case HealthStopping(r) => HealthNeverFires(c, s, r);
    case _ =>
  }

  /** The states a process passes through, one per step of the run. */
  ghost function Trace(c: Config, s: State, run: seq<Step>, p: nat): (states: seq<ProcState>)
    requires Shaped(c, s) && Legal(c, s, run) && p < |s.procs|
    ensures |states| == |run| + 1 && states[0] == s.procs[p].st
    decreases |run|
  {
    [s.procs[p].st] + if run == [] then [] else Trace(c, Apply(c, s, run[0]), run[1..], p)
  }

  /** Every process follows the edges of the life cycle throughout every run. */
  lemma {:induction false} OnlyEdges(c: Config, s: State, run: seq<Step>, p: nat, i: nat)
    requires Inv(c, s) && Legal(c, s, run) && p < |s.procs| && i < |run|
    ensures Edge(Trace(c, s, run, p)[i], Trace(c, s, run, p)[i + 1])
    decreases |run|
  {
    ProcessStep(c, s, run[0], p);
    StepInv(c, s, run[0]);
    if i == 0 {
    } else {
      OnlyEdges(c, Apply(c, s, run[0]), run[1..], p, i - 1);
    }
  }

  /** A terminal state is never left. */
  lemma {:induction false} TerminalAbsorbing(c: Config, s: State, run: seq<Step>, p: nat)
    requires Inv(c, s) && Legal(c, s, run) && p < |s.procs| && Terminal(s.procs[p].st)
    ensures |Exec(c, s, run).procs| == |s.procs| && Exec(c, s, run).procs[p].st == s.procs[p].st
    decreases |run|
  {
    if run == [] {
    } else {
      ProcessStep(c, s, run[0], p);
      StepInv(c, s, run[0]);
      TerminalAbsorbing(c, Apply(c, s, run[0]), run[1..], p);
    }
  }

  /** The done channel is closed at most once, and only on a terminal process. */
  lemma DoneClosedOnce(c: Config, s0: State, run: seq<Step>, s: State, p: nat)
    requires Reached(c, s0, run, s) && p < |s.procs|
    ensures s.procs[p].closes <= 1 && (s.procs[p].closes == 1 ==> Terminal(s.procs[p].st))
  {
    ReachedInv(c, s0, run, s);
    assert ProcOk(c, s, p);
    if s.procs[p].owner.Some? { ClosedOnce(s.pc[s.procs[p].owner.value], s.procs[p]); }
  }

  lemma ClosedOnce(pc: Pc, q: Proc)
    requires OwnerView(pc, q)
    ensures q.closes <= 1 && (q.closes == 1 ==> Terminal(q.st))
  {
  }

  lemma SucceededOwns(c: Config, s: State, t: nat)
    requires Inv(c, s) && t < |s.pc| && Succeeded(s.pc[t])
    ensures s.procs[c.target[t]].owner == Some(t) && s.procs[c.target[t]].spawned
  {
    assert ThreadOk(c, s, t) && ProcOk(c, s, c.target[t]);
  }

  /** However many Starts are called on one process, at most one of them succeeds, and
      it is the one that spawned it. */
  lemma OneStartPerProcess(c: Config, s0: State, run: seq<Step>, s: State, t: nat, u: nat)
    requires Reached(c, s0, run, s) && t < |s.pc| && u < |s.pc| && c.target[t] == c.target[u]
    requires Succeeded(s.pc[t]) && Succeeded(s.pc[u])
    ensures t == u && s.procs[c.target[t]].spawned
  {
    ReachedInv(c, s0, run, s);
    SucceededOwns(c, s, t);
    SucceededOwns(c, s, u);
  }

  /** A Start that returned an error after winning its process leaves it Failed with its
      channel closed; any other error return leaves no process of its own behind. */
  lemma ErrorReturn(c: Config, s0: State, run: seq<Step>, s: State, t: nat)
    requires Reached(c, s0, run, s) && t < |s.pc| && s.pc[t] == Returned
    ensures
      var q := s.procs[c.target[t]];
      q.owner == Some(t) ==> q.st == Failed && q.closes == 1 && !q.spawned
  {
    ReachedInv(c, s0, run, s);
    assert ProcOk(c, s, c.target[t]);
  }

  // ------------------------------------------------------------ counters

  /** No counter update is outstanding. */
  predicate Quiet(s: State) {
    && s.pendingRemovals == 0
    && forall t :: 0 <= t < |s.pc| ==> !OwesFailure(s.pc[t]) && !OwesRegistration(s.pc[t]) && !OwesRemoval(s.pc[t])
  }

  /** At quiescence the failure counter is the number of failed processes and the active
      counter is the size of the registry. */
  lemma CountersAtRest(c: Config, s0: State, run: seq<Step>, s: State)
    requires Reached(c, s0, run, s) && Quiet(s)
    ensures s.totalFailed == Count(s.procs, IsFailed)
    ensures s.active == |s.registry|
  {
    ReachedInv(c, s0, run, s);
    CountZero(s.pc, OwesFailure);
    CountZero(s.pc, OwesRegistration);
    CountZero(s.pc, OwesRemoval);
  }
}
