/** What the scheduler guarantees in every interleaving of Schedule, Cancel, ticks,
    delivery results and Stop. */
module SchedulerTheorems {
  import opened Counting
  import opened Prelude
  import opened Scheduler
  import opened Tasks

  ghost predicate Legal(c: Config, s: State, run: seq<Step>)
    decreases |run|
  {
    run != [] ==> Enabled(c, s, run[0]) && Legal(c, Apply(c, s, run[0]), run[1..])
  }

  ghost function Exec(c: Config, s: State, run: seq<Step>): State
    requires Legal(c, s, run)
    decreases |run|
  {
    if run == [] then s else Exec(c, Apply(c, s, run[0]), run[1..])
  }

  lemma {:induction false} ExecInv(c: Config, s: State, run: seq<Step>)
    requires Inv(c, s) && Legal(c, s, run)
    ensures Inv(c, Exec(c, s, run))
    decreases |run|
  {
    if run == [] {
    } else {
      StepInv(c, s, run[0]);
      ExecInv(c, Apply(c, s, run[0]), run[1..]);
    }
  }

  /** s is reached from a freshly started scheduler by the given steps. */
  ghost predicate Reached(c: Config, s0: State, run: seq<Step>, s: State) {
    Init(c, s0) && Legal(c, s0, run) && Exec(c, s0, run) == s
  }

  lemma ReachedInv(c: Config, s0: State, run: seq<Step>, s: State)
    requires Reached(c, s0, run, s)
    ensures Inv(c, s)
  {
    InitInv(c, s0);
    ExecInv(c, s0, run);
  }

  /** A task has at most one delivery in flight: never two goroutines inside DeliverFunc
      for it, and none while the loop is about to launch one. */
  lemma OneDeliveryInFlight(c: Config, s0: State, run: seq<Step>, s: State, j: nat, l: nat)
    requires Reached(c, s0, run, s) && j < |s.jobs| && l < |s.jobs|
    requires s.jobs[j].pc == Calling && s.jobs[l].pc == Calling && s.jobs[j].task == s.jobs[l].task
    ensures j == l && s.loop != Launching(s.jobs[j].task)
  {
    ReachedInv(c, s0, run, s);
    var i := s.jobs[j].task;
    assert TaskOk(c, s, i);
    CountZero(s.jobs, CallsOn(i));
    assert CallsOn(i)(s.jobs[j]);
    if j < l { CountTwo(s.jobs, j, l, CallsOn(i)); }
    if l < j { CountTwo(s.jobs, l, j, CallsOn(i)); }
  }

  lemma StatusResolved(c: Config, s: State, j: nat, error: Option<string>, now: int, i: nat)
    requires Inv(c, s) && Enabled(c, s, Resolve(j, error, now)) && i < |s.tasks| && s.tasks[i].task.status != Pending
    ensures
      var s' := Apply(c, s, Resolve(j, error, now));
      i < |s'.tasks| && s'.tasks[i].task.status == s.tasks[i].task.status
  {
    JobPair(c, s, j);
  }

  lemma StatusStep(c: Config, s: State, e: Step, i: nat)
    requires Inv(c, s) && Enabled(c, s, e) && i < |s.tasks| && s.tasks[i].task.status != Pending
    ensures i < |Apply(c, s, e).tasks| && Apply(c, s, e).tasks[i].task.status == s.tasks[i].task.status
  {
    if e.Resolve? { StatusResolved(c, s, e.job, e.error, e.now, i); }
  }

  /** A terminal status is final: whatever happens later, including a delivery that was
      in flight when the task was cancelled. */
  lemma {:induction false} TerminalStatusFinal(c: Config, s: State, run: seq<Step>, i: nat)
    requires Inv(c, s) && Legal(c, s, run) && i < |s.tasks| && s.tasks[i].task.status != Pending
    ensures i < |Exec(c, s, run).tasks| && Exec(c, s, run).tasks[i].task.status == s.tasks[i].task.status
    decreases |run|
  {
    if run == [] {
    } else {
      StatusStep(c, s, run[0], i);
      StepInv(c, s, run[0]);
      TerminalStatusFinal(c, Apply(c, s, run[0]), run[1..], i);
    }
  }

  lemma {:induction false} Partition(tasks: seq<Entry>)
    ensures |tasks| == Count(tasks, IsPending) + Count(tasks, IsDelivered) + Count(tasks, IsFailed)
        + Count(tasks, IsCancelled)
  {
    if tasks == [] {
    } else {
      Partition(tasks[1..]);
    }
  }

  /** No counter, map or file update is outstanding.  Deliveries may be in flight. */
  predicate Quiet(s: State) {
    forall j :: 0 <= j < |s.jobs| ==> s.jobs[j].pc == Calling || s.jobs[j].pc == Done || s.jobs[j].pc == Finished
  }

  lemma QuietCounts(s: State)
    requires Quiet(s)
    ensures Count(s.jobs, AtScheduled) == 0 && Count(s.jobs, AtDelivered) == 0
    ensures Count(s.jobs, AtFailed) == 0 && Count(s.jobs, AtCancelled) == 0
    ensures forall i ::
      Count(s.jobs, UnlistsOn(i)) == 0 && Count(s.jobs, UnsavesOn(i)) == 0 && Count(s.jobs, SavesOn(i)) == 0
  {
    CountZero(s.jobs, AtScheduled);
    CountZero(s.jobs, AtDelivered);
    CountZero(s.jobs, AtFailed);
    CountZero(s.jobs, AtCancelled);
    forall i: nat
      ensures Count(s.jobs, UnlistsOn(i)) == 0 && Count(s.jobs, UnsavesOn(i)) == 0 && Count(s.jobs, SavesOn(i)) == 0
    {
      CountZero(s.jobs, UnlistsOn(i));
      CountZero(s.jobs, UnsavesOn(i));
      CountZero(s.jobs, SavesOn(i));
    }
  }

  /** At quiescence every task ever scheduled or restored is accounted for exactly once
      by the statistics that Info reports. */
  lemma Conservation(c: Config, s0: State, run: seq<Step>, s: State)
    requires Reached(c, s0, run, s) && Quiet(s)
    ensures s.scheduled + c.restored == s.delivered + s.failed + s.cancelled + Count(s.tasks, IsListedPending)
    ensures forall i :: 0 <= i < |s.tasks| ==> (s.tasks[i].inMap <==> s.tasks[i].task.status == Pending)
  {
    ReachedInv(c, s0, run, s);
    QuietCounts(s);
    Partition(s.tasks);
    forall i | 0 <= i < |s.tasks| ensures s.tasks[i].inMap <==> s.tasks[i].task.status == Pending {
      assert TaskOk(c, s, i);
    }
    CountSame(s.tasks, IsPending, IsListedPending);
  }

  /** Once Stop has returned no delivery is in flight and none can start: the loop is gone
      and every delivery goroutine has finished. */
  lemma NoDeliveryAfterStop(c: Config, s0: State, run: seq<Step>, s: State, j: nat)
    requires Reached(c, s0, run, s) && s.stopped && j < |s.jobs|
    ensures s.jobs[j].pc != Calling && s.loop == Exited
    ensures s.jobs[j].ticket ==> s.jobs[j].pc == Finished
  {
    ReachedInv(c, s0, run, s);
    CountZero(s.jobs, Ticket);
  }

  /** At quiescence the state file holds a task exactly as it is in memory, if it is pending,
      and not at all otherwise, if and only if the last write of it was of its current version. */
  lemma DiskAgrees(c: Config, s0: State, run: seq<Step>, s: State, i: nat)
    requires Reached(c, s0, run, s) && Quiet(s) && c.persist && i < |s.tasks|
    ensures s.tasks[i].disk == (if s.tasks[i].task.status == Pending then Some(s.tasks[i].task) else None) <==>
        !s.tasks[i].stale
  {
    ReachedInv(c, s0, run, s);
    QuietCounts(s);
    assert TaskOk(c, s, i);
  }

  lemma WorkEffect(c: Config, s: State, m: nat) returns (s': State)
    requires Enabled(c, s, Work(m))
    ensures s' == Apply(c, s, Work(m)) && |s'.jobs| == |s.jobs| && |s'.tasks| == |s.tasks|
    ensures forall l :: 0 <= l < |s.jobs| && l != m ==> s'.jobs[l] == s.jobs[l]
    ensures
      var t := s.jobs[m].task;
      (s'.tasks[t], s'.jobs[m].pc) == WorkOutcome(c, s.tasks[t], s.jobs[m].pc)
        && s'.jobs[m] == s.jobs[m].(pc := s'.jobs[m].pc)
  {
    s' := Apply(c, s, Work(m));
  }

  /** What Cancel does once it has marked the task: it counts itself, and takes the task out of
      the map and off the disk. */
  lemma CancelFinishes(c: Config, s: State, n: nat) returns (s': State)
    requires n < |s.jobs| && s.jobs[n].pc == OwesCancelled && s.jobs[n].task < |s.tasks|
    ensures
      var run, t := [Work(n), Work(n), Work(n)], s.jobs[n].task;
      && Legal(c, s, run) && s' == Exec(c, s, run) && |s'.jobs| == |s.jobs| && |s'.tasks| == |s.tasks|
      && (forall l :: 0 <= l < |s.jobs| && l != n ==> s'.jobs[l] == s.jobs[l])
      && s'.jobs[n] == s.jobs[n].(pc := Done) && s'.tasks[t].task == s.tasks[t].task
  {
    var s1 := WorkEffect(c, s, n);
    var s2 := WorkEffect(c, s1, n);
    s' := WorkEffect(c, s2, n);
    ThreeSteps(c, s, Work(n), s1, Work(n), s2, Work(n));
  }

  lemma ThreeSteps(c: Config, s: State, e: Step, s1: State, e1: Step, s2: State, e2: Step)
    requires Enabled(c, s, e) && s1 == Apply(c, s, e)
    requires Enabled(c, s1, e1) && s2 == Apply(c, s1, e1) && Enabled(c, s2, e2)
    ensures Legal(c, s, [e, e1, e2]) && Exec(c, s, [e, e1, e2]) == Apply(c, s2, e2)
  {
    Unroll(c, s2, [e2]);
    Unroll(c, s1, [e1, e2]);
    Unroll(c, s, [e, e1, e2]);
  }

  lemma FirstThen(c: Config, s: State, e: Step, s1: State, rest: seq<Step>)
    requires Enabled(c, s, e) && s1 == Apply(c, s, e) && Legal(c, s1, rest)
    ensures Legal(c, s, [e] + rest) && Exec(c, s, [e] + rest) == Exec(c, s1, rest)
  {
    assert ([e] + rest)[1..] == rest;
  }

  /** The state holds this task cancelled, with a stale pending version of it on disk. */
  predicate LeftBehind(s: State, t: nat, snapshot: Task) {
    t < |s.tasks| && s.tasks[t].task.status == Cancelled && s.tasks[t].disk == Some(snapshot) && s.tasks[t].stale
  }

  lemma LateWrite(c: Config, s: State, j: nat)
    requires j < |s.jobs| && s.jobs[j].pc.Saving? && s.jobs[j].task < |s.tasks|
    requires s.tasks[s.jobs[j].task].task.status == Cancelled && s.jobs[j].pc.snapshot.status == Pending
    ensures Legal(c, s, [Work(j)]) && LeftBehind(Exec(c, s, [Work(j)]), s.jobs[j].task, s.jobs[j].pc.snapshot)
    ensures Exec(c, s, [Work(j)]).jobs == s.jobs[j := s.jobs[j].(pc := Done)]
  {
    var s' := WorkEffect(c, s, j);
    Unroll(c, s, [Work(j)]);
  }

  /** Whenever a snapshot of a pending task waits to be written, Cancel can run to its end
      first, and then the write leaves the cancelled task on disk. */
  lemma CancelOvertakes(c: Config, s: State, j: nat) returns (run: seq<Step>)
    requires Inv(c, s) && j < |s.jobs| && s.jobs[j].pc.Saving? && s.tasks[s.jobs[j].task].task.status == Pending
    ensures
      var t, n := s.jobs[j].task, |s.jobs|;
      && run == [Cancel(t)] + ([Work(n), Work(n), Work(n)] + [Work(j)]) && Legal(c, s, run)
      && LeftBehind(Exec(c, s, run), t, s.jobs[j].pc.snapshot)
      && Exec(c, s, run).jobs == s.jobs[j := s.jobs[j].(pc := Done)] + [Job(t, Done, false)]
  {
    var t, n := s.jobs[j].task, |s.jobs|;
    var middle := [Work(n), Work(n), Work(n)];
    JobPair(c, s, j);
    var s1 := Apply(c, s, Cancel(t));
    var s2 := CancelFinishes(c, s1, n);
    LateWrite(c, s2, j);
    Append(c, s1, middle, [Work(j)]);
    run := [Cancel(t)] + (middle + [Work(j)]);
    FirstThen(c, s, Cancel(t), s1, middle + [Work(j)]);
  }

  const EXAMPLE := Config(0, 0, 3, 5, true)
  const EXAMPLE_INFO := Info(TaskIds.Issued(0, 1), "target", "payload", "project", 0)

  /** Schedule, up to its snapshot. */
  lemma SnapshotTaken(s: State) returns (s': State)
    requires s == State([], [], Waiting, 1, false, false, 0, 0, 0, 0)
    ensures
      var run := [Schedule(EXAMPLE_INFO, 7), Work(0), Work(0)];
      && Legal(EXAMPLE, s, run) && s' == Exec(EXAMPLE, s, run) && |s'.tasks| == |s'.jobs| == 1
      && s'.jobs[0] == Job(0, Saving(s'.tasks[0].task), false) && s'.tasks[0] == NewEntry(EXAMPLE_INFO, 7)
  {
    var s1 := Apply(EXAMPLE, s, Schedule(EXAMPLE_INFO, 7));
    var s2 := Apply(EXAMPLE, s1, Work(0));
    s' := Apply(EXAMPLE, s2, Work(0));
    ThreeSteps(EXAMPLE, s, Schedule(EXAMPLE_INFO, 7), s1, Work(0), s2, Work(0));
  }

  /** One such run: Cancel between Schedule's snapshot and its write.  The cancelled task stays
      on disk for the next start to restore. */
  lemma StaleSnapshot() returns (s0: State, run: seq<Step>, s: State)
    ensures Reached(EXAMPLE, s0, run, s) && EXAMPLE.persist
    ensures Quiet(s) && LeftBehind(s, 0, NewEntry(EXAMPLE_INFO, 7).task)
  {
    s0 := State([], [], Waiting, 1, false, false, 0, 0, 0, 0);
    var first := [Schedule(EXAMPLE_INFO, 7), Work(0), Work(0)];
    var s' := SnapshotTaken(s0);
    ReachedInv(EXAMPLE, s0, first, s');
    var last := CancelOvertakes(EXAMPLE, s', 0);
    Append(EXAMPLE, s0, first, last);
    run := first + last;
    s := Exec(EXAMPLE, s0, run);
  }

  lemma {:induction false} Append(c: Config, s: State, a: seq<Step>, b: seq<Step>)
    requires Legal(c, s, a) && Legal(c, Exec(c, s, a), b)
    ensures Legal(c, s, a + b) && Exec(c, s, a + b) == Exec(c, Exec(c, s, a), b)
    decreases |a|
  {
    if a == [] {
      assert a + b == b;
    } else {
      var s' := First(c, s, a);
      Append(c, s', a[1..], b);
      Extended(c, s, a, s', b);
    }
  }

  lemma First(c: Config, s: State, a: seq<Step>) returns (s': State)
    requires a != [] && Legal(c, s, a)
    ensures s' == Apply(c, s, a[0]) && Legal(c, s', a[1..]) && Exec(c, s, a) == Exec(c, s', a[1..])
  {
    s' := Apply(c, s, a[0]);
  }

  lemma Extended(c: Config, s: State, a: seq<Step>, s': State, b: seq<Step>)
    requires a != [] && Legal(c, s, a) && s' == Apply(c, s, a[0]) && Legal(c, s', a[1..] + b)
    ensures Legal(c, s, a + b) && Exec(c, s, a + b) == Exec(c, s', a[1..] + b)
  {
    assert (a + b)[0] == a[0] && (a + b)[1..] == a[1..] + b;
  }

  lemma Unroll(c: Config, s: State, run: seq<Step>)
    requires run != [] && Enabled(c, s, run[0]) && Legal(c, Apply(c, s, run[0]), run[1..])
    ensures Legal(c, s, run) && Exec(c, s, run) == Exec(c, Apply(c, s, run[0]), run[1..])
  {
  }

  /** A task scheduled in this run has failed exactly when its counted attempts have
      reached the retry limit, and never counts more. */
  lemma FailsExactlyAtLimit(c: Config, s0: State, run: seq<Step>, s: State, i: nat)
    requires Reached(c, s0, run, s) && c.maxRetries > 0 && c.restored <= i < |s.tasks|
    ensures s.tasks[i].task.fields.attempts <= c.maxRetries
    ensures s.tasks[i].task.status == Failed <==> s.tasks[i].task.fields.attempts == c.maxRetries
  {
    ReachedInv(c, s0, run, s);
    assert TaskOk(c, s, i);
  }
}
