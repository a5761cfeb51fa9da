/** What happened to a task in a run, and what that makes of it: its status, its attempts, when
    it is due, and that it is never delivered earlier. */
module SchedulerHistory {
  import opened Prelude
  import opened Scheduler
  import opened SchedulerTheorems
  import opened Tasks

  import Backoff
  import Int64

  /** A failed delivery: when it failed, with what, and when the task was due after it. */
  datatype Failure = Failure(at: int, error: string, due: int)

  /** A task as it was scheduled or restored, its failed deliveries, whether one succeeded,
      whether it was cancelled first, and when the loop last found it due. */
  datatype Story = Story(first: Fields, failures: seq<Failure>, delivered: bool, cancelled: bool, found: Option<int>)

  function Begun(first: Fields): Story { Story(first, [], false, false, None) }

  /** One step of the run, as far as it concerns task i; s' is the state after it.  A delivery
      that ends after a cancellation, or fails during Stop, does not count. */
  function Next(s: State, e: Step, s': State, i: nat, h: Story): Story {
    match e
    case Schedule(_, deliverAt) => if |s.tasks| == i then Begun(Fields(0, deliverAt, "")) else h
    case Cancel(k) => if k == i then h.(cancelled := true) else h
    case Tick(k, now) => if k == i then h.(found := Some(now)) else h
    case Resolve(j, error, now) =>
      if j >= |s.jobs| || s.jobs[j].task != i || h.cancelled then h
      else if error == None then h.(delivered := true)
      else if s.stopping || i >= |s'.tasks| then h
      else h.(failures := h.failures + [Failure(now, error.value, s'.tasks[i].task.fields.deliverAt)])
    case _ => h
  }

  ghost function Tell(c: Config, s: State, run: seq<Step>, i: nat, h: Story): Story
    requires Legal(c, s, run)
    decreases |run|
  {
    if run == [] then h
    else
      var s' := Apply(c, s, run[0]);
      Tell(c, s', run[1..], i, Next(s, run[0], s', i, h))
  }

  /** The story of task i in a run from a started scheduler. */
  ghost function StoryOf(c: Config, s0: State, run: seq<Step>, i: nat): Story
    requires Legal(c, s0, run)
  {
    Tell(c, s0, run, i, Begun(if i < |s0.tasks| then s0.tasks[i].task.fields else Fields(0, 0, "")))
  }

  /** Enough failures for the task to have failed. */
  predicate Exhausted(c: Config, h: Story) {
    h.failures != [] && h.first.attempts + |h.failures| >= c.maxRetries
  }

  /** How many of the failures led to a retry. */
  function Retries(c: Config, h: Story): nat { if Exhausted(c, h) then |h.failures| - 1 else |h.failures| }

  /** When the task is due according to its story. */
  function Due(c: Config, h: Story): int {
    if Retries(c, h) == 0 then h.first.deliverAt else h.failures[Retries(c, h) - 1].due
  }

  /** Every failure that led to a retry put the task off by the backoff of that attempt. */
  predicate PutOff(c: Config, h: Story) {
    forall r :: 0 <= r < Retries(c, h) ==>
      h.failures[r].due == h.failures[r].at + Backoff.Wait(c.retryDelay, h.first.attempts + r + 1)
  }

  predicate Told(c: Config, k: Entry, h: Story) {
    && (k.task.status == Delivered <==> h.delivered)
    && (k.task.status == Cancelled <==> h.cancelled)
    && (k.task.status == Failed <==> Exhausted(c, h))
    && k.task.fields.attempts == h.first.attempts + |h.failures|
    && k.task.fields.lastError == (if h.failures == [] then h.first.lastError else h.failures[|h.failures| - 1].error)
    && k.task.fields.deliverAt == Due(c, h) && PutOff(c, h)
    && (k.delivering ==> h.found.Some? && Due(c, h) < h.found.value)
  }

  /** The end of a delivery attempt that counts. */
  lemma OutcomeTold(c: Config, k: Entry, h: Story, error: Option<string>, now: int, stopping: bool)
    requires Told(c, k, h) && k.delivering && (k.task.status == Pending || k.task.status == Cancelled)
    ensures
      var k' := Outcome(c, k, error, now, stopping).0;
      Told(c, k', if h.cancelled then h
                  else if error == None then h.(delivered := true)
                  else if stopping then h
                  else h.(failures := h.failures + [Failure(now, error.value, k'.task.fields.deliverAt)]))
  {
    if k.task.status == Pending && error == None {
      DeliveredTold(c, k, h);
    } else if k.task.status == Pending && !stopping {
      RetryTold(c, k, h, error.value, now);
    }
  }

  lemma DeliveredTold(c: Config, k: Entry, h: Story)
    requires Told(c, k, h) && k.task.status == Pending
    ensures Told(c, WithStatus(k.(delivering := false), Delivered), h.(delivered := true))
  {
  }

  lemma RetryTold(c: Config, k: Entry, h: Story, error: string, now: int)
    requires Told(c, k, h) && k.delivering && k.task.status == Pending
    ensures
      var k' := Outcome(c, k, Some(error), now, false).0;
      Told(c, k', h.(failures := h.failures + [Failure(now, error, k'.task.fields.deliverAt)]))
  {
    var k' := Outcome(c, k, Some(error), now, false).0;
    var f := Failure(now, error, k'.task.fields.deliverAt);
    MorePutOff(c, h, f);
    assert (h.failures + [f])[|h.failures|] == f;
  }

  lemma MorePutOff(c: Config, h: Story, f: Failure)
    requires PutOff(c, h) && Retries(c, h) == |h.failures|
    requires
      var n := h.first.attempts + |h.failures| + 1;
      n < c.maxRetries ==> f.due == f.at + Backoff.Wait(c.retryDelay, n)
    ensures PutOff(c, h.(failures := h.failures + [f]))
  {
    assert forall r :: 0 <= r < |h.failures| ==> (h.failures + [f])[r] == h.failures[r];
  }

  lemma ResolveTold(c: Config, s: State, e: Step, i: nat, h: Story)
    requires Inv(c, s) && Enabled(c, s, e) && e.Resolve? && i < |s.tasks| && Told(c, s.tasks[i], h)
    ensures var s' := Apply(c, s, e); i < |s'.tasks| && Told(c, s'.tasks[i], Next(s, e, s', i, h))
  {
    JobPair(c, s, e.job);
    if s.jobs[e.job].task == i { OutcomeTold(c, s.tasks[i], h, e.error, e.now, s.stopping); }
  }

  lemma SameTold(c: Config, k: Entry, k': Entry, h: Story)
    requires Told(c, k, h) && k'.task == k.task && k'.delivering == k.delivering
    ensures Told(c, k', h)
  {
  }

  lemma WorkKeeps(c: Config, s: State, j: nat, i: nat)
    requires Enabled(c, s, Work(j)) && i < |s.tasks|
    ensures i < |Apply(c, s, Work(j)).tasks|
    ensures
      var k' := Apply(c, s, Work(j)).tasks[i];
      k'.task == s.tasks[i].task && k'.delivering == s.tasks[i].delivering
  {
    var s' := WorkEffect(c, s, j);
  }

  lemma CancelledTold(c: Config, k: Entry, h: Story)
    requires Told(c, k, h) && k.task.status == Pending
    ensures Told(c, WithStatus(k, Cancelled), h.(cancelled := true))
  {
  }

  lemma CancelTold(c: Config, s: State, t: nat, i: nat, h: Story)
    requires Enabled(c, s, Cancel(t)) && i < |s.tasks| && Told(c, s.tasks[i], h)
    ensures Told(c, Apply(c, s, Cancel(t)).tasks[i], if t == i then h.(cancelled := true) else h)
  {
    if t == i { CancelledTold(c, s.tasks[i], h); }
  }

  lemma TickTold(c: Config, s: State, t: nat, now: int, i: nat, h: Story)
    requires Enabled(c, s, Tick(t, now)) && i < |s.tasks| && Told(c, s.tasks[i], h)
    ensures Told(c, Apply(c, s, Tick(t, now)).tasks[i], if t == i then h.(found := Some(now)) else h)
  {
  }

  lemma NewTold(c: Config, info: Info, at: int)
    ensures Told(c, NewEntry(info, at), Begun(Fields(0, at, "")))
  {
  }

  /** Every step keeps a task what its story makes of it. */
  lemma StepTold(c: Config, s: State, e: Step, i: nat, h: Story)
    requires Inv(c, s) && Enabled(c, s, e) && (i < |s.tasks| ==> Told(c, s.tasks[i], h))
    ensures var s' := Apply(c, s, e); i < |s'.tasks| ==> Told(c, s'.tasks[i], Next(s, e, s', i, h))
  {
    if e.Schedule? {
      NewTold(c, e.info, e.deliverAt);
    } else if i < |s.tasks| {
      match e
      case Cancel(t) => CancelTold(c, s, t, i, h);
      case Tick(t, now) => TickTold(c, s, t, now, i, h);
      case Resolve(_, _, _) => ResolveTold(c, s, e, i, h);
      case Work(j) =>
        WorkKeeps(c, s, j, i);
        SameTold(c, s.tasks[i], Apply(c, s, e).tasks[i], h);
      case _ =>
    } else {
      NoNewTask(c, s, e);
    }
  }

  lemma NoNewTask(c: Config, s: State, e: Step)
    requires Enabled(c, s, e) && !e.Schedule?
    ensures |Apply(c, s, e).tasks| == |s.tasks|
  {
  }

  lemma {:induction false} TellRun(c: Config, s: State, run: seq<Step>, i: nat, h: Story)
    requires Inv(c, s) && Legal(c, s, run) && (i < |s.tasks| ==> Told(c, s.tasks[i], h))
    ensures i < |Exec(c, s, run).tasks| ==> Told(c, Exec(c, s, run).tasks[i], Tell(c, s, run, i, h))
    decreases |run|
  {
    if run == [] {
    } else {
      var s' := Apply(c, s, run[0]);
      StepTold(c, s, run[0], i, h);
      StepInv(c, s, run[0]);
      TellRun(c, s', run[1..], i, Next(s, run[0], s', i, h));
    }
  }

  lemma StoryTold(c: Config, s0: State, run: seq<Step>, s: State, i: nat)
    requires Reached(c, s0, run, s) && i < |s.tasks|
    ensures Told(c, s.tasks[i], StoryOf(c, s0, run, i))
  {
    InitInv(c, s0);
    TellRun(c, s0, run, i, Begun(if i < |s0.tasks| then s0.tasks[i].task.fields else Fields(0, 0, "")));
  }

  // ------------------------------------------------------------ what every run shows

  /** In every run the status of a task is what happened to it: delivered if a delivery
      succeeded before a cancellation, cancelled if Cancel came first, failed if a delivery
      failed and the attempts reached the limit, and pending otherwise. */
  lemma StatusDecided(c: Config, s0: State, run: seq<Step>, s: State, i: nat)
    requires Reached(c, s0, run, s) && i < |s.tasks|
    ensures
      var h, st := StoryOf(c, s0, run, i), s.tasks[i].task.status;
      && (st == Delivered <==> h.delivered) && (st == Cancelled <==> h.cancelled)
      && (st == Failed <==> h.failures != [] && h.first.attempts + |h.failures| >= c.maxRetries)
  {
    StoryTold(c, s0, run, s, i);
  }

  /** In every run the attempts are the failures that count, and the last error is the last
      one's. */
  lemma FailuresCounted(c: Config, s0: State, run: seq<Step>, s: State, i: nat)
    requires Reached(c, s0, run, s) && i < |s.tasks|
    ensures
      var h, f := StoryOf(c, s0, run, i), s.tasks[i].task.fields;
      && f.attempts == h.first.attempts + |h.failures|
      && (h.failures != [] ==> f.lastError == h.failures[|h.failures| - 1].error)
  {
    StoryTold(c, s0, run, s, i);
  }

  /** A task that a run schedules starts without attempts. */
  lemma {:induction false} ScheduledFresh(c: Config, s: State, run: seq<Step>, i: nat, h: Story)
    requires Legal(c, s, run) && h.first.attempts == 0
    ensures Tell(c, s, run, i, h).first.attempts == 0
    decreases |run|
  {
    if run == [] {
    } else {
      var s' := Apply(c, s, run[0]);
      ScheduledFresh(c, s', run[1..], i, Next(s, run[0], s', i, h));
    }
  }

  /** In every run a pending task is due when it was scheduled for, or, after its n-th failure,
      RetryDelay * 2^(n-1) later than that failure, if that wait fits an int64. */
  lemma DueAfterBackoff(c: Config, s0: State, run: seq<Step>, s: State, i: nat)
    requires Reached(c, s0, run, s) && i < |s.tasks| && s.tasks[i].task.status == Pending
    ensures
      var h, f := StoryOf(c, s0, run, i), s.tasks[i].task.fields;
      && (h.failures == [] ==> f.deliverAt == h.first.deliverAt)
      && (h.failures != [] ==>
            && f.attempts > 0
            && var wait := c.retryDelay * Int64.Pow2(f.attempts - 1);
               0 < wait <= Int64.MAX64 ==> f.deliverAt == h.failures[|h.failures| - 1].at + wait)
  {
    StoryTold(c, s0, run, s, i);
    var h, f := StoryOf(c, s0, run, i), s.tasks[i].task.fields;
    if h.failures != [] { WaitFits(c.retryDelay, f.attempts); }
  }

  lemma WaitFits(delay: int, n: nat)
    requires n > 0
    ensures var wait := delay * Int64.Pow2(n - 1); 0 < wait <= Int64.MAX64 ==> Backoff.Wait(delay, n) == wait
  {
    if 0 < delay * Int64.Pow2(n - 1) <= Int64.MAX64 {
      DelayFits(delay, n - 1);
      Backoff.WaitExact(delay, n);
    }
  }

  lemma DelayFits(delay: int, n: nat)
    requires 0 < delay * Int64.Pow2(n) <= Int64.MAX64
    ensures 0 < delay <= Int64.MAX64
  {
    var p := Int64.Pow2(n);
    assert delay <= 0 ==> delay * p <= 0;
    assert delay > 0 ==> delay * p >= delay * 1;
  }

  /** In every run a delivery in flight was started by a tick later than the time at which the
      task was due, and the task is still due at that time. */
  lemma NeverEarly(c: Config, s0: State, run: seq<Step>, s: State, i: nat)
    requires Reached(c, s0, run, s) && i < |s.tasks| && InFlight(s, i) > 0
    ensures
      var h := StoryOf(c, s0, run, i);
      h.found.Some? && s.tasks[i].task.fields.deliverAt < h.found.value && s.tasks[i].task.fields.deliverAt == Due(c, h)
  {
    ReachedInv(c, s0, run, s);
    assert TaskOk(c, s, i);
    StoryTold(c, s0, run, s, i);
  }

  /** In every run the waiting loop takes up a task at a given time if and only if the task is
      pending, has no delivery in flight, and was due before. */
  lemma TakenWhenDue(c: Config, s0: State, run: seq<Step>, s: State, i: nat, now: int)
    requires Reached(c, s0, run, s) && i < |s.tasks| && s.loop == Waiting
    ensures
      Enabled(c, s, Tick(i, now)) <==>
      s.tasks[i].task.status == Pending && InFlight(s, i) == 0 && Due(c, StoryOf(c, s0, run, i)) < now
  {
    ReachedInv(c, s0, run, s);
    assert TaskOk(c, s, i);
    StoryTold(c, s0, run, s, i);
  }

  // ------------------------------------------------------------ all the waiting together

  /** By how much these failures put the task off in all. */
  function TotalDelay(fs: seq<Failure>): int {
    if fs == [] then 0
    else
      var f := fs[|fs| - 1];
      TotalDelay(fs[..|fs| - 1]) + (f.due - f.at)
  }

  lemma {:induction false} DelaysAdd(delay: int, fs: seq<Failure>)
    requires forall r :: 0 <= r < |fs| ==> fs[r].due == fs[r].at + Backoff.Wait(delay, r + 1)
    ensures TotalDelay(fs) == Backoff.TotalWait(delay, |fs|)
    decreases |fs|
  {
    if fs == [] {
    } else {
      DelaysAdd(delay, fs[..|fs| - 1]);
    }
  }

  /** In every run the failures of a task that it scheduled, except one that failed it for good,
      have put it off by the backoffs of its attempts. */
  lemma WaitedSoFar(c: Config, s0: State, run: seq<Step>, s: State, i: nat)
    requires Reached(c, s0, run, s) && c.restored <= i < |s.tasks|
    ensures
      var h := StoryOf(c, s0, run, i);
      TotalDelay(h.failures[..Retries(c, h)]) == Backoff.TotalWait(c.retryDelay, Retries(c, h))
  {
    StoryTold(c, s0, run, s, i);
    ScheduledFresh(c, s0, run, i, Begun(Fields(0, 0, "")));
    var h := StoryOf(c, s0, run, i);
    DelaysAdd(c.retryDelay, h.failures[..Retries(c, h)]);
  }

  /** A task that a run scheduled and that exhausted its retries was put off in all, between its
      first failure and its last attempt, by RetryDelay * (2^(MaxRetries-1) - 1), if its longest
      wait fits an int64. */
  lemma FailedHasWaited(c: Config, s0: State, run: seq<Step>, s: State, i: nat)
    requires Reached(c, s0, run, s) && c.restored <= i < |s.tasks| && s.tasks[i].task.status == Failed
    requires c.maxRetries > 0 && 0 < c.retryDelay <= Int64.MAX64
    requires c.maxRetries >= 2 ==> c.retryDelay * Int64.Pow2(c.maxRetries - 2) <= Int64.MAX64
    ensures
      var fs := StoryOf(c, s0, run, i).failures;
      |fs| == c.maxRetries && TotalDelay(fs[..c.maxRetries - 1]) == c.retryDelay * (Int64.Pow2(c.maxRetries - 1) - 1)
  {
    FailsExactlyAtLimit(c, s0, run, s, i);
    StatusDecided(c, s0, run, s, i);
    FailuresCounted(c, s0, run, s, i);
    ScheduledFresh(c, s0, run, i, Begun(Fields(0, 0, "")));
    WaitedSoFar(c, s0, run, s, i);
    if c.maxRetries >= 2 { Backoff.TotalBeforeFailure(c.retryDelay, c.maxRetries); }
  }

  // ------------------------------------------------------------ after a failed attempt

  lemma PersistSaves(c: Config, s: State, j: nat)
    requires c.persist && j < |s.jobs| && s.jobs[j].pc == Persist && s.jobs[j].task < |s.tasks|
    requires s.tasks[s.jobs[j].task].task.status == Pending
    ensures Enabled(c, s, Work(j)) && Enabled(c, Apply(c, s, Work(j)), Work(j))
    ensures
      var i, s2 := s.jobs[j].task, Apply(c, Apply(c, s, Work(j)), Work(j));
      && i < |s2.tasks| && j < |s2.jobs| && s2.jobs[j].pc == Done && s2.tasks[i].task == s.tasks[i].task
      && s2.tasks[i].disk == Some(s.tasks[i].task) && !s2.tasks[i].stale
  {
  }

  /** A failed attempt that leaves the task pending, be it put off or interrupted by a stop: its
      next two steps put the task, as it is then, on disk. */
  lemma FailureSaved(c: Config, s: State, j: nat, error: string, now: int)
    requires c.persist && Enabled(c, s, Resolve(j, Some(error), now))
    requires Apply(c, s, Resolve(j, Some(error), now)).tasks[s.jobs[j].task].task.status == Pending
    ensures
      var run := [Resolve(j, Some(error), now), Work(j), Work(j)];
      Legal(c, s, run) &&
      var i, s1, s' := s.jobs[j].task, Apply(c, s, run[0]), Exec(c, s, run);
      && i < |s'.tasks| && j < |s'.jobs| && s'.jobs[j].pc == Done
      && s'.tasks[i].task == s1.tasks[i].task && s'.tasks[i].disk == Some(s1.tasks[i].task) && !s'.tasks[i].stale
  {
    var run := [Resolve(j, Some(error), now), Work(j), Work(j)];
    var s1 := Apply(c, s, run[0]);
    PersistSaves(c, s1, j);
    var s2 := Apply(c, s1, Work(j));
    var s3 := Apply(c, s2, Work(j));
    assert run[1..] == [Work(j), Work(j)] && [Work(j), Work(j)][1..] == [Work(j)] && [Work(j)][1..] == [];
    assert Legal(c, s3, []) && Exec(c, s3, []) == s3;
    assert Legal(c, s2, [Work(j)]) && Exec(c, s2, [Work(j)]) == s3;
    assert Legal(c, s1, [Work(j), Work(j)]) && Exec(c, s1, [Work(j), Work(j)]) == s3;
  }
}
