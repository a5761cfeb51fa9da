/** The task scheduler as an interleaving of atomic steps: callers of Schedule and
    Cancel, the tick loop, the delivery goroutines it launches, and Stop.

    A task is identified by its position in tasks; the first c.restored of them were
    loaded by Start, the others are appended by Schedule.  Every call of Schedule and
    Cancel, and every delivery goroutine, that still has something to do is a job.  One
    step is one critical section of the task's lock, one counter update, one map
    operation, or one file operation; persistTask takes its snapshot and writes it in two
    steps, as the source does. */
module Scheduler {
  import opened Counting
  import opened Prelude
  import opened Tasks

  import Backoff
  import TaskIds

  /** inMap: present in the scheduler's task map.  disk: its copy in the state file.  stale is a
      history variable: the copy on disk was written when it no longer was the pending task. */
  datatype Entry = Entry(task: Task, delivering: bool, inMap: bool, disk: Option<Task>, stale: bool)

  datatype JobPc =
    | OwesScheduled                                    // Schedule: stored, not yet counted
    | Calling                                          // delivery: inside DeliverFunc
    | OwesDelivered | OwesFailed | OwesCancelled       // terminal, not yet counted
    | Persist | Saving(snapshot: Task)                 // persistTask: before and after its snapshot
    | MapDelete | DiskRemove                           // removeTaskFromStorage
    | Done                                             // about to release its ticket
    | Finished

  /** ticket: a delivery goroutine, counted by the WaitGroup until it finishes. */
  datatype Job = Job(task: nat, pc: JobPc, ticket: bool)

  datatype Loop = Waiting | Launching(task: nat) | Exited

  /** base: the ID counter after loading. */
  datatype Config = Config(restored: nat, base: int, maxRetries: int, retryDelay: int, persist: bool)

  datatype State = State(
    tasks: seq<Entry>, jobs: seq<Job>, loop: Loop, wg: int, stopping: bool, stopped: bool,
    scheduled: int, delivered: int, failed: int, cancelled: int)

  datatype Step =
    | Schedule(info: Info, deliverAt: int)
    | Cancel(task: nat)
    | Tick(task: nat, now: int)                        // the loop finds a due task and marks it
    | Launch                                           // wg.Add(1); go deliverTask
    | LoopExit
    | Resolve(job: nat, error: Option<string>, now: int)
    | Work(job: nat)
    | StopCancel | StopReturn

  // ---------------------------------------------------------------- steps

  /** The ID that the next call of Schedule takes from the counter. */
  function NewId(c: Config, s: State): string {
    TaskIds.Issued(c.base, if |s.tasks| < c.restored then 0 else |s.tasks| - c.restored + 1)
  }

  predicate Enabled(c: Config, s: State, e: Step) {
    match e
    case Schedule(info, _) => info.id == NewId(c, s) && (c.persist ==> info.project != "")
    case Cancel(i) => i < |s.tasks| && s.tasks[i].task.status == Pending
    case Tick(i, now) =>
      && s.loop == Waiting && i < |s.tasks| && s.tasks[i].inMap
      && s.tasks[i].task.status == Pending && !s.tasks[i].delivering && s.tasks[i].task.fields.deliverAt < now
    case Launch => s.loop.Launching?
    case LoopExit => s.loop == Waiting && s.stopping
    case Resolve(j, _, _) => j < |s.jobs| && s.jobs[j].pc == Calling && s.jobs[j].task < |s.tasks|
    case Work(j) =>
      j < |s.jobs| && s.jobs[j].pc != Calling && s.jobs[j].pc != Finished && s.jobs[j].task < |s.tasks|
    case StopCancel => !s.stopping
    case StopReturn => s.stopping && s.wg == 0
  }

  function WithStatus(k: Entry, status: Status): Entry { k.(task := k.task.(status := status)) }

  /** The critical section that ends a delivery attempt: the task afterwards, and what
      the delivery goroutine does next. */
  function Outcome(c: Config, k: Entry, error: Option<string>, now: int, stopping: bool): (Entry, JobPc) {
    var k := k.(delivering := false);
    if k.task.status == Cancelled then (k, Done)
    else if error.Some? && stopping then (k, Persist)
    else if error.Some? then
      var attempts := k.task.fields.attempts + 1;
      var f := k.task.fields.(attempts := attempts, lastError := error.value);
      if attempts >= c.maxRetries then (k.(task := k.task.(fields := f, status := Failed)), OwesFailed)
      else
        var wait := Backoff.Wait(c.retryDelay, attempts);
        (k.(task := k.task.(fields := f.(deliverAt := now + wait))), Persist)
    else (WithStatus(k, Delivered), OwesDelivered)
  }

  function SetJob(s: State, j: nat, pc: JobPc): State
    requires j < |s.jobs|
  {
    s.(jobs := s.jobs[j := s.jobs[j].(pc := pc)])
  }

  function SetTask(s: State, i: nat, k: Entry): State
    requires i < |s.tasks|
  {
    s.(tasks := s.tasks[i := k])
  }

  /** The next step of a job that is not inside DeliverFunc: the task afterwards, and the
      job's next program point. */
  function WorkOutcome(c: Config, k: Entry, pc: JobPc): (Entry, JobPc) {
    match pc
    case OwesScheduled => (k, Persist)
    case OwesDelivered | OwesFailed | OwesCancelled => (k, MapDelete)
    case Persist => (k, if c.persist && k.task.status == Pending then Saving(k.task) else Done)
    case Saving(t) => (k.(disk := Some(t), stale := t != k.task), Done)
    case MapDelete => (k.(inMap := false), DiskRemove)
    case DiskRemove => (if c.persist then k.(disk := None, stale := false) else k, Done)
    case Done => (k, Finished)
    case Calling | Finished => (k, pc)
  }

  function WorkStep(c: Config, s: State, j: nat): State
    requires Enabled(c, s, Work(j))
  {
    var i := s.jobs[j].task;
    var pc := s.jobs[j].pc;
    var (k, pc') := WorkOutcome(c, s.tasks[i], pc);
    SetTask(SetJob(s, j, pc'), i, k).(
      scheduled := s.scheduled + Bit(pc == OwesScheduled),
      delivered := s.delivered + Bit(pc == OwesDelivered),
      failed := s.failed + Bit(pc == OwesFailed),
      cancelled := s.cancelled + Bit(pc == OwesCancelled),
      wg := s.wg - Bit(pc == Done && s.jobs[j].ticket))
  }

  function NewEntry(info: Info, deliverAt: int): Entry {
    Entry(Task(info, Pending, Fields(0, deliverAt, "")), false, true, None, false)
  }

  function Apply(c: Config, s: State, e: Step): State
    requires Enabled(c, s, e)
  {
    match e
    case Schedule(info, at) =>
      s.(tasks := s.tasks + [NewEntry(info, at)], jobs := s.jobs + [Job(|s.tasks|, OwesScheduled, false)])
    case Cancel(i) =>
      SetTask(s, i, WithStatus(s.tasks[i], Cancelled)).(jobs := s.jobs + [Job(i, OwesCancelled, false)])
    case Tick(i, _) => SetTask(s, i, s.tasks[i].(delivering := true)).(loop := Launching(i))
    case Launch => s.(loop := Waiting, wg := s.wg + 1, jobs := s.jobs + [Job(s.loop.task, Calling, true)])
    case LoopExit => s.(loop := Exited, wg := s.wg - 1)
    case Resolve(j, error, now) =>
      var i := s.jobs[j].task;
      var (k, pc) := Outcome(c, s.tasks[i], error, now, s.stopping);
      SetTask(SetJob(s, j, pc), i, k)
    case Work(j) => WorkStep(c, s, j)
    case StopCancel => s.(stopping := true)
    case StopReturn => s.(stopped := true)
  }

  /** Start has loaded the pending tasks of the state files and launched the loop. */
  predicate Init(c: Config, s: State) {
    && |s.tasks| == c.restored
    && (forall i :: 0 <= i < |s.tasks| ==>
          && s.tasks[i].task.status == Pending && !s.tasks[i].delivering && s.tasks[i].inMap && !s.tasks[i].stale
          && s.tasks[i].disk == if c.persist then Some(s.tasks[i].task) else None)
    && s.jobs == [] && s.loop == Waiting && s.wg == 1 && !s.stopping && !s.stopped
    && s.scheduled == 0 && s.delivered == 0 && s.failed == 0 && s.cancelled == 0
  }

  // ---------------------------------------------------------------- counts

  predicate IsPending(k: Entry) { k.task.status == Pending }
  predicate IsDelivered(k: Entry) { k.task.status == Delivered }
  predicate IsFailed(k: Entry) { k.task.status == Failed }
  predicate IsCancelled(k: Entry) { k.task.status == Cancelled }
  predicate IsListedPending(k: Entry) { k.inMap && k.task.status == Pending }

  predicate AtScheduled(j: Job) { j.pc == OwesScheduled }
  predicate AtDelivered(j: Job) { j.pc == OwesDelivered }
  predicate AtFailed(j: Job) { j.pc == OwesFailed }
  predicate AtCancelled(j: Job) { j.pc == OwesCancelled }
  predicate Ticket(j: Job) { j.ticket && j.pc != Finished }

  /** Still going to take its task out of the map, respectively off the disk. */
  predicate WillUnlist(pc: JobPc) { pc == OwesDelivered || pc == OwesFailed || pc == OwesCancelled || pc == MapDelete }
  predicate WillUnsave(pc: JobPc) { WillUnlist(pc) || pc == DiskRemove }
  predicate WillSave(pc: JobPc) { pc == OwesScheduled || pc == Persist || pc.Saving? }

  function CallsOn(i: nat): Job -> bool { (j: Job) => j.task == i && j.pc == Calling }
  function UnlistsOn(i: nat): Job -> bool { (j: Job) => j.task == i && WillUnlist(j.pc) }
  function UnsavesOn(i: nat): Job -> bool { (j: Job) => j.task == i && WillUnsave(j.pc) }
  function SavesOn(i: nat): Job -> bool { (j: Job) => j.task == i && WillSave(j.pc) }

  function InFlight(s: State, i: nat): nat {
    Count(s.jobs, CallsOn(i)) + Bit(s.loop == Launching(i))
  }

  // ---------------------------------------------------------------- the invariant

  /** An earlier version of the pending task, or the task itself. */
  predicate NotAfter(old_: Task, k: Task) {
    && old_.info == k.info && old_.status == Pending
    && (old_.fields == k.fields || old_.fields.attempts < k.fields.attempts)
  }

  /** The part of the invariant that concerns the entry of task i alone. */
  predicate EntryOk(c: Config, i: nat, k: Entry) {
    && (k.delivering ==> k.task.status == Pending || k.task.status == Cancelled)
    && (k.task.status == Pending ==> k.inMap)
    && (k.disk.Some? ==> c.persist && NotAfter(k.disk.value, k.task))
    && (k.stale ==> k.disk.Some? && k.disk.value != k.task)
    && (i >= c.restored && c.maxRetries > 0 ==>
          k.task.fields.attempts <= c.maxRetries
            && (k.task.status == Failed <==> k.task.fields.attempts == c.maxRetries))
  }

  /** What the jobs of task i still owe it. */
  predicate OwedOk(c: Config, k: Entry, unlists: nat, unsaves: nat, saves: nat) {
    && (k.task.status != Pending && k.inMap ==> unlists > 0)
    && (!k.stale && k.task.status != Pending && k.disk.Some? ==> unsaves > 0)
    && (!k.stale && c.persist && k.task.status == Pending && k.disk != Some(k.task) ==> saves > 0)
  }

  predicate TaskOk(c: Config, s: State, i: nat)
    requires i < |s.tasks|
  {
    var k := s.tasks[i];
    && InFlight(s, i) == Bit(k.delivering)
    && EntryOk(c, i, k)
    && OwedOk(c, k, Count(s.jobs, UnlistsOn(i)), Count(s.jobs, UnsavesOn(i)), Count(s.jobs, SavesOn(i)))
  }

  predicate SnapshotOk(c: Config, k: Entry, pc: JobPc) {
    pc.Saving? ==> c.persist && NotAfter(pc.snapshot, k.task)
  }

  predicate JobsOk(c: Config, s: State) {
    && (forall j :: 0 <= j < |s.jobs| ==>
          && s.jobs[j].task < |s.tasks|
          && (s.jobs[j].pc == Calling ==> s.jobs[j].ticket)
          && (WillUnsave(s.jobs[j].pc) ==> s.tasks[s.jobs[j].task].task.status != Pending)
          && SnapshotOk(c, s.tasks[s.jobs[j].task], s.jobs[j].pc))
    && (s.loop.Launching? ==> s.loop.task < |s.tasks|)
  }

  predicate Counters(c: Config, s: State) {
    && s.wg == Count(s.jobs, Ticket) + Bit(s.loop != Exited)
    && |s.tasks| == c.restored + s.scheduled + Count(s.jobs, AtScheduled)
    && Count(s.tasks, IsDelivered) == s.delivered + Count(s.jobs, AtDelivered)
    && Count(s.tasks, IsFailed) == s.failed + Count(s.jobs, AtFailed)
    && Count(s.tasks, IsCancelled) == s.cancelled + Count(s.jobs, AtCancelled)
  }

  predicate Inv(c: Config, s: State) {
    && (forall i :: 0 <= i < |s.tasks| ==> TaskOk(c, s, i))
    && JobsOk(c, s)
    && Counters(c, s)
    && (s.stopped ==> s.stopping && s.wg == 0)
    && c.restored <= |s.tasks|
  }

  // ---------------------------------------------------------------- preservation

  lemma InitInv(c: Config, s: State)
    requires Init(c, s)
    ensures Inv(c, s)
  {
    CountZero(s.tasks, IsDelivered);
    CountZero(s.tasks, IsFailed);
    CountZero(s.tasks, IsCancelled);
  }

  lemma JobMove(jobs: seq<Job>, j: nat, pc: JobPc, i: nat)
    requires j < |jobs|
    ensures
      var jobs' := jobs[j := jobs[j].(pc := pc)];
      var on := jobs[j].task == i;
      && Count(jobs', CallsOn(i)) + Bit(on && jobs[j].pc == Calling)
        == Count(jobs, CallsOn(i)) + Bit(on && pc == Calling)
      && Count(jobs', UnlistsOn(i)) + Bit(on && WillUnlist(jobs[j].pc))
        == Count(jobs, UnlistsOn(i)) + Bit(on && WillUnlist(pc))
      && Count(jobs', UnsavesOn(i)) + Bit(on && WillUnsave(jobs[j].pc))
        == Count(jobs, UnsavesOn(i)) + Bit(on && WillUnsave(pc))
      && Count(jobs', SavesOn(i)) + Bit(on && WillSave(jobs[j].pc)) == Count(jobs, SavesOn(i)) + Bit(on && WillSave(pc))
      && (on && WillUnlist(pc) ==> Count(jobs', UnlistsOn(i)) > 0)
      && (on && WillUnsave(pc) ==> Count(jobs', UnsavesOn(i)) > 0)
      && (on && WillSave(pc) ==> Count(jobs', SavesOn(i)) > 0)
  {
    var x := jobs[j].(pc := pc);
    CountUpdate(jobs, j, x, CallsOn(i));
    CountUpdate(jobs, j, x, UnlistsOn(i));
    CountUpdate(jobs, j, x, UnsavesOn(i));
    CountUpdate(jobs, j, x, SavesOn(i));
    assert jobs[j := x][j] == x;
    CountZero(jobs[j := x], UnlistsOn(i));
    CountZero(jobs[j := x], UnsavesOn(i));
    CountZero(jobs[j := x], SavesOn(i));
  }

  lemma JobAdd(jobs: seq<Job>, x: Job, i: nat)
    ensures
      && Count(jobs + [x], CallsOn(i)) == Count(jobs, CallsOn(i)) + Bit(x.task == i && x.pc == Calling)
      && Count(jobs + [x], UnlistsOn(i)) == Count(jobs, UnlistsOn(i)) + Bit(x.task == i && WillUnlist(x.pc))
      && Count(jobs + [x], UnsavesOn(i)) == Count(jobs, UnsavesOn(i)) + Bit(x.task == i && WillUnsave(x.pc))
      && Count(jobs + [x], SavesOn(i)) == Count(jobs, SavesOn(i)) + Bit(x.task == i && WillSave(x.pc))
  {
    CountAppend(jobs, x, CallsOn(i));
    CountAppend(jobs, x, UnlistsOn(i));
    CountAppend(jobs, x, UnsavesOn(i));
    CountAppend(jobs, x, SavesOn(i));
  }

  lemma MoveTotals(jobs: seq<Job>, j: nat, pc: JobPc)
    requires j < |jobs|
    ensures
      var jobs' := jobs[j := jobs[j].(pc := pc)];
      var old_ := jobs[j].pc;
      && Count(jobs', AtScheduled) + Bit(old_ == OwesScheduled) == Count(jobs, AtScheduled) + Bit(pc == OwesScheduled)
      && Count(jobs', AtDelivered) + Bit(old_ == OwesDelivered) == Count(jobs, AtDelivered) + Bit(pc == OwesDelivered)
      && Count(jobs', AtFailed) + Bit(old_ == OwesFailed) == Count(jobs, AtFailed) + Bit(pc == OwesFailed)
      && Count(jobs', AtCancelled) + Bit(old_ == OwesCancelled) == Count(jobs, AtCancelled) + Bit(pc == OwesCancelled)
      && Count(jobs', Ticket) + Bit(jobs[j].ticket && old_ != Finished)
        == Count(jobs, Ticket) + Bit(jobs[j].ticket && pc != Finished)
  {
    var x := jobs[j].(pc := pc);
    CountUpdate(jobs, j, x, AtScheduled);
    CountUpdate(jobs, j, x, AtDelivered);
    CountUpdate(jobs, j, x, AtFailed);
    CountUpdate(jobs, j, x, AtCancelled);
    CountUpdate(jobs, j, x, Ticket);
  }

  lemma AddTotals(jobs: seq<Job>, x: Job)
    ensures
      && Count(jobs + [x], AtScheduled) == Count(jobs, AtScheduled) + Bit(x.pc == OwesScheduled)
      && Count(jobs + [x], AtDelivered) == Count(jobs, AtDelivered) + Bit(x.pc == OwesDelivered)
      && Count(jobs + [x], AtFailed) == Count(jobs, AtFailed) + Bit(x.pc == OwesFailed)
      && Count(jobs + [x], AtCancelled) == Count(jobs, AtCancelled) + Bit(x.pc == OwesCancelled)
      && Count(jobs + [x], Ticket) == Count(jobs, Ticket) + Bit(Ticket(x))
  {
    CountAppend(jobs, x, AtScheduled);
    CountAppend(jobs, x, AtDelivered);
    CountAppend(jobs, x, AtFailed);
    CountAppend(jobs, x, AtCancelled);
    CountAppend(jobs, x, Ticket);
  }

  lemma TaskTotals(tasks: seq<Entry>, i: nat, k: Entry)
    requires i < |tasks|
    ensures
      var tasks', st, st' := tasks[i := k], tasks[i].task.status, k.task.status;
      && Count(tasks', IsDelivered) + Bit(st == Delivered) == Count(tasks, IsDelivered) + Bit(st' == Delivered)
      && Count(tasks', IsFailed) + Bit(st == Failed) == Count(tasks, IsFailed) + Bit(st' == Failed)
      && Count(tasks', IsCancelled) + Bit(st == Cancelled) == Count(tasks, IsCancelled) + Bit(st' == Cancelled)
  {
    CountUpdate(tasks, i, k, IsDelivered);
    CountUpdate(tasks, i, k, IsFailed);
    CountUpdate(tasks, i, k, IsCancelled);
  }

  lemma ScheduleInv(c: Config, s: State, info: Info, at: int)
    requires Inv(c, s)
    ensures Inv(c, s.(tasks := s.tasks + [NewEntry(info, at)], jobs := s.jobs + [Job(|s.tasks|, OwesScheduled, false)]))
  {
    var k, job := NewEntry(info, at), Job(|s.tasks|, OwesScheduled, false);
    var s' := s.(tasks := s.tasks + [k], jobs := s.jobs + [job]);
    AddTotals(s.jobs, job);
    CountAppend(s.tasks, k, IsDelivered);
    CountAppend(s.tasks, k, IsFailed);
    CountAppend(s.tasks, k, IsCancelled);
    forall i | 0 <= i < |s'.tasks| ensures TaskOk(c, s', i) { ScheduleTask(c, s, k, job, i); }
  }

  lemma ScheduleTask(c: Config, s: State, k: Entry, job: Job, i: nat)
    requires (forall i :: 0 <= i < |s.tasks| ==> TaskOk(c, s, i)) && JobsOk(c, s)
    requires k == NewEntry(k.task.info, k.task.fields.deliverAt) && job == Job(|s.tasks|, OwesScheduled, false)
        && i <= |s.tasks|
    ensures TaskOk(c, s.(tasks := s.tasks + [k], jobs := s.jobs + [job]), i)
  {
    JobAdd(s.jobs, job, i);
    if i < |s.tasks| {
      assert TaskOk(c, s, i);
    } else {
      CountZero(s.jobs, CallsOn(i));
    }
  }

  lemma CancelInv(c: Config, s: State, t: nat)
    requires Inv(c, s) && Enabled(c, s, Cancel(t))
    ensures Inv(c, Apply(c, s, Cancel(t)))
  {
    var s', job := Apply(c, s, Cancel(t)), Job(t, OwesCancelled, false);
    AddTotals(s.jobs, job);
    TaskTotals(s.tasks, t, s'.tasks[t]);
    CancelJobs(c, s, t);
    forall i | 0 <= i < |s'.tasks| ensures TaskOk(c, s', i) { CancelTask(c, s, t, i); }
  }

  lemma CancelJobs(c: Config, s: State, t: nat)
    requires JobsOk(c, s) && t < |s.tasks| && s.tasks[t].task.status == Pending
    ensures
      var k := WithStatus(s.tasks[t], Cancelled);
      JobsOk(c, s.(tasks := s.tasks[t := k], jobs := s.jobs + [Job(t, OwesCancelled, false)]))
  {
  }

  lemma CancelTask(c: Config, s: State, t: nat, i: nat)
    requires t < |s.tasks| && s.tasks[t].task.status == Pending && i < |s.tasks| && TaskOk(c, s, i)
    ensures
      var k := WithStatus(s.tasks[t], Cancelled);
      TaskOk(c, s.(tasks := s.tasks[t := k], jobs := s.jobs + [Job(t, OwesCancelled, false)]), i)
  {
    JobAdd(s.jobs, Job(t, OwesCancelled, false), i);
  }

  lemma TickInv(c: Config, s: State, t: nat, now: int)
    requires Inv(c, s) && Enabled(c, s, Tick(t, now))
    ensures Inv(c, Apply(c, s, Tick(t, now)))
  {
    var s' := Apply(c, s, Tick(t, now));
    TaskTotals(s.tasks, t, s'.tasks[t]);
    forall i | 0 <= i < |s'.tasks| ensures TaskOk(c, s', i) { TickTask(c, s, t, i); }
  }

  lemma TickTask(c: Config, s: State, t: nat, i: nat)
    requires s.loop == Waiting && t < |s.tasks| && s.tasks[t].task.status == Pending && !s.tasks[t].delivering
    requires i < |s.tasks| && TaskOk(c, s, i)
    ensures TaskOk(c, SetTask(s, t, s.tasks[t].(delivering := true)).(loop := Launching(t)), i)
  {
  }

  lemma LaunchInv(c: Config, s: State)
    requires Inv(c, s) && Enabled(c, s, Launch)
    ensures Inv(c, Apply(c, s, Launch))
  {
    var s', job := Apply(c, s, Launch), Job(s.loop.task, Calling, true);
    AddTotals(s.jobs, job);
    LaunchJobs(c, s, job);
    forall i | 0 <= i < |s'.tasks| ensures TaskOk(c, s', i) { LaunchTask(c, s, i); }
  }

  lemma LaunchJobs(c: Config, s: State, job: Job)
    requires JobsOk(c, s) && s.loop.Launching? && job == Job(s.loop.task, Calling, true)
    ensures JobsOk(c, s.(loop := Waiting, wg := s.wg + 1, jobs := s.jobs + [job]))
  {
  }

  lemma LaunchTask(c: Config, s: State, i: nat)
    requires s.loop.Launching? && i < |s.tasks| && TaskOk(c, s, i)
    ensures TaskOk(c, s.(loop := Waiting, wg := s.wg + 1, jobs := s.jobs + [Job(s.loop.task, Calling, true)]), i)
  {
    JobAdd(s.jobs, Job(s.loop.task, Calling, true), i);
  }

  lemma LoopExitInv(c: Config, s: State)
    requires Inv(c, s) && Enabled(c, s, LoopExit)
    ensures Inv(c, Apply(c, s, LoopExit))
  {
    forall i | 0 <= i < |s.tasks| ensures TaskOk(c, Apply(c, s, LoopExit), i) { assert TaskOk(c, s, i); }
  }

  lemma StopInv(c: Config, s: State, e: Step)
    requires Inv(c, s) && Enabled(c, s, e) && (e.StopCancel? || e.StopReturn?)
    ensures Inv(c, Apply(c, s, e))
  {
    forall i | 0 <= i < |s.tasks| ensures TaskOk(c, Apply(c, s, e), i) { assert TaskOk(c, s, i); }
  }

  /** A task is only ever replaced by a later version of itself. */
  predicate Later(k0: Task, k: Task) {
    && k.info == k0.info && (k.fields == k0.fields || k.fields.attempts > k0.fields.attempts)
    && (k0.status != Pending ==> k.status != Pending)
  }

  /** A job on a task moves from pc0 to pc while the task goes from k0 to k: what the two
      owe afterwards, they owed before, or this job has taken it on. */
  predicate OwedMove(c: Config, k0: Entry, pc0: JobPc, k: Entry, pc: JobPc) {
    && (k.task.status != Pending && k.inMap ==>
      WillUnlist(pc) || (k0.task.status != Pending && k0.inMap && !WillUnlist(pc0)))
    && (!k.stale && k.task.status != Pending && k.disk.Some? ==>
          WillUnsave(pc) || (!k0.stale && k0.task.status != Pending && k0.disk.Some? && !WillUnsave(pc0)))
    && (!k.stale && c.persist && k.task.status == Pending && k.disk != Some(k.task) ==>
          WillSave(pc) || (!k0.stale && k0.task.status == Pending && k0.disk != Some(k0.task) && !WillSave(pc0)))
  }

  predicate GoodMove(c: Config, t: nat, k0: Entry, pc0: JobPc, k: Entry, pc: JobPc) {
    && Bit(pc == Calling) + Bit(k0.delivering) == Bit(pc0 == Calling) + Bit(k.delivering)
    && EntryOk(c, t, k) && OwedMove(c, k0, pc0, k, pc) && SnapshotOk(c, k, pc)
    && Later(k0.task, k.task)
    && (WillUnsave(pc) ==> k.task.status != Pending) && (pc == Calling ==> pc0 == Calling)
  }

  lemma MoveTask(c: Config, s: State, s': State, j: nat, pc: JobPc, k: Entry, i: nat)
    requires j < |s.jobs| && s.jobs[j].task < |s.tasks| && i < |s.tasks| && TaskOk(c, s, i)
    requires s'.jobs == s.jobs[j := s.jobs[j].(pc := pc)]
    requires s'.tasks == s.tasks[s.jobs[j].task := k] && s'.loop == s.loop
    requires GoodMove(c, s.jobs[j].task, s.tasks[s.jobs[j].task], s.jobs[j].pc, k, pc)
    ensures TaskOk(c, s', i)
  {
    JobMove(s.jobs, j, pc, i);
    if i == s.jobs[j].task {
      OwedAfter(c, s.tasks[i], s.jobs[j].pc, k, pc, Count(s.jobs, UnlistsOn(i)), Count(s.jobs, UnsavesOn(i)),
                Count(s.jobs, SavesOn(i)), Count(s'.jobs, UnlistsOn(i)), Count(s'.jobs, UnsavesOn(i)),
                Count(s'.jobs, SavesOn(i)));
    }
  }

  lemma OwedAfter(c: Config, k0: Entry, pc0: JobPc, k: Entry, pc: JobPc, unlists: nat, unsaves: nat, saves: nat,
                  unlists': nat, unsaves': nat, saves': nat)
    requires OwedOk(c, k0, unlists, unsaves, saves) && OwedMove(c, k0, pc0, k, pc)
    requires unlists' + Bit(WillUnlist(pc0)) == unlists + Bit(WillUnlist(pc)) && (WillUnlist(pc) ==> unlists' > 0)
    requires unsaves' + Bit(WillUnsave(pc0)) == unsaves + Bit(WillUnsave(pc)) && (WillUnsave(pc) ==> unsaves' > 0)
    requires saves' + Bit(WillSave(pc0)) == saves + Bit(WillSave(pc)) && (WillSave(pc) ==> saves' > 0)
    ensures OwedOk(c, k, unlists', unsaves', saves')
  {
  }

  lemma MoveJobs(c: Config, s: State, s': State, j: nat, pc: JobPc, k: Entry)
    requires JobsOk(c, s) && j < |s.jobs| && s.jobs[j].task < |s.tasks|
    requires s'.jobs == s.jobs[j := s.jobs[j].(pc := pc)]
    requires s'.tasks == s.tasks[s.jobs[j].task := k] && s'.loop == s.loop
    requires GoodMove(c, s.jobs[j].task, s.tasks[s.jobs[j].task], s.jobs[j].pc, k, pc)
    ensures JobsOk(c, s')
  {
  }

  lemma MoveInv(c: Config, s: State, s': State, j: nat, pc: JobPc, k: Entry)
    requires Inv(c, s) && j < |s.jobs| && s.jobs[j].task < |s.tasks|
    requires s'.jobs == s.jobs[j := s.jobs[j].(pc := pc)]
    requires s'.tasks == s.tasks[s.jobs[j].task := k] && s'.loop == s.loop
    requires GoodMove(c, s.jobs[j].task, s.tasks[s.jobs[j].task], s.jobs[j].pc, k, pc)
    ensures forall i :: 0 <= i < |s'.tasks| ==> TaskOk(c, s', i)
    ensures JobsOk(c, s')
  {
    forall i | 0 <= i < |s'.tasks| ensures TaskOk(c, s', i) {
      assert TaskOk(c, s, i);
      MoveTask(c, s, s', j, pc, k, i);
    }
    MoveJobs(c, s, s', j, pc, k);
  }

  /** The part of the invariant that concerns one task and one job on it. */
  predicate PairOk(c: Config, t: nat, k: Entry, pc: JobPc) {
    && EntryOk(c, t, k) && SnapshotOk(c, k, pc)
    && (WillUnsave(pc) ==> k.task.status != Pending) && (pc == Calling ==> k.delivering)
  }

  lemma JobPair(c: Config, s: State, j: nat)
    requires Inv(c, s) && j < |s.jobs|
    ensures PairOk(c, s.jobs[j].task, s.tasks[s.jobs[j].task], s.jobs[j].pc)
  {
    var t := s.jobs[j].task;
    assert TaskOk(c, s, t);
    if s.jobs[j].pc == Calling {
      CountZero(s.jobs, CallsOn(t));
      assert CallsOn(t)(s.jobs[j]);
    }
  }

  lemma OutcomeGood(c: Config, t: nat, k0: Entry, error: Option<string>, now: int, stopping: bool)
    requires PairOk(c, t, k0, Calling)
    ensures var (k, pc) := Outcome(c, k0, error, now, stopping); GoodMove(c, t, k0, Calling, k, pc)
  {
    if k0.task.status != Cancelled && error.Some? && !stopping { RetryGood(c, t, k0, error.value, now); }
  }

  /** A failed attempt outside a shutdown: the task is retried, or has failed. */
  lemma RetryGood(c: Config, t: nat, k0: Entry, error: string, now: int)
    requires PairOk(c, t, k0, Calling) && k0.task.status == Pending
    ensures var (k, pc) := Outcome(c, k0, Some(error), now, false); GoodMove(c, t, k0, Calling, k, pc)
  {
    RetryEntry(c, t, k0, error, now);
  }

  lemma RetryEntry(c: Config, t: nat, k0: Entry, error: string, now: int)
    requires EntryOk(c, t, k0) && k0.task.status == Pending
    ensures EntryOk(c, t, Outcome(c, k0, Some(error), now, false).0)
  {
  }

  lemma ResolveInv(c: Config, s: State, j: nat, error: Option<string>, now: int)
    requires Inv(c, s) && Enabled(c, s, Resolve(j, error, now))
    ensures Inv(c, Apply(c, s, Resolve(j, error, now)))
  {
    var t := s.jobs[j].task;
    var (k, pc) := Outcome(c, s.tasks[t], error, now, s.stopping);
    var s' := Apply(c, s, Resolve(j, error, now));
    JobPair(c, s, j);
    OutcomeGood(c, t, s.tasks[t], error, now, s.stopping);
    MoveInv(c, s, s', j, pc, k);
    OutcomeOwes(c, s.tasks[t], error, now, s.stopping);
    OwedCounters(c, s, s', j, pc, k);
  }

  /** The end of an attempt: a new terminal status is owed to its counter. */
  predicate Owes(k0: Entry, k: Entry, pc: JobPc) {
    && Bit(k.task.status == Delivered) == Bit(k0.task.status == Delivered) + Bit(pc == OwesDelivered)
    && Bit(k.task.status == Failed) == Bit(k0.task.status == Failed) + Bit(pc == OwesFailed)
    && (k.task.status == Cancelled <==> k0.task.status == Cancelled)
  }

  lemma OutcomeOwes(c: Config, k0: Entry, error: Option<string>, now: int, stopping: bool)
    requires k0.task.status == Pending || k0.task.status == Cancelled
    ensures
      var (k, pc) := Outcome(c, k0, error, now, stopping);
      Owes(k0, k, pc) && pc != OwesScheduled && pc != OwesCancelled && pc != Finished
  {
  }

  lemma OwedCounters(c: Config, s: State, s': State, j: nat, pc: JobPc, k: Entry)
    requires Counters(c, s) && j < |s.jobs| && s.jobs[j].task < |s.tasks| && s.jobs[j].pc == Calling
    requires s' == SetTask(SetJob(s, j, pc), s.jobs[j].task, k)
    requires Owes(s.tasks[s.jobs[j].task], k, pc) && pc != OwesScheduled && pc != OwesCancelled && pc != Finished
    ensures Counters(c, s')
  {
    MoveTotals(s.jobs, j, pc);
    TaskTotals(s.tasks, s.jobs[j].task, k);
  }

  lemma PairGood(c: Config, t: nat, k: Entry, pc: JobPc)
    requires PairOk(c, t, k, pc) && pc != Calling && pc != Finished
    ensures
      var (k', pc') := WorkOutcome(c, k, pc);
      k'.task == k.task && pc' != Calling && GoodMove(c, t, k, pc, k', pc')
  {
    match pc
    case OwesScheduled =>
    case OwesDelivered =>
    case OwesFailed =>
    case OwesCancelled =>
    case Persist =>
    case Saving(_) => SaveGood(c, t, k, pc.snapshot);
    case MapDelete => RemoveGood(c, t, k, pc);
    case DiskRemove => RemoveGood(c, t, k, pc);
    case Done =>
  }

  lemma SaveGood(c: Config, t: nat, k: Entry, snapshot: Task)
    requires PairOk(c, t, k, Saving(snapshot))
    ensures GoodMove(c, t, k, Saving(snapshot), k.(disk := Some(snapshot), stale := snapshot != k.task), Done)
  {
    SavedGood(c, t, k, snapshot, snapshot != k.task);
  }

  lemma SavedGood(c: Config, t: nat, k: Entry, snapshot: Task, stale: bool)
    requires EntryOk(c, t, k) && SnapshotOk(c, k, Saving(snapshot)) && (stale <==> snapshot != k.task)
    ensures GoodMove(c, t, k, Saving(snapshot), k.(disk := Some(snapshot), stale := stale), Done)
  {
  }

  lemma RemoveGood(c: Config, t: nat, k: Entry, pc: JobPc)
    requires PairOk(c, t, k, pc) && (pc == MapDelete || pc == DiskRemove)
    ensures var (k', pc') := WorkOutcome(c, k, pc); GoodMove(c, t, k, pc, k', pc')
  {
  }

  lemma WorkInv(c: Config, s: State, j: nat)
    requires Inv(c, s) && Enabled(c, s, Work(j))
    ensures Inv(c, Apply(c, s, Work(j)))
  {
    var t := s.jobs[j].task;
    var s' := Apply(c, s, Work(j));
    var (k, pc) := WorkOutcome(c, s.tasks[t], s.jobs[j].pc);
    JobPair(c, s, j);
    PairGood(c, t, s.tasks[t], s.jobs[j].pc);
    MoveInv(c, s, s', j, pc, k);
    WorkCounters(c, s, j);
    if s.stopped { WorkStopped(c, s, j); }
  }

  lemma WorkCounters(c: Config, s: State, j: nat)
    requires Counters(c, s) && Enabled(c, s, Work(j))
    ensures Counters(c, Apply(c, s, Work(j)))
  {
    var (k, pc) := WorkOutcome(c, s.tasks[s.jobs[j].task], s.jobs[j].pc);
    CountersMoved(c, s, Apply(c, s, Work(j)), j, pc, k);
  }

  /** A counter update, or a release of the ticket, by the job that owes it. */
  lemma CountersMoved(c: Config, s: State, s': State, j: nat, pc: JobPc, k: Entry)
    requires Counters(c, s) && j < |s.jobs| && s.jobs[j].task < |s.tasks|
    requires s'.jobs == s.jobs[j := s.jobs[j].(pc := pc)] && s'.tasks == s.tasks[s.jobs[j].task := k]
    requires k.task.status == s.tasks[s.jobs[j].task].task.status && s'.loop == s.loop
    requires pc != OwesScheduled && pc != OwesDelivered && pc != OwesFailed && pc != OwesCancelled
    requires s.jobs[j].pc != Finished && (pc == Finished <==> s.jobs[j].pc == Done)
    requires s'.scheduled == s.scheduled + Bit(s.jobs[j].pc == OwesScheduled)
    requires s'.delivered == s.delivered + Bit(s.jobs[j].pc == OwesDelivered)
    requires s'.failed == s.failed + Bit(s.jobs[j].pc == OwesFailed)
    requires s'.cancelled == s.cancelled + Bit(s.jobs[j].pc == OwesCancelled)
    requires s'.wg == s.wg - Bit(pc == Finished && s.jobs[j].ticket)
    ensures Counters(c, s')
  {
    MoveTotals(s.jobs, j, pc);
    TaskTotals(s.tasks, s.jobs[j].task, k);
  }

  /** Once the wait group is empty, no job has a ticket to give back. */
  lemma WorkStopped(c: Config, s: State, j: nat)
    requires Counters(c, s) && Enabled(c, s, Work(j)) && s.wg == 0
    ensures Apply(c, s, Work(j)).wg == 0
  {
    CountZero(s.jobs, Ticket);
    assert !Ticket(s.jobs[j]);
  }

  lemma StepInv(c: Config, s: State, e: Step)
    requires Inv(c, s) && Enabled(c, s, e)
    ensures Inv(c, Apply(c, s, e))
  {
    match e
    case Schedule(info, at) => ScheduleInv(c, s, info, at);
    case Cancel(i) => CancelInv(c, s, i);
    case Tick(i, now) => TickInv(c, s, i, now);
    case Launch => LaunchInv(c, s);
    case LoopExit => LoopExitInv(c, s);
    case Resolve(j, error, now) => ResolveInv(c, s, j, error, now);
    case Work(j) => WorkInv(c, s, j);
    case StopCancel => StopInv(c, s, e);
    case StopReturn => StopInv(c, s, e);
  }
}
