/** What a run of the scheduler asks of the storage, and what a restart gets back. */
module SchedulerStorage {
  import opened Int64
  import opened Prelude
  import opened Scheduler
  import opened SchedulerTheorems
  import opened TaskIds
  import opened Tasks
  import opened TaskStore

  // ------------------------------------------------------------ a run's storage operations

  /** The storage operation of a step, if it has one. */
  function Emits(c: Config, s: State, e: Step): seq<Op>
    requires Enabled(c, s, e)
  {
    if !e.Work? then []
    else
      match s.jobs[e.job].pc
      case Saving(t) => [Save(t)]
      case DiskRemove =>
        var info := s.tasks[s.jobs[e.job].task].task.info;
        if c.persist then [Remove(info.id, info.project)] else []
      case _ => []
  }

  ghost function Emitted(c: Config, s: State, run: seq<Step>): seq<Op>
    requires Legal(c, s, run)
    decreases |run|
  {
    if run == [] then [] else Emits(c, s, run[0]) + Emitted(c, Apply(c, s, run[0]), run[1..])
  }

  ghost function OnDisk(s: State): set<Task> {
    set i | 0 <= i < |s.tasks| && s.tasks[i].disk.Some? :: s.tasks[i].disk.value
  }

  /** The pending tasks in memory. */
  ghost function PendingTasks(s: State): set<Task> {
    set i | 0 <= i < |s.tasks| && s.tasks[i].task.status == Pending :: s.tasks[i].task
  }

  function Id(s: State, i: nat): string
    requires i < |s.tasks|
  {
    s.tasks[i].task.info.id
  }

  ghost predicate Distinct(s: State) {
    forall i, k :: 0 <= i < k < |s.tasks| ==> Id(s, i) != Id(s, k)
  }

  // ------------------------------------------------------------ names

  /** Restored tasks have names of their own, which the counter will not issue; the others have
      what the counter issued; and whatever is persisted has a project. */
  ghost predicate Named(c: Config, s: State) {
    && 0 <= c.base <= MAX64 && c.restored <= |s.tasks|
    && (forall i, k :: 0 <= i < k < c.restored ==> Id(s, i) != Id(s, k))
    && (forall i, k :: 0 <= i < c.restored && 0 < k && c.base + k <= MAX64 ==> Id(s, i) != Issued(c.base, k))
    && (forall i :: c.restored <= i < |s.tasks| ==> Id(s, i) == Issued(c.base, i - c.restored + 1))
    && (forall i :: 0 <= i < |s.tasks| && c.persist ==> s.tasks[i].task.info.project != "")
  }

  /** The ID counter has not wrapped around. */
  predicate InRange(c: Config, s: State) { c.base + (|s.tasks| - c.restored) <= MAX64 }

  lemma NamedDistinct(c: Config, s: State)
    requires Named(c, s) && InRange(c, s)
    ensures Distinct(s)
  {
    forall i, k | 0 <= i < k < |s.tasks| ensures Id(s, i) != Id(s, k) { NamesDiffer(c, s, i, k); }
  }

  lemma NamesDiffer(c: Config, s: State, i: nat, k: nat)
    requires Named(c, s) && InRange(c, s) && i < k < |s.tasks|
    ensures Id(s, i) != Id(s, k)
  {
    if k >= c.restored {
      var m := k - c.restored + 1;
      assert Id(s, k) == Issued(c.base, m);
      if i >= c.restored {
        var l := i - c.restored + 1;
        assert Id(s, i) == Issued(c.base, l);
        IssuedDiffer(c.base, l, m);
      }
    }
  }

  /** No step drops a task, or changes what identifies it. */
  lemma KeepsTask(c: Config, s: State, e: Step, i: nat)
    requires Inv(c, s) && Enabled(c, s, e) && i < |s.tasks|
    ensures i < |Apply(c, s, e).tasks| && Later(s.tasks[i].task, Apply(c, s, e).tasks[i].task)
  {
    if e.Resolve? {
      JobPair(c, s, e.job);
      KeepsResolved(c, s, e, i);
    } else if e.Work? {
      KeepsWorked(c, s, e.job, i);
    }
  }

  lemma KeepsWorked(c: Config, s: State, j: nat, i: nat)
    requires Enabled(c, s, Work(j)) && i < |s.tasks|
    ensures i < |Apply(c, s, Work(j)).tasks| && Later(s.tasks[i].task, Apply(c, s, Work(j)).tasks[i].task)
  {
    var s' := WorkEffect(c, s, j);
  }

  lemma KeepsResolved(c: Config, s: State, e: Step, i: nat)
    requires Enabled(c, s, e) && e.Resolve? && i < |s.tasks|
    requires EntryOk(c, s.jobs[e.job].task, s.tasks[s.jobs[e.job].task]) && s.tasks[s.jobs[e.job].task].delivering
    ensures i < |Apply(c, s, e).tasks| && Later(s.tasks[i].task, Apply(c, s, e).tasks[i].task)
  {
  }

  /** s' has the tasks of s, under the same names, and perhaps one more with the next ID. */
  predicate Grows(c: Config, s: State, s': State) {
    && |s.tasks| <= |s'.tasks| <= |s.tasks| + 1
    && (forall i :: 0 <= i < |s.tasks| ==> s'.tasks[i].task.info == s.tasks[i].task.info)
    && (|s'.tasks| > |s.tasks| ==>
          && Id(s', |s.tasks|) == NewId(c, s)
          && (c.persist ==> s'.tasks[|s.tasks|].task.info.project != ""))
  }

  lemma StepGrows(c: Config, s: State, e: Step)
    requires Inv(c, s) && Enabled(c, s, e)
    ensures Grows(c, s, Apply(c, s, e))
  {
    var s' := Apply(c, s, e);
    if e.Schedule? {
      assert s'.tasks == s.tasks + [NewEntry(e.info, e.deliverAt)];
    } else {
      forall i | 0 <= i < |s.tasks| ensures s'.tasks[i].task.info == s.tasks[i].task.info { KeepsTask(c, s, e, i); }
    }
  }

  lemma NamedGrows(c: Config, s: State, s': State)
    requires Named(c, s) && Grows(c, s, s')
    ensures Named(c, s')
  {
    assert forall i :: 0 <= i < |s.tasks| ==> Id(s', i) == Id(s, i);
  }

  lemma NamedStep(c: Config, s: State, e: Step)
    requires Inv(c, s) && Named(c, s) && Enabled(c, s, e)
    ensures Named(c, Apply(c, s, e)) && |s.tasks| <= |Apply(c, s, e).tasks|
  {
    StepGrows(c, s, e);
    NamedGrows(c, s, Apply(c, s, e));
  }

  lemma {:induction false} NamedRun(c: Config, s: State, run: seq<Step>)
    requires Inv(c, s) && Named(c, s) && Legal(c, s, run)
    ensures Named(c, Exec(c, s, run)) && |s.tasks| <= |Exec(c, s, run).tasks|
    decreases |run|
  {
    if run == [] {
    } else {
      NamedStep(c, s, run[0]);
      StepInv(c, s, run[0]);
      NamedRun(c, Apply(c, s, run[0]), run[1..]);
    }
  }

  // ------------------------------------------------------------ the storage follows

  /** Replacing one entry of a state changes what is on disk by that entry. */
  lemma EntryOnDisk(s: State, s': State, i: nat, stored: set<Task>)
    requires i < |s.tasks| == |s'.tasks| && s'.tasks == s.tasks[i := s'.tasks[i]] && Distinct(s)
    requires forall k :: 0 <= k < |s.tasks| && s.tasks[k].disk.Some? ==>
        s.tasks[k].disk.value.info == s.tasks[k].task.info
    requires
      var info := s.tasks[i].task.info;
      stored == Except(OnDisk(s), info.id, info.project)
        + if s'.tasks[i].disk.Some? then {s'.tasks[i].disk.value} else {}
    ensures OnDisk(s') == stored
  {
    var info := s.tasks[i].task.info;
    forall t ensures t in OnDisk(s') <==> t in stored {
      if t in OnDisk(s') {
        var k :| 0 <= k < |s'.tasks| && s'.tasks[k].disk.Some? && s'.tasks[k].disk.value == t;
        if k != i {
          assert s.tasks[k] == s'.tasks[k] && t in OnDisk(s);
          assert Id(s, k) != Id(s, i);
        }
      }
      if t in stored {
        if t in Except(OnDisk(s), info.id, info.project) {
          var k :| 0 <= k < |s.tasks| && s.tasks[k].disk.Some? && s.tasks[k].disk.value == t;
          assert k != i && s'.tasks[k] == s.tasks[k];
        } else {
          assert s'.tasks[i].disk.value == t;
        }
      }
    }
  }

  lemma SameOnDisk(s: State, s': State)
    requires |s.tasks| <= |s'.tasks|
    requires forall i :: 0 <= i < |s.tasks| ==> s'.tasks[i].disk == s.tasks[i].disk
    requires forall i :: |s.tasks| <= i < |s'.tasks| ==> s'.tasks[i].disk == None
    ensures OnDisk(s') == OnDisk(s)
  {
    forall t ensures t in OnDisk(s') <==> t in OnDisk(s) {
      if t in OnDisk(s') {
        var k :| 0 <= k < |s'.tasks| && s'.tasks[k].disk.Some? && s'.tasks[k].disk.value == t;
        assert s.tasks[k].disk.value == t;
      }
      if t in OnDisk(s) {
        var k :| 0 <= k < |s.tasks| && s.tasks[k].disk.Some? && s.tasks[k].disk.value == t;
        assert s'.tasks[k].disk.value == t;
      }
    }
  }

  lemma DiskInfo(c: Config, s: State, i: nat)
    requires Inv(c, s) && i < |s.tasks| && s.tasks[i].disk.Some?
    ensures NotAfter(s.tasks[i].disk.value, s.tasks[i].task)
  {
    assert TaskOk(c, s, i);
  }

  /** A save or a removal does to the disk what its job does to the entry. */
  lemma EmitWork(c: Config, s: State, j: nat, op: Op)
    requires Inv(c, s) && Distinct(s) && Enabled(c, s, Work(j)) && Emits(c, s, Work(j)) == [op]
    ensures StoredAfter(OnDisk(s), [op]) == OnDisk(Apply(c, s, Work(j)))
  {
    var t := s.jobs[j].task;
    var s' := WorkEffect(c, s, j);
    JobPair(c, s, j);
    forall k | 0 <= k < |s.tasks| && s.tasks[k].disk.Some?
      ensures s.tasks[k].disk.value.info == s.tasks[k].task.info
    {
      DiskInfo(c, s, k);
    }
    OneOp(OnDisk(s), op);
    EntryOnDisk(s, s', t, StoredAfter(OnDisk(s), [op]));
  }

  lemma OneOp(start: set<Task>, op: Op)
    ensures StoredAfter(start, [op]) == Performed(start, op)
  {
    assert [op][1..] == [];
  }

  /** One step: the storage operation it emits leads from what was on disk to what is. */
  lemma EmitStep(c: Config, s: State, e: Step)
    requires Inv(c, s) && Distinct(s) && Enabled(c, s, e)
    ensures StoredAfter(OnDisk(s), Emits(c, s, e)) == OnDisk(Apply(c, s, e))
  {
    if Emits(c, s, e) == [] {
      QuietStep(c, s, e);
    } else {
      EmitWork(c, s, e.job, Emits(c, s, e)[0]);
    }
  }

  /** A step that emits nothing leaves every copy on disk as it is. */
  lemma QuietStep(c: Config, s: State, e: Step)
    requires Inv(c, s) && Enabled(c, s, e) && Emits(c, s, e) == []
    ensures OnDisk(Apply(c, s, e)) == OnDisk(s)
  {
    var s' := Apply(c, s, e);
    if e.Schedule? {
      assert s'.tasks == s.tasks + [NewEntry(e.info, e.deliverAt)];
    } else {
      forall i | 0 <= i < |s.tasks| ensures s'.tasks[i].disk == s.tasks[i].disk { QuietEntry(c, s, e, i); }
    }
    SameOnDisk(s, s');
  }

  lemma QuietEntry(c: Config, s: State, e: Step, i: nat)
    requires Inv(c, s) && Enabled(c, s, e) && Emits(c, s, e) == [] && i < |s.tasks| && !e.Schedule?
    ensures i < |Apply(c, s, e).tasks| && Apply(c, s, e).tasks[i].disk == s.tasks[i].disk
  {
    if e.Work? { QuietWork(c, s, e.job, i); }
  }

  lemma QuietWork(c: Config, s: State, j: nat, i: nat)
    requires Inv(c, s) && Enabled(c, s, Work(j)) && Emits(c, s, Work(j)) == [] && i < |s.tasks|
    ensures i < |Apply(c, s, Work(j)).tasks| && Apply(c, s, Work(j)).tasks[i].disk == s.tasks[i].disk
  {
    var s' := WorkEffect(c, s, j);
    assert TaskOk(c, s, i);
  }

  lemma {:induction false} StoredAppend(start: set<Task>, a: seq<Op>, b: seq<Op>)
    ensures StoredAfter(start, a + b) == StoredAfter(StoredAfter(start, a), b)
    decreases |a|
  {
    if a == [] {
      assert a + b == b;
    } else {
      assert (a + b)[1..] == a[1..] + b;
      StoredAppend(Performed(start, a[0]), a[1..], b);
    }
  }

  /** Over a whole run, the operations it emits, performed in order, turn what was on disk into
      what the run says is on disk. */
  lemma {:induction false} EmitRun(c: Config, s: State, run: seq<Step>)
    requires Inv(c, s) && Named(c, s) && Legal(c, s, run) && InRange(c, Exec(c, s, run))
    ensures StoredAfter(OnDisk(s), Emitted(c, s, run)) == OnDisk(Exec(c, s, run))
    decreases |run|
  {
    if run == [] {
    } else {
      var s' := Apply(c, s, run[0]);
      NamedStep(c, s, run[0]);
      StepInv(c, s, run[0]);
      NamedRun(c, s', run[1..]);
      NamedDistinct(c, s);
      EmitStep(c, s, run[0]);
      EmitRun(c, s', run[1..]);
      StoredAppend(OnDisk(s), Emits(c, s, run[0]), Emitted(c, s', run[1..]));
    }
  }

  lemma EmitsOk(c: Config, s: State, e: Step)
    requires Inv(c, s) && Named(c, s) && Enabled(c, s, e)
    ensures forall i :: 0 <= i < |Emits(c, s, e)| ==> OpOk(Emits(c, s, e)[i])
  {
    if e.Work? { JobPair(c, s, e.job); }
  }

  lemma {:induction false} EmittedOk(c: Config, s: State, run: seq<Step>)
    requires Inv(c, s) && Named(c, s) && Legal(c, s, run)
    ensures forall i :: 0 <= i < |Emitted(c, s, run)| ==> OpOk(Emitted(c, s, run)[i])
    decreases |run|
  {
    if run == [] {
    } else {
      EmitsOk(c, s, run[0]);
      NamedStep(c, s, run[0]);
      StepInv(c, s, run[0]);
      EmittedOk(c, Apply(c, s, run[0]), run[1..]);
    }
  }

  ghost predicate NothingStale(s: State) { forall i :: 0 <= i < |s.tasks| ==> !s.tasks[i].stale }

  /** At quiescence the disk holds exactly the pending tasks in memory, with equal fields, if and
      only if no copy on disk is stale. */
  lemma DiskIsPending(c: Config, s0: State, run: seq<Step>, s: State)
    requires Reached(c, s0, run, s) && Quiet(s) && c.persist && Distinct(s)
    ensures OnDisk(s) == PendingTasks(s) <==> NothingStale(s)
  {
    forall i | 0 <= i < |s.tasks|
      ensures s.tasks[i].disk == Expected(s, i) <==> !s.tasks[i].stale
    {
      DiskAgrees(c, s0, run, s, i);
    }
    ReachedInv(c, s0, run, s);
    if NothingStale(s) {
      AllExpected(s);
    } else {
      var i :| 0 <= i < |s.tasks| && s.tasks[i].stale;
      assert TaskOk(c, s, i);
      var copy := s.tasks[i].disk.value;
      assert copy in OnDisk(s);
      forall k | 0 <= k < |s.tasks| ensures s.tasks[k].task != copy {
        assert k < i ==> Id(s, k) != Id(s, i);
        assert k > i ==> Id(s, i) != Id(s, k);
      }
      assert copy !in PendingTasks(s);
    }
  }

  function Expected(s: State, i: nat): Option<Task>
    requires i < |s.tasks|
  {
    if s.tasks[i].task.status == Pending then Some(s.tasks[i].task) else None
  }

  lemma AllExpected(s: State)
    requires forall i :: 0 <= i < |s.tasks| ==> s.tasks[i].disk == Expected(s, i)
    ensures OnDisk(s) == PendingTasks(s)
  {
    forall t ensures t in OnDisk(s) <==> t in PendingTasks(s) {
      if t in OnDisk(s) {
        var k :| 0 <= k < |s.tasks| && s.tasks[k].disk.Some? && s.tasks[k].disk.value == t;
        assert s.tasks[k].task == t;
      }
      if t in PendingTasks(s) {
        var k :| 0 <= k < |s.tasks| && s.tasks[k].task.status == Pending && s.tasks[k].task == t;
        assert s.tasks[k].disk.value == t;
      }
    }
  }

  // ------------------------------------------------------------ start, run, start again

  /** s is what Start makes of these files: every stored task, once, under a counter that
      issues none of their IDs. */
  ghost predicate Started(c: Config, s: State, files: Files) {
    && Init(c, s) && c.persist && Distinct(s)
    && PendingTasks(s) == Stored(files) && FreshFrom(c.base, Stored(files))
  }

  lemma StartedNamed(c: Config, s: State, files: Files)
    requires Started(c, s, files) && Consistent(files)
    ensures Named(c, s) && OnDisk(s) == Stored(files)
  {
    AllExpected(s);
    forall i | 0 <= i < |s.tasks| ensures s.tasks[i].task in Stored(files) && s.tasks[i].task.info.project != "" {
      assert s.tasks[i].task in PendingTasks(s);
      InOwnFile(files, s.tasks[i].task);
    }
  }

  /** What can be restored: pending tasks with distinct IDs, in files that are scanned. */
  ghost predicate Restorable(files: Files, scanPaths: seq<string>) {
    && Consistent(files) && DistinctIds(Stored(files))
    && (forall t :: t in Stored(files) ==> t.status == Pending && t.info.project in scanPaths)
  }

  function Restored(t: Task): Entry { Entry(t, false, true, Some(t), false) }

  /** The entries hold exactly these tasks, each under its own ID. */
  ghost predicate Fills(entries: seq<Entry>, tasks: map<string, Task>, ids: set<string>) {
    && (forall i :: 0 <= i < |entries| ==>
          && entries[i] == Restored(entries[i].task)
          && entries[i].task.info.id in ids && entries[i].task.info.id in tasks
          && tasks[entries[i].task.info.id] == entries[i].task)
    && (forall i, k :: 0 <= i < k < |entries| ==> entries[i].task.info.id != entries[k].task.info.id)
    && (forall id :: id in ids && id in tasks ==> exists i :: 0 <= i < |entries| && entries[i].task == tasks[id])
  }

  lemma FillsMore(entries: seq<Entry>, tasks: map<string, Task>, ids: set<string>, id: string)
    requires Fills(entries, tasks, ids) && id in tasks && id !in ids && tasks[id].info.id == id
    ensures Fills(entries + [Restored(tasks[id])], tasks, ids + {id})
  {
    var more := entries + [Restored(tasks[id])];
    assert more[|entries|].task == tasks[id];
    forall x | x in ids && x in tasks ensures exists i :: 0 <= i < |more| && more[i].task == tasks[x] {
      var i :| 0 <= i < |entries| && entries[i].task == tasks[x];
      assert more[i].task == tasks[x];
    }
  }

  /** The task map, in the order in which its keys happen to come. */
  method Entries(tasks: map<string, Task>) returns (entries: seq<Entry>)
    requires forall id :: id in tasks ==> tasks[id].info.id == id
    ensures Fills(entries, tasks, tasks.Keys)
  {
    entries := [];
    var todo := tasks.Keys;
    while todo != {}
      invariant todo <= tasks.Keys && Fills(entries, tasks, tasks.Keys - todo)
      decreases |todo|
    {
      HasMember(todo);
      var id :| id in todo;
      FillsMore(entries, tasks, tasks.Keys - todo, id);
      assert tasks.Keys - todo + {id} == tasks.Keys - (todo - {id});
      entries := entries + [Restored(tasks[id])];
      todo := todo - {id};
    }
    assert tasks.Keys - todo == tasks.Keys;
  }

  /** Start: scan, load, and fill the task map. */
  method Start(disk: Disk, scanPaths: seq<string>, maxRetries: int, retryDelay: int) returns (c: Config, s: State)
    requires Restorable(disk.files, scanPaths)
    ensures disk.files == old(disk.files) && Started(c, s, disk.files)
    ensures c.maxRetries == maxRetries && c.retryDelay == retryDelay
  {
    var tasks, base := Restore(disk, scanPaths);
    EverythingFound(disk.files, scanPaths);
    var entries := Entries(tasks);
    c := Config(|entries|, base, maxRetries, retryDelay, true);
    s := State(entries, [], Waiting, 1, false, false, 0, 0, 0, 0);
    FilledPending(s, tasks, Stored(disk.files));
  }

  lemma FilledPending(s: State, tasks: map<string, Task>, stored: set<Task>)
    requires Fills(s.tasks, tasks, tasks.Keys)
    requires forall id :: id in tasks ==> tasks[id].status == Pending && tasks[id] in stored
    requires forall t :: t in stored ==> t.info.id in tasks && tasks[t.info.id] == t
    ensures PendingTasks(s) == stored && Distinct(s)
  {
    forall t ensures t in PendingTasks(s) <==> t in stored {
      if t in stored {
        var i :| 0 <= i < |s.tasks| && s.tasks[i].task == tasks[t.info.id];
        assert s.tasks[i].task == t;
      }
    }
  }

  lemma EverythingFound(files: Files, scanPaths: seq<string>)
    requires Restorable(files, scanPaths)
    ensures StoredIn(files, set p | p in scanPaths && p in files) == Stored(files)
  {
    forall t | t in Stored(files) ensures t in StoredIn(files, set p | p in scanPaths && p in files) {
      InOwnFile(files, t);
    }
  }

  /** A scheduler starts from any restorable files, runs any run, and is started again: the disk
      holds what the run says, it can be restored once more, and the second start has exactly
      the pending tasks of the first, with equal fields, if and only if no copy on disk was
      stale. */
  method RunAndRestart(disk: Disk, scanPaths: seq<string>, c: Config, s0: State, ghost run: seq<Step>, ops: seq<Op>)
    returns (c': Config, s': State)
    requires Restorable(disk.files, scanPaths) && Started(c, s0, disk.files)
    requires Legal(c, s0, run) && InRange(c, Exec(c, s0, run)) && ops == Emitted(c, s0, run)
    requires forall t :: t in OnDisk(Exec(c, s0, run)) ==> t.info.project in scanPaths
    modifies disk
    ensures Restorable(disk.files, scanPaths) && Stored(disk.files) == OnDisk(Exec(c, s0, run))
    ensures Started(c', s', disk.files)
    ensures
      var s := Exec(c, s0, run);
      Quiet(s) ==> (PendingTasks(s') == PendingTasks(s) <==> NothingStale(s))
  {
    ghost var s := Exec(c, s0, run);
    var m := new StateManager(disk);
    StartedNamed(c, s0, disk.files);
    InitInv(c, s0);
    EmittedOk(c, s0, run);
    Perform(m, ops);
    EmitRun(c, s0, run);
    NamedRun(c, s0, run);
    NamedDistinct(c, s);
    ExecInv(c, s0, run);
    DiskRestorable(c, s);
    if Quiet(s) { DiskIsPending(c, s0, run, s); }
    c', s' := Start(disk, scanPaths, c.maxRetries, c.retryDelay);
  }

  lemma DiskRestorable(c: Config, s: State)
    requires Inv(c, s) && Distinct(s)
    ensures DistinctIds(OnDisk(s)) && forall t :: t in OnDisk(s) ==> t.status == Pending
  {
    forall i | 0 <= i < |s.tasks| && s.tasks[i].disk.Some?
      ensures s.tasks[i].disk.value.status == Pending && s.tasks[i].disk.value.info.id == Id(s, i)
    {
      DiskInfo(c, s, i);
    }
  }
}
