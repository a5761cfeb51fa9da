/** The scheduler's tasks on disk, one file per project, and what a restart makes of them. */
module TaskStore {
  import opened Int64
  import opened Prelude
  import opened TaskIds
  import opened Tasks

  // ------------------------------------------------------------ the files

  type Files = map<string, seq<Task>>

  predicate UniqueIds(ts: seq<Task>) {
    forall i, k :: 0 <= i < k < |ts| ==> ts[i].info.id != ts[k].info.id
  }

  predicate FileOk(project: string, ts: seq<Task>) {
    project != "" && ts != [] && UniqueIds(ts) && forall i :: 0 <= i < |ts| ==> ts[i].info.project == project
  }

  /** Every file is non-empty, belongs to its named project, and names no ID twice. */
  ghost predicate Consistent(files: Files) {
    forall p :: p in files ==> FileOk(p, files[p])
  }

  /** The tasks the files of these projects hold. */
  ghost function StoredIn(files: Files, projects: set<string>): set<Task> {
    set p, t | p in projects && p in files && t in files[p] :: t
  }

  ghost function Stored(files: Files): set<Task> { StoredIn(files, files.Keys) }

  /** The same task, whatever its fields. */
  predicate SameTask(t: Task, id: string, project: string) { t.info.id == id && t.info.project == project }

  ghost function Except(ts: set<Task>, id: string, project: string): set<Task> {
    set t | t in ts && !SameTask(t, id, project)
  }

  /** In one file: the entry with the task's ID is replaced, or the task is appended. */
  function Put(ts: seq<Task>, task: Task): seq<Task> {
    if ts == [] then [task]
    else if ts[0].info.id == task.info.id then [task] + ts[1..]
    else [ts[0]] + Put(ts[1..], task)
  }

  /** In one file: the first entry with the ID goes. */
  function Drop(ts: seq<Task>, id: string): seq<Task> {
    if ts == [] then []
    else if ts[0].info.id == id then ts[1..]
    else [ts[0]] + Drop(ts[1..], id)
  }

  lemma {:induction false} PutHas(ts: seq<Task>, task: Task)
    requires UniqueIds(ts)
    ensures forall t :: t in Put(ts, task) <==> t == task || (t in ts && t.info.id != task.info.id)
    ensures UniqueIds(Put(ts, task))
  {
    if ts == [] {
    } else {
      assert ts == [ts[0]] + ts[1..];
      if ts[0].info.id != task.info.id {
        PutHas(ts[1..], task);
        var r := Put(ts[1..], task);
        forall k | 0 <= k < |r| ensures r[k].info.id != ts[0].info.id { assert r[k] in r; }
      }
    }
  }

  lemma {:induction false} DropHas(ts: seq<Task>, id: string)
    requires UniqueIds(ts)
    ensures forall t :: t in Drop(ts, id) <==> t in ts && t.info.id != id
    ensures UniqueIds(Drop(ts, id))
  {
    if ts == [] {
    } else {
      assert ts == [ts[0]] + ts[1..];
      if ts[0].info.id != id {
        DropHas(ts[1..], id);
        var r := Drop(ts[1..], id);
        forall k | 0 <= k < |r| ensures r[k].info.id != ts[0].info.id { assert r[k] in r; }
      }
    }
  }

  lemma PutFile(project: string, ts: seq<Task>, task: Task)
    requires ts == [] || FileOk(project, ts)
    requires task.info.project == project != ""
    ensures FileOk(project, Put(ts, task))
  {
    PutHas(ts, task);
    var r := Put(ts, task);
    forall i | 0 <= i < |r| ensures r[i].info.project == project { assert r[i] in r; }
  }

  lemma DropFile(project: string, ts: seq<Task>, id: string)
    requires FileOk(project, ts)
    ensures Drop(ts, id) != [] ==> FileOk(project, Drop(ts, id))
  {
    DropHas(ts, id);
    var r := Drop(ts, id);
    forall i | 0 <= i < |r| ensures r[i].info.project == project { assert r[i] in r; }
  }

  function FileOf(files: Files, project: string): seq<Task> { if project in files then files[project] else [] }

  /** Saving adds the task, and takes away only its earlier version. */
  lemma SavedStored(files: Files, task: Task)
    requires Consistent(files) && task.info.project != ""
    ensures
      var files' := files[task.info.project := Put(FileOf(files, task.info.project), task)];
      Consistent(files') && Stored(files') == Except(Stored(files), task.info.id, task.info.project) + {task}
  {
    var ts := FileOf(files, task.info.project);
    PutFile(task.info.project, ts, task);
    PutHas(ts, task);
    var files' := files[task.info.project := Put(ts, task)];
    forall t ensures t in Stored(files') <==> t in Except(Stored(files), task.info.id, task.info.project) + {task} {
      if t.info.project == task.info.project {
        assert t in Stored(files) <==> t in ts by { InOwnFile(files, t); }
        assert t in Stored(files') <==> t in Put(ts, task) by { InOwnFile(files', t); }
      } else {
        InOwnFile(files, t);
        InOwnFile(files', t);
      }
    }
  }

  lemma RemovedStored(files: Files, id: string, project: string)
    requires Consistent(files) && project in files
    ensures
      var rest := Drop(files[project], id);
      var files' := if rest == [] then files - {project} else files[project := rest];
      Consistent(files') && Stored(files') == Except(Stored(files), id, project)
  {
    var ts := files[project];
    var rest := Drop(ts, id);
    DropFile(project, ts, id);
    DropHas(ts, id);
    var files' := if rest == [] then files - {project} else files[project := rest];
    forall t ensures t in Stored(files') <==> t in Except(Stored(files), id, project) {
      InOwnFile(files, t);
      InOwnFile(files', t);
    }
  }

  lemma InOwnFile(files: Files, t: Task)
    requires Consistent(files)
    ensures t in Stored(files) <==> t in FileOf(files, t.info.project)
  {
    if t in Stored(files) {
      var p :| p in files && t in files[p];
      var i :| 0 <= i < |files[p]| && files[p][i] == t;
      assert FileOk(p, files[p]);
    }
  }

  /** The loop of SaveTask over one file's tasks. */
  method PutInPlace(before: seq<Task>, task: Task) returns (tasks: seq<Task>)
    ensures tasks == Put(before, task)
  {
    tasks := before;
    var i := 0;
    while i < |tasks|
      invariant 0 <= i <= |before| && tasks == before && Put(before, task) == before[..i] + Put(before[i..], task)
    {
      if tasks[i].info.id == task.info.id {
        assert before[i..][1..] == before[i + 1..];
        tasks := tasks[i := task];
        return;
      }
      assert before[i..][1..] == before[i + 1..] && before[..i + 1] == before[..i] + [before[i]];
      i := i + 1;
    }
    tasks := tasks + [task];
  }

  /** The loop of RemoveTask over one file's tasks. */
  method DropInPlace(before: seq<Task>, id: string) returns (tasks: seq<Task>)
    ensures tasks == Drop(before, id)
  {
    tasks := before;
    var i := 0;
    while i < |tasks|
      invariant 0 <= i <= |before| && tasks == before && Drop(before, id) == before[..i] + Drop(before[i..], id)
    {
      if tasks[i].info.id == id {
        tasks := tasks[..i] + tasks[i + 1..];
        return;
      }
      i := i + 1;
    }
  }

  // ------------------------------------------------------------ the state manager

  /** The file system; it outlives the daemon. */
  class Disk {
    var files: Files

    constructor ()
      ensures files == map[]
    {
      files := map[];
    }
  }

  class StateManager {
    const disk: Disk
    var knownProjects: set<string>

    constructor (disk: Disk)
      ensures this.disk == disk && knownProjects == {}
    {
      this.disk := disk;
      knownProjects := {};
    }

    ghost predicate Valid()
      reads this, disk
    {
      Consistent(disk.files)
    }

    /** saves: whether the file system lets the file be written. */
    method SaveTask(task: Task, saves: bool) returns (ok: bool)
      requires Valid()
      modifies this, disk
      ensures Valid() && ok == (saves && task.info.project != "")
      ensures !ok ==> disk.files == old(disk.files) && knownProjects == old(knownProjects)
      ensures ok ==>
        && Stored(disk.files) == Except(old(Stored(disk.files)), task.info.id, task.info.project) + {task}
        && (forall p :: p != task.info.project ==> (p in disk.files <==> p in old(disk.files)))
        && task.info.project in disk.files && knownProjects == old(knownProjects) + {task.info.project}
    {
      if task.info.project == "" { return false; }
      var before := if task.info.project in disk.files then disk.files[task.info.project] else [];
      var tasks := PutInPlace(before, task);
      if !saves { return false; }
      SavedStored(disk.files, task);
      disk.files := disk.files[task.info.project := tasks];
      knownProjects := knownProjects + {task.info.project};
      ok := true;
    }

    method RemoveTask(id: string, project: string, saves: bool) returns (ok: bool)
      requires Valid()
      modifies this, disk
      ensures Valid() && ok == (project != "" && (saves || project !in old(disk.files)))
      ensures !ok ==> disk.files == old(disk.files) && knownProjects == old(knownProjects)
      ensures ok ==>
        && Stored(disk.files) == Except(old(Stored(disk.files)), id, project)
        && (forall p :: p != project ==> (p in disk.files <==> p in old(disk.files)))
        && knownProjects == if project in old(disk.files) && project !in disk.files
                            then old(knownProjects) - {project} else old(knownProjects)
    {
      if project == "" { return false; }
      if project !in disk.files {
        NothingStored(disk.files, id, project);
        return true;
      }
      var before := disk.files[project];
      var tasks := DropInPlace(before, id);
      if !saves { return false; }
      RemovedStored(disk.files, id, project);
      if |tasks| == 0 {
        disk.files := disk.files - {project};
        knownProjects := knownProjects - {project};
        return true;
      }
      disk.files := disk.files[project := tasks];
      ok := true;
    }

    method LoadTasks(project: string) returns (tasks: seq<Task>)
      requires Valid()
      modifies this`knownProjects
      ensures Valid() && tasks == FileOf(disk.files, project)
      ensures knownProjects == if project in disk.files then old(knownProjects) + {project} else old(knownProjects)
    {
      if project !in disk.files { return []; }
      knownProjects := knownProjects + {project};
      tasks := disk.files[project];
    }

    /** Every task in the files of the known projects, each once, in some order. */
    method LoadAllTasks() returns (result: seq<Task>)
      requires Valid()
      modifies this`knownProjects
      ensures Valid() && knownProjects == old(knownProjects)
      ensures Lists(result, StoredIn(disk.files, knownProjects))
    {
      result := [];
      var todo := knownProjects;
      while todo != {}
        invariant knownProjects == old(knownProjects) && todo <= knownProjects
        invariant Lists(result, StoredIn(disk.files, knownProjects - todo))
        decreases |todo|
      {
        HasMember(todo);
        var p :| p in todo;
        var tasks := LoadTasks(p);
        LoadedMore(disk.files, knownProjects - todo, p, result, tasks);
        assert knownProjects - todo + {p} == knownProjects - (todo - {p});
        todo := todo - {p};
        result := result + tasks;
      }
    }

    method ScanForProjects(basePaths: seq<string>)
      modifies this`knownProjects
      ensures knownProjects == old(knownProjects) + set p | p in basePaths && p in disk.files
    {
      for i := 0 to |basePaths|
        invariant knownProjects == old(knownProjects) + set p | p in basePaths[..i] && p in disk.files
      {
        if basePaths[i] in disk.files { knownProjects := knownProjects + {basePaths[i]}; }
      }
    }
  }

  lemma NothingStored(files: Files, id: string, project: string)
    requires Consistent(files) && project !in files
    ensures Except(Stored(files), id, project) == Stored(files)
  {
    forall t | t in Stored(files) ensures t.info.project != project { InOwnFile(files, t); }
  }

  /** Every stored task once, in some order. */
  ghost predicate Lists(result: seq<Task>, stored: set<Task>) {
    && (forall t :: t in result <==> t in stored)
    && forall i, k :: 0 <= i < k < |result| ==> !SameTask(result[i], result[k].info.id, result[k].info.project)
  }

  lemma LoadedMore(files: Files, done: set<string>, p: string, result: seq<Task>, tasks: seq<Task>)
    requires Consistent(files) && p !in done && tasks == FileOf(files, p) && Lists(result, StoredIn(files, done))
    ensures Lists(result + tasks, StoredIn(files, done + {p}))
  {
    var r := result + tasks;
    if p in files { assert FileOk(p, files[p]); }
    forall i, k | 0 <= i < k < |r| ensures !SameTask(r[i], r[k].info.id, r[k].info.project) {
      if i < |result| <= k {
        assert result[i] in result;
        var q :| q in done && q in files && result[i] in files[q];
        var n :| 0 <= n < |files[q]| && files[q][n] == result[i];
        assert FileOk(q, files[q]);
      }
    }
  }

  // ------------------------------------------------------------ a run, and a restart

  /** What the storage is asked to do. */
  datatype Op = Save(task: Task) | Remove(id: string, project: string)

  /** What is stored after one operation. */
  ghost function Performed(start: set<Task>, op: Op): set<Task> {
    match op
    case Save(t) => Except(start, t.info.id, t.info.project) + {t}
    case Remove(id, project) => Except(start, id, project)
  }

  /** What is stored after these operations, if all succeed. */
  ghost function StoredAfter(start: set<Task>, ops: seq<Op>): set<Task>
    decreases |ops|
  {
    if ops == [] then start else StoredAfter(Performed(start, ops[0]), ops[1..])
  }

  predicate OpOk(op: Op) {
    match op
    case Save(t) => t.info.project != ""
    case Remove(_, project) => project != ""
  }

  /** The operations in order, all succeeding. */
  method Perform(m: StateManager, ops: seq<Op>)
    requires m.Valid() && forall i :: 0 <= i < |ops| ==> OpOk(ops[i])
    modifies m, m.disk
    ensures m.Valid() && Stored(m.disk.files) == StoredAfter(old(Stored(m.disk.files)), ops)
  {
    ghost var start := Stored(m.disk.files);
    for i := 0 to |ops|
      invariant m.Valid() && StoredAfter(Stored(m.disk.files), ops[i..]) == StoredAfter(start, ops)
    {
      assert ops[i..][1..] == ops[i + 1..];
      assert OpOk(ops[i]);
      match ops[i] {
        case Save(t) => var ok := m.SaveTask(t, true);
        case Remove(id, project) => var ok := m.RemoveTask(id, project, true);
      }
    }
  }

  /** Different tasks have different IDs, also across projects. */
  predicate DistinctIds(ts: set<Task>) {
    forall t, u :: t in ts && u in ts && t.info.id == u.info.id ==> t == u
  }

  /** A counter from which no ID of these tasks is ever issued, unless it wraps around. */
  ghost predicate FreshFrom(base: int, ts: set<Task>) {
    0 <= base <= MAX64 &&
    forall t, k :: t in ts && 0 < k && base + k <= MAX64 ==> t.info.id != Issued(base, k)
  }

  /** The restoring part of Start, on a fresh manager: the task map and the ID counter. */
  method Restore(disk: Disk, scanPaths: seq<string>) returns (tasks: map<string, Task>, nextTaskID: int)
    requires Consistent(disk.files)
    ensures disk.files == old(disk.files)
    ensures
      var found := StoredIn(disk.files, set p | p in scanPaths && p in disk.files);
      && (forall id :: id in tasks ==> tasks[id].info.id == id && tasks[id].status == Pending && tasks[id] in found)
      && (forall t :: t in found && t.status == Pending ==> t.info.id in tasks)
      && (DistinctIds(found) ==> forall t :: t in found && t.status == Pending ==> tasks[t.info.id] == t)
      && FreshFrom(nextTaskID, found)
  {
    var m := new StateManager(disk);
    m.ScanForProjects(scanPaths);
    assert m.knownProjects == set p | p in scanPaths && p in disk.files;
    var loaded := m.LoadAllTasks();
    tasks := map[];
    var maxID := 0;
    ghost var ids: seq<string> := [];
    for i := 0 to |loaded|
      invariant disk.files == old(disk.files)
      invariant maxID == MaxId(ids) && ids == Ids(loaded[..i])
      invariant forall id :: id in tasks ==>
          tasks[id].info.id == id && tasks[id].status == Pending && tasks[id] in loaded[..i]
      invariant forall k :: 0 <= k < i && loaded[k].status == Pending ==> loaded[k].info.id in tasks
    {
      var task := loaded[i];
      var num := ParseTaskIDNum(task.info.id);
      assert Ids(loaded[..i + 1])[..i] == ids;
      if num.Some? && num.value > maxID { maxID := num.value; }
      ids := Ids(loaded[..i + 1]);
      if task.status == Pending { tasks := tasks[task.info.id := task]; }
    }
    assert loaded[..|loaded|] == loaded;
    nextTaskID := 0;
    if maxID > nextTaskID { nextTaskID := maxID; }
    LoadedFresh(loaded, nextTaskID);
  }

  function Ids(ts: seq<Task>): seq<string> { seq(|ts|, i requires 0 <= i < |ts| => ts[i].info.id) }

  lemma LoadedFresh(loaded: seq<Task>, base: int)
    requires base == MaxId(Ids(loaded))
    ensures FreshFrom(base, set t | t in loaded)
  {
    forall t, k | t in loaded && 0 < k && base + k <= MAX64 ensures t.info.id != Issued(base, k) {
      var i :| 0 <= i < |loaded| && loaded[i] == t;
      assert Ids(loaded)[i] == t.info.id;
      AboveMax(Ids(loaded), base + k);
      WrapExact(base + k);
    }
  }
}
