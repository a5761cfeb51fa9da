/** The processes below a process, from one snapshot of the process table. */
module Descendants {

  datatype ProcEntry = ProcEntry(pid: int, ppid: int)

  /** Consecutive processes of the path are parent and child in the snapshot. */
  predicate Linked(procs: seq<ProcEntry>, path: seq<int>) {
    forall k :: 0 < k < |path| ==> ProcEntry(path[k], path[k - 1]) in procs
  }

  /** A chain of parent links leads from the root to x. */
  ghost predicate Descends(procs: seq<ProcEntry>, root: int, x: int) {
    exists path :: IsPath(procs, path, root, x)
  }

  predicate IsPath(procs: seq<ProcEntry>, path: seq<int>, root: int, x: int) {
    path != [] && path[0] == root && path[|path| - 1] == x && Linked(procs, path)
  }

  function Pids(procs: seq<ProcEntry>): set<int> { set p | p in procs :: p.pid }

  /** No process outside the set has its parent inside. */
  predicate Closed(procs: seq<ProcEntry>, s: set<int>) {
    forall p :: p in procs && p.ppid in s ==> p.pid in s
  }

  lemma RootDescends(procs: seq<ProcEntry>, root: int)
    ensures Descends(procs, root, root)
  {
    assert IsPath(procs, [root], root, root);
  }

  lemma ChildDescends(procs: seq<ProcEntry>, root: int, p: ProcEntry)
    requires p in procs && Descends(procs, root, p.ppid)
    ensures Descends(procs, root, p.pid)
  {
    var path :| IsPath(procs, path, root, p.ppid);
    assert IsPath(procs, path + [p.pid], root, p.pid);
  }

  lemma {:induction false} ClosedHolds(procs: seq<ProcEntry>, s: set<int>, path: seq<int>)
    requires Closed(procs, s) && path != [] && Linked(procs, path) && path[0] in s
    ensures path[|path| - 1] in s
  {
    if |path| <= 1 {
    } else {
      assert ProcEntry(path[1], path[0]) in procs;
      ClosedHolds(procs, s, path[1..]);
    }
  }

  /** The processes still outside the set. */
  function Outside(procs: seq<ProcEntry>, s: set<int>): set<int> { Pids(procs) - s }

  /** The walk over the process table: whatever the parent relation, even a cyclic one, it
      ends, and returns every descendant of the root once, and nothing else. */
  method FindAllDescendants(procs: seq<ProcEntry>, root: int) returns (result: seq<int>)
    ensures forall x :: x in result <==> x != root && Descends(procs, root, x)
    ensures forall i, k :: 0 <= i < k < |result| ==> result[i] != result[k]
  {
    var s := {root};
    RootDescends(procs, root);
    var added := true;
    while added
      invariant root in s && forall x :: x in s ==> Descends(procs, root, x)
      invariant !added ==> Closed(procs, s)
      decreases Outside(procs, s), added
    {
      added := false;
      ghost var before := s;
      for i := 0 to |procs|
        invariant before <= s && forall x :: x in s ==> Descends(procs, root, x)
        invariant if added then Outside(procs, s) < Outside(procs, before) else s == before
        invariant !added ==> forall k :: 0 <= k < i && procs[k].ppid in s ==> procs[k].pid in s
      {
        var p := procs[i];
        if p.pid !in s && p.ppid in s {
          ChildDescends(procs, root, p);
          assert p.pid in Outside(procs, before) && p.pid !in Outside(procs, s + {p.pid});
          s := s + {p.pid};
          added := true;
        }
      }
    }
    forall x | Descends(procs, root, x) ensures x in s {
      var path :| IsPath(procs, path, root, x);
      ClosedHolds(procs, s, path);
    }
    result := ListWithout(s, root);
  }

  /** The members of a set other than one, in the order the set happens to yield them. */
  method ListWithout(s: set<int>, root: int) returns (result: seq<int>)
    ensures forall x :: x in result <==> x in s && x != root
    ensures forall i, k :: 0 <= i < k < |result| ==> result[i] != result[k]
  {
    result := [];
    var todo := s;
    while todo != {}
      invariant todo <= s
      invariant forall x :: x in result <==> x in s && x !in todo && x != root
      invariant forall i, k :: 0 <= i < k < |result| ==> result[i] != result[k]
      decreases |todo|
    {
      assert exists pid :: pid in todo by { assert (forall pid :: pid !in todo) ==> todo == {}; }
      var pid :| pid in todo;
      todo := todo - {pid};
      if pid != root { result := result + [pid]; }
    }
  }
}
