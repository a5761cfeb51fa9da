/** The file-based tracker of process IDs, and what it may kill. */
module PidTracker {
  import opened Prelude
  import opened Descendants

  datatype Tracked = Tracked(id: string, pid: int, pgid: int, project: string, identity: string,
                             descendants: seq<int>, descendantIds: map<int, string>)

  datatype Tracking = Tracking(daemonPid: int, processes: seq<Tracked>)

  /** One call of killOrphanProcess; it signals the group pgid as well when pgid == pid > 1. */
  datatype Kill = Kill(pid: int, pgid: int)

  /** What the operating system answers, after the kills made so far: whether a process is
      alive, and its identity token ("" when it has none). */
  datatype Os = Os(alive: (seq<Kill>, int) -> bool, identity: (seq<Kill>, int) -> string)

  /** A descendant identity taken by the scanner while its parent was alive. */
  datatype Capture = Capture(owner: int, pid: int, identity: string)

  datatype Verified = Verified(pid: int, identity: string)

  const EMPTY := Tracking(0, [])

  // ------------------------------------------------------------ the process list

  predicate Same(p: Tracked, id: string, project: string) { p.id == id && p.project == project }

  /** At most one entry per ID and project. */
  predicate Unique(ps: seq<Tracked>) {
    forall i, k :: 0 <= i < k < |ps| ==> !Same(ps[k], ps[i].id, ps[i].project)
  }

  function Without(ps: seq<Tracked>, id: string, project: string): seq<Tracked> {
    if ps == [] then []
    else (if Same(ps[0], id, project) then [] else [ps[0]]) + Without(ps[1..], id, project)
  }

  /** Exactly the entries without that ID and project remain. */
  lemma {:induction false} WithoutHas(ps: seq<Tracked>, id: string, project: string)
    ensures forall p :: p in Without(ps, id, project) <==> p in ps && !Same(p, id, project)
  {
    if ps == [] {
    } else {
      WithoutHas(ps[1..], id, project);
      assert ps == [ps[0]] + ps[1..];
    }
  }

  lemma {:induction false} WithoutUnique(ps: seq<Tracked>, id: string, project: string)
    requires Unique(ps)
    ensures Unique(Without(ps, id, project))
  {
    if ps == [] {
    } else {
      WithoutHas(ps[1..], id, project);
      var rest := Without(ps[1..], id, project);
      WithoutUnique(ps[1..], id, project);
      forall k | 0 <= k < |rest| ensures !Same(rest[k], ps[0].id, ps[0].project) {
        assert rest[k] in ps[1..];
      }
    }
  }

  /** Replacing whatever has the ID and project keeps the list unique. */
  lemma WithoutAppend(ps: seq<Tracked>, id: string, project: string, p: Tracked)
    requires Unique(ps) && Same(p, id, project)
    ensures Unique(Without(ps, id, project) + [p])
  {
    WithoutUnique(ps, id, project);
    WithoutHas(ps, id, project);
    var r := Without(ps, id, project);
    forall i | 0 <= i < |r| ensures !Same(p, r[i].id, r[i].project) { assert r[i] in r; }
  }

  lemma WithoutStep(ps: seq<Tracked>, i: nat, id: string, project: string)
    requires i < |ps|
    ensures
      var rest := Without(ps[i + 1..], id, project);
      Without(ps[i..], id, project) == (if Same(ps[i], id, project) then [] else [ps[i]]) + rest
    ensures ps[..i + 1] == ps[..i] + [ps[i]]
  {
    assert ps[i..][1..] == ps[i + 1..];
  }

  /** The loop that deletes in place, from the last index down. */
  method DeleteMatching(processes: seq<Tracked>, id: string, project: string) returns (ps: seq<Tracked>)
    ensures ps == Without(processes, id, project)
  {
    ps := processes;
    var i := |ps| - 1;
    while i >= 0
      invariant -1 <= i < |processes|
      invariant ps == processes[..i + 1] + Without(processes[i + 1..], id, project)
    {
      var p := ps[i];
      ghost var rest := Without(processes[i + 1..], id, project);
      WithoutStep(processes, i, id, project);
      assert ps == processes[..i] + [p] + rest;
      if p.id == id && p.project == project {
        ps := ps[..i] + ps[i + 1..];
        assert ps == processes[..i] + rest;
      }
      i := i - 1;
    }
    assert processes[0..] == processes;
  }

  // ------------------------------------------------------------ checks before a kill

  predicate IdentityMatches(os: Os, past: seq<Kill>, p: Tracked) {
    p.identity == "" || os.identity(past, p.pid) == p.identity
  }

  predicate DescendantMatches(os: Os, past: seq<Kill>, ids: map<int, string>, pid: int) {
    pid in ids && ids[pid] != "" && os.identity(past, pid) == ids[pid]
  }

  /** The kills made so far, and those of the listed processes that pass their check. */
  function KillListed(os: Os, ids: map<int, string>, pids: seq<int>, past: seq<Kill>): seq<Kill> {
    if pids == [] then past
    else
      var past', d := KillListed(os, ids, pids[..|pids| - 1], past), pids[|pids| - 1];
      if os.alive(past', d) && DescendantMatches(os, past', ids, d) then past' + [Kill(d, 0)] else past'
  }

  function KillAll(os: Os, ps: seq<Tracked>, past: seq<Kill>): seq<Kill> {
    if ps == [] then past
    else
      var past' := KillAll(os, ps[..|ps| - 1], past);
      var p := ps[|ps| - 1];
      if os.alive(past', p.pid) && IdentityMatches(os, past', p)
      then KillListed(os, p.descendantIds, p.descendants, past') + [Kill(p.pid, p.pgid)]
      else past'
  }

  // ------------------------------------------------------------ who is killed, and who is not

  /** The process is alive after these kills, and the identity the system reports for it
      then is the one recorded for it. */
  predicate Recognised(os: Os, past: seq<Kill>, ids: map<int, string>, pid: int) {
    os.alive(past, pid) && pid in ids && ids[pid] != "" && os.identity(past, pid) == ids[pid]
  }

  /** The tracked process is alive after these kills, and if an identity was recorded for
      it, the system reports that one then. */
  predicate StillOurs(os: Os, past: seq<Kill>, p: Tracked) {
    os.alive(past, p.pid) && (p.identity != "" ==> os.identity(past, p.pid) == p.identity)
  }

  /** The k-th listed process had its turn when at[k] kills had been made; it was killed
      then exactly if it was recognised. */
  ghost predicate ListedAt(os: Os, ids: map<int, string>, pids: seq<int>, kills: seq<Kill>, at: seq<nat>, k: nat)
    requires k < |pids| && |at| == |pids| + 1
  {
    && at[k] <= |kills|
    && if Recognised(os, kills[..at[k]], ids, pids[k])
       then at[k] < |kills| && kills[at[k]] == Kill(pids[k], 0) && at[k + 1] == at[k] + 1
       else at[k + 1] == at[k]
  }

  ghost predicate ListedBy(os: Os, ids: map<int, string>, pids: seq<int>, kills: seq<Kill>, from: nat, to: nat,
                           at: seq<nat>) {
    && |at| == |pids| + 1 && at[0] == from && at[|pids|] == to
    && forall k :: 0 <= k < |pids| ==> ListedAt(os, ids, pids, kills, at, k)
  }

  /** A pass over listed processes makes exactly the kills from one count to another. */
  ghost predicate Listed(os: Os, ids: map<int, string>, pids: seq<int>, kills: seq<Kill>, from: nat, to: nat) {
    exists at :: ListedBy(os, ids, pids, kills, from, to, at)
  }

  /** The turn of one tracked process: if it is still ours, its recognised descendants are
      killed in order and then the process itself; otherwise nothing is. */
  ghost predicate Turn(os: Os, p: Tracked, kills: seq<Kill>, from: nat, to: nat) {
    && from <= |kills|
    && if StillOurs(os, kills[..from], p)
       then 0 < to <= |kills| && kills[to - 1] == Kill(p.pid, p.pgid)
         && Listed(os, p.descendantIds, p.descendants, kills, from, to - 1)
       else to == from
  }

  ghost predicate SweptBy(os: Os, ps: seq<Tracked>, kills: seq<Kill>, turns: seq<nat>) {
    && |turns| == |ps| + 1 && turns[0] == 0 && turns[|ps|] == |kills|
    && forall i :: 0 <= i < |ps| ==> Turn(os, ps[i], kills, turns[i], turns[i + 1])
  }

  /** The kills are exactly those of the tracked processes' turns, one after the other. */
  ghost predicate Swept(os: Os, ps: seq<Tracked>, kills: seq<Kill>) {
    exists turns :: SweptBy(os, ps, kills, turns)
  }

  lemma ListedLonger(os: Os, ids: map<int, string>, pids: seq<int>, kills: seq<Kill>, more: seq<Kill>, from: nat,
                     to: nat, at: seq<nat>)
    requires ListedBy(os, ids, pids, kills, from, to, at)
    ensures ListedBy(os, ids, pids, kills + more, from, to, at)
  {
    var all := kills + more;
    forall k | 0 <= k < |pids| ensures ListedAt(os, ids, pids, all, at, k) {
      assert ListedAt(os, ids, pids, kills, at, k);
      assert all[..at[k]] == kills[..at[k]];
    }
  }

  /** One more listed process. */
  lemma ListedMore(os: Os, ids: map<int, string>, front: seq<int>, d: int, past: seq<Kill>, from: nat, at: seq<nat>)
    requires ListedBy(os, ids, front, past, from, |past|, at)
    ensures
      var kills := if Recognised(os, past, ids, d) then past + [Kill(d, 0)] else past;
      ListedBy(os, ids, front + [d], kills, from, |kills|, at + [|kills|])
  {
    var more := if Recognised(os, past, ids, d) then [Kill(d, 0)] else [];
    var kills, pids := past + more, front + [d];
    ListedLonger(os, ids, front, past, more, from, |past|, at);
    assert past + [] == past;
    var at' := at + [|kills|];
    forall k | 0 <= k < |pids| ensures ListedAt(os, ids, pids, kills, at', k) {
      if k < |front| {
        assert ListedAt(os, ids, front, kills, at, k);
      } else {
        assert kills[..at'[k]] == past;
      }
    }
  }

  /** A pass kills exactly the listed processes that are recognised at their turn. */
  lemma {:induction false} ListedExact(os: Os, ids: map<int, string>, pids: seq<int>, past: seq<Kill>)
    ensures past <= KillListed(os, ids, pids, past)
    ensures Listed(os, ids, pids, KillListed(os, ids, pids, past), |past|, |KillListed(os, ids, pids, past)|)
  {
    if pids == [] {
      assert ListedBy(os, ids, pids, past, |past|, |past|, [|past|]);
    } else {
      var front, d := pids[..|pids| - 1], pids[|pids| - 1];
      var past' := KillListed(os, ids, front, past);
      ListedExact(os, ids, front, past);
      var at :| ListedBy(os, ids, front, past', |past|, |past'|, at);
      ListedMore(os, ids, front, d, past', |past|, at);
      assert pids == front + [d];
    }
  }

  lemma TurnLonger(os: Os, p: Tracked, kills: seq<Kill>, more: seq<Kill>, from: nat, to: nat)
    requires Turn(os, p, kills, from, to)
    ensures Turn(os, p, kills + more, from, to)
  {
    assert (kills + more)[..from] == kills[..from];
    if StillOurs(os, kills[..from], p) {
      var at :| ListedBy(os, p.descendantIds, p.descendants, kills, from, to - 1, at);
      ListedLonger(os, p.descendantIds, p.descendants, kills, more, from, to - 1, at);
    }
  }

  lemma LastTurn(os: Os, p: Tracked, past: seq<Kill>, kills: seq<Kill>)
    requires kills ==
      if os.alive(past, p.pid) && IdentityMatches(os, past, p)
      then KillListed(os, p.descendantIds, p.descendants, past) + [Kill(p.pid, p.pgid)] else past
    ensures past <= kills && Turn(os, p, kills, |past|, |kills|)
  {
    ListedExact(os, p.descendantIds, p.descendants, past);
    if os.alive(past, p.pid) && IdentityMatches(os, past, p) {
      var ds := KillListed(os, p.descendantIds, p.descendants, past);
      var at :| ListedBy(os, p.descendantIds, p.descendants, ds, |past|, |ds|, at);
      ListedLonger(os, p.descendantIds, p.descendants, ds, [Kill(p.pid, p.pgid)], |past|, |ds|, at);
    }
    assert kills[..|past|] == past;
  }

  /** One more tracked process. */
  lemma SweptMore(os: Os, front: seq<Tracked>, p: Tracked, past: seq<Kill>, more: seq<Kill>, turns: seq<nat>)
    requires SweptBy(os, front, past, turns) && Turn(os, p, past + more, |past|, |past + more|)
    ensures SweptBy(os, front + [p], past + more, turns + [|past + more|])
  {
    var kills, ps, turns' := past + more, front + [p], turns + [|past + more|];
    forall i | 0 <= i < |ps| ensures Turn(os, ps[i], kills, turns'[i], turns'[i + 1]) {
      if i < |front| { TurnLonger(os, front[i], past, more, turns[i], turns[i + 1]); }
    }
  }

  /** Orphan cleanup kills exactly the tracked processes that are still ours when their turn
      comes, each behind its recognised descendants, whatever the system answers. */
  lemma {:induction false} SweptExact(os: Os, ps: seq<Tracked>)
    ensures Swept(os, ps, KillAll(os, ps, []))
  {
    if ps == [] {
      assert SweptBy(os, ps, [], [0]);
    } else {
      var front, p := ps[..|ps| - 1], ps[|ps| - 1];
      var past, kills := KillAll(os, front, []), KillAll(os, ps, []);
      SweptExact(os, front);
      LastTurn(os, p, past, kills);
      var turns :| SweptBy(os, front, past, turns);
      assert kills == past + kills[|past|..];
      SweptMore(os, front, p, past, kills[|past|..], turns);
      assert ps == front + [p];
    }
  }

  /** The kill is of a tracked process that was still ours when its turn came, or of a listed
      descendant of one that was recognised just before its kill. */
  ghost predicate Authorised(os: Os, ps: seq<Tracked>, kills: seq<Kill>, n: nat)
    requires n < |kills|
  {
    exists i, m :: 0 <= i < |ps| && 0 <= m <= n && StillOurs(os, kills[..m], ps[i]) &&
      (kills[n] == Kill(ps[i].pid, ps[i].pgid)
       || (kills[n].pid in ps[i].descendants && kills[n].pgid == 0
           && Recognised(os, kills[..n], ps[i].descendantIds, kills[n].pid)))
  }

  lemma {:induction false} ListedSound(os: Os, ids: map<int, string>, pids: seq<int>, past: seq<Kill>)
    ensures
      var kills := KillListed(os, ids, pids, past);
      past <= kills &&
      forall n :: |past| <= n < |kills| ==>
        kills[n].pid in pids && kills[n].pgid == 0 && Recognised(os, kills[..n], ids, kills[n].pid)
  {
    if pids == [] {
    } else {
      var front := pids[..|pids| - 1];
      ListedSound(os, ids, front, past);
      var past', kills := KillListed(os, ids, front, past), KillListed(os, ids, pids, past);
      forall n | |past| <= n < |kills|
        ensures kills[n].pid in pids && kills[n].pgid == 0 && Recognised(os, kills[..n], ids, kills[n].pid)
      {
        if n < |past'| {
          assert kills[..n] == past'[..n] && kills[n] == past'[n];
        } else {
          assert kills[..n] == past';
        }
      }
    }
  }

  /** Orphan cleanup signals only tracked processes and listed descendants that are, at that
      moment, the processes once recorded, whatever the system answers. */
  lemma {:induction false} OnlyAuthorised(os: Os, ps: seq<Tracked>, n: nat)
    requires n < |KillAll(os, ps, [])|
    ensures Authorised(os, ps, KillAll(os, ps, []), n)
  {
    var front, p := ps[..|ps| - 1], ps[|ps| - 1];
    var past, kills := KillAll(os, front, []), KillAll(os, ps, []);
    ListedSound(os, p.descendantIds, p.descendants, past);
    if n < |past| {
      OnlyAuthorised(os, front, n);
      var i, m :| 0 <= i < |front| && 0 <= m <= n && StillOurs(os, past[..m], front[i]) &&
        (past[n] == Kill(front[i].pid, front[i].pgid)
         || (past[n].pid in front[i].descendants && past[n].pgid == 0
             && Recognised(os, past[..n], front[i].descendantIds, past[n].pid)));
      assert kills[..m] == past[..m] && kills[..n] == past[..n] && ps[i] == front[i];
    } else {
      var ds := KillListed(os, p.descendantIds, p.descendants, past);
      assert kills[..|past|] == past && ps[|ps| - 1] == p;
      if n < |ds| { assert kills[..n] == ds[..n] && kills[n] == ds[n]; }
    }
  }

  // ------------------------------------------------------------ the tracker

  /** Identities cover only listed descendants, and each was captured by the scanner. */
  predicate FromScanner(p: Tracked, captured: set<Capture>) {
    forall d :: d in p.descendantIds ==> d in p.descendants && Capture(p.pid, d, p.descendantIds[d]) in captured
  }

  predicate First(ps: seq<Tracked>, pid: int, i: int) {
    0 <= i < |ps| && ps[i].pid == pid && forall k :: 0 <= k < i ==> ps[k].pid != pid
  }

  class FilePIDTracker {
    /** The tracking file, if it exists. */
    var file: Option<Tracking>
    /** Everything the scanner has ever captured. */
    ghost var captured: set<Capture>

    constructor ()
      ensures Valid() && file == None && captured == {}
    {
      file := None;
      captured := {};
    }

    function Current(): Tracking
      reads this
    {
      if file.Some? then file.value else EMPTY
    }

    ghost predicate Valid()
      reads this
    {
      && Unique(Current().processes)
      && forall i :: 0 <= i < |Current().processes| ==> FromScanner(Current().processes[i], captured)
    }

    method Save(t: Tracking, saves: bool)
      modifies this`file
      ensures file == if saves then Some(t) else old(file)
    {
      if saves { file := Some(t); }
    }

    /** saves: whether the file can be written; a failed save leaves the old file. */
    method Add(id: string, pid: int, pgid: int, project: string, identity: string, saves: bool)
      requires Valid()
      modifies this`file
      ensures Valid()
      ensures !saves ==> file == old(file)
      ensures saves ==>
        file == Some(old(Current()).(processes :=
          Without(old(Current()).processes, id, project) + [Tracked(id, pid, pgid, project, identity, [], map[])]))
    {
      var tracking := Current();
      var ps := DeleteMatching(tracking.processes, id, project);
      var entry := Tracked(id, pid, pgid, project, identity, [], map[]);
      WithoutAppend(tracking.processes, id, project, entry);
      WithoutHas(tracking.processes, id, project);
      assert forall i :: 0 <= i < |ps| ==> ps[i] in ps;
      Save(tracking.(processes := ps + [entry]), saves);
    }

    method Remove(id: string, project: string, saves: bool)
      requires Valid()
      modifies this`file
      ensures Valid()
      ensures !saves ==> file == old(file)
      ensures saves ==> file == Some(old(Current()).(processes := Without(old(Current()).processes, id, project)))
    {
      var tracking := Current();
      var ps := DeleteMatching(tracking.processes, id, project);
      WithoutUnique(tracking.processes, id, project);
      WithoutHas(tracking.processes, id, project);
      assert forall i :: 0 <= i < |ps| ==> ps[i] in ps;
      Save(tracking.(processes := ps), saves);
    }

    method SetDaemonPID(pid: int, saves: bool)
      requires Valid()
      modifies this`file
      ensures Valid() && file == if saves then Some(old(Current()).(daemonPid := pid)) else old(file)
    {
      Save(Current().(daemonPid := pid), saves);
    }

    method Clear()
      requires Valid()
      modifies this`file
      ensures Valid() && file == None
    {
      file := None;
    }

    /** The first entry with the PID gets the list, and loses its identities. */
    method UpdateDescendants(pid: int, descendants: seq<int>, saves: bool)
      requires Valid()
      modifies this`file
      ensures Valid()
      ensures
        var ps := old(Current()).processes;
        if !saves || (forall i :: 0 <= i < |ps| ==> ps[i].pid != pid) then file == old(file)
        else exists i ::
          First(ps, pid, i) && file == Some(old(Current()).(processes :=
            ps[i := ps[i].(descendants := descendants, descendantIds := map[])]))
    {
      var tracking := Current();
      var ps := tracking.processes;
      for i := 0 to |ps|
        invariant file == old(file)
        invariant forall k :: 0 <= k < i ==> ps[k].pid != pid
      {
        if ps[i].pid == pid {
          assert First(ps, pid, i);
          Save(tracking.(processes := ps[i := ps[i].(descendants := descendants, descendantIds := map[])]), saves);
          return;
        }
      }
    }

    /** The stored descendants of the first entry with the PID whose identity still matches
        the captured one, each with that captured identity. */
    method GetVerifiedDescendants(pid: int, os: Os) returns (result: seq<Verified>)
      requires Valid()
      ensures forall v :: v in result ==>
        Capture(pid, v.pid, v.identity) in captured && v.identity != "" && os.identity([], v.pid) == v.identity
      ensures AllVerified(os, Current().processes, pid, result)
    {
      var ps := Current().processes;
      for i := 0 to |ps|
        invariant forall k :: 0 <= k < i ==> ps[k].pid != pid
      {
        if ps[i].pid == pid {
          assert First(ps, pid, i);
          var p := ps[i];
          result := [];
          for k := 0 to |p.descendants|
            invariant result == VerifiedOf(os, p, p.descendants[..k])
          {
            assert p.descendants[..k + 1][..k] == p.descendants[..k];
            var d := p.descendants[k];
            if DescendantMatches(os, [], p.descendantIds, d) {
              result := result + [Verified(d, p.descendantIds[d])];
            }
          }
          assert p.descendants[..|p.descendants|] == p.descendants;
          VerifiedHas(os, p, p.descendants);
          return;
        }
      }
      result := [];
    }

    /** The background scan: tables gives the process table each entry's walk sees. */
    method ScanDescendants(os: Os, tables: nat -> seq<ProcEntry>, saves: bool)
      requires Valid()
      modifies this
      ensures Valid() && old(captured) <= captured
      ensures forall c :: c in captured - old(captured) ==> SeenBelow(os, tables, old(Current()).processes, c)
      ensures !saves ==> file == old(file)
      ensures saves ==>
        && Current().daemonPid == old(Current()).daemonPid
        && Scanned(os, tables, old(Current()).processes, Current().processes)
    {
      var tracking := Current();
      var ps := tracking.processes;
      if |ps| == 0 { return; }
      var changed := false;
      var now := ps;
      for i := 0 to |ps|
        invariant file == old(file) && old(captured) <= captured && (!changed ==> now == ps)
        invariant Scanning(os, tables, ps, now, i, captured)
        invariant forall c :: c in captured - old(captured) ==> SeenBelow(os, tables, ps, c)
      {
        var p := now[i];
        assert p == ps[i] by { assert now[i..][0] == ps[i..][0]; }
        if os.alive([], p.pid) {
          var ds := FindAllDescendants(tables(i), p.pid);
          var ids := DescendantIdentities(os, ds);
          ScanOne(os, tables, ps, now, i, captured, ds, ids);
          captured := captured + set d | d in ids :: Capture(p.pid, d, ids[d]);
          now := now[i := p.(descendants := ds, descendantIds := ids)];
          changed := true;
        }
      }
      UniqueScanned(os, tables, ps, now);
      if changed { Save(tracking.(processes := now), saves); }
    }

    /** The startup sweep; kills is everything it killed, in order. */
    method CleanupOrphans(current: int, os: Os, saves: bool) returns (kills: seq<Kill>, killedCount: nat)
      requires Valid()
      modifies this`file
      ensures Valid()
      ensures killedCount == |kills|
      ensures old(Current()).daemonPid == current ==> kills == []
      ensures old(Current()).daemonPid != current ==> kills == KillAll(os, old(Current()).processes, [])
      ensures old(Current()).daemonPid != current ==> Swept(os, old(Current()).processes, kills)
      ensures !saves ==> file == old(file)
      ensures saves && old(Current()).daemonPid == current ==> Current() == old(Current())
      ensures saves && old(Current()).daemonPid != current ==> Current() == Tracking(current, [])
    {
      var tracking := Current();
      kills, killedCount := [], 0;
      if tracking.daemonPid == current {
        Save(tracking, saves);
        return;
      }
      var ps := tracking.processes;
      for i := 0 to |ps|
        invariant kills == KillAll(os, ps[..i], []) && killedCount == |kills|
        invariant file == old(file)
      {
        var p := ps[i];
        assert ps[..i + 1][..i] == ps[..i];
        ghost var before := kills;
        if os.alive(kills, p.pid) && IdentityMatches(os, kills, p) {
          for k := 0 to |p.descendants|
            invariant kills == KillListed(os, p.descendantIds, p.descendants[..k], before) && killedCount == |kills|
          {
            assert p.descendants[..k + 1][..k] == p.descendants[..k];
            var d := p.descendants[k];
            if os.alive(kills, d) && DescendantMatches(os, kills, p.descendantIds, d) {
              kills := kills + [Kill(d, 0)];
              killedCount := killedCount + 1;
            }
          }
          assert p.descendants[..|p.descendants|] == p.descendants;
          kills := kills + [Kill(p.pid, p.pgid)];
          killedCount := killedCount + 1;
        }
      }
      assert ps[..|ps|] == ps;
      SweptExact(os, ps);
      Save(Tracking(current, []), saves);
    }
  }

  function VerifiedOf(os: Os, p: Tracked, pids: seq<int>): seq<Verified> {
    if pids == [] then []
    else
      var d := pids[|pids| - 1];
      VerifiedOf(os, p, pids[..|pids| - 1]) +
      if DescendantMatches(os, [], p.descendantIds, d) then [Verified(d, p.descendantIds[d])] else []
  }

  /** Exactly the listed processes whose identity is, at this moment, the recorded one; each
      with that identity. */
  lemma {:induction false} VerifiedHas(os: Os, p: Tracked, pids: seq<int>)
    ensures forall v: Verified :: v in VerifiedOf(os, p, pids) <==>
      && v.pid in pids && v.pid in p.descendantIds && p.descendantIds[v.pid] != ""
      && v.identity == p.descendantIds[v.pid] == os.identity([], v.pid)
  {
    if pids == [] {
    } else {
      VerifiedHas(os, p, pids[..|pids| - 1]);
      assert pids == pids[..|pids| - 1] + [pids[|pids| - 1]];
    }
  }

  /** The verified descendants of the first entry with the PID, in the order listed. */
  ghost predicate AllVerified(os: Os, ps: seq<Tracked>, pid: int, result: seq<Verified>) {
    if forall i :: 0 <= i < |ps| ==> ps[i].pid != pid then result == []
    else exists i :: First(ps, pid, i) && result == VerifiedOf(os, ps[i], ps[i].descendants)
  }

  /** What one scan leaves in an entry: exactly the descendants, and the identities of those
      that have one; nothing changes when the process is gone. */
  ghost predicate ScannedOne(os: Os, table: seq<ProcEntry>, p: Tracked, p': Tracked) {
    if os.alive([], p.pid) then
      && p' == p.(descendants := p'.descendants, descendantIds := p'.descendantIds)
      && (forall x :: x in p'.descendants <==> x != p.pid && Descends(table, p.pid, x))
      && (forall x :: x in p'.descendantIds <==> x in p'.descendants && os.identity([], x) != "")
      && (forall x :: x in p'.descendantIds ==> p'.descendantIds[x] == os.identity([], x))
    else p' == p
  }

  /** The identity of a live entry's descendant, as the scan found it. */
  ghost predicate SeenBelow(os: Os, tables: nat -> seq<ProcEntry>, ps: seq<Tracked>, c: Capture) {
    && os.alive([], c.owner) && c.identity == os.identity([], c.pid) != ""
    && exists k :: 0 <= k < |ps| && ps[k].pid == c.owner != c.pid && Descends(tables(k), c.owner, c.pid)
  }

  /** The entries before i have been scanned, the others are as they were, and every identity
      was captured. */
  ghost predicate Scanning(os: Os, tables: nat -> seq<ProcEntry>, ps: seq<Tracked>, now: seq<Tracked>, i: nat,
                           captured: set<Capture>)
    requires i <= |ps|
  {
    && |now| == |ps| && now[i..] == ps[i..]
    && (forall k :: 0 <= k < i ==> ScannedOne(os, tables(k), ps[k], now[k]))
    && (forall k :: 0 <= k < |ps| ==> FromScanner(now[k], captured))
  }

  lemma ScanOne(os: Os, tables: nat -> seq<ProcEntry>, ps: seq<Tracked>, now: seq<Tracked>, i: nat,
                captured: set<Capture>, ds: seq<int>, ids: map<int, string>)
    requires i < |ps| && Scanning(os, tables, ps, now, i, captured) && os.alive([], ps[i].pid)
    requires forall x :: x in ds <==> x != ps[i].pid && Descends(tables(i), ps[i].pid, x)
    requires forall x :: x in ids <==> x in ds && os.identity([], x) != ""
    requires forall x :: x in ids ==> ids[x] == os.identity([], x)
    ensures
      var fresh_ := set d | d in ids :: Capture(ps[i].pid, d, ids[d]);
      && Scanning(os, tables, ps, now[i := ps[i].(descendants := ds, descendantIds := ids)], i + 1, captured + fresh_)
      && forall c :: c in fresh_ ==> SeenBelow(os, tables, ps, c)
  {
    var now' := now[i := ps[i].(descendants := ds, descendantIds := ids)];
    assert now'[i + 1..] == ps[i + 1..] by { assert now[i..][1..] == now[i + 1..] && ps[i..][1..] == ps[i + 1..]; }
    forall k | 0 <= k < i ensures ScannedOne(os, tables(k), ps[k], now'[k]) { assert now'[k] == now[k]; }
  }

  ghost predicate Scanned(os: Os, tables: nat -> seq<ProcEntry>, ps: seq<Tracked>, ps': seq<Tracked>) {
    |ps'| == |ps| && forall i :: 0 <= i < |ps| ==> ScannedOne(os, tables(i), ps[i], ps'[i])
  }

  lemma UniqueScanned(os: Os, tables: nat -> seq<ProcEntry>, ps: seq<Tracked>, ps': seq<Tracked>)
    requires Unique(ps) && Scanned(os, tables, ps, ps')
    ensures Unique(ps')
  {
    forall i, k | 0 <= i < k < |ps'| ensures !Same(ps'[k], ps'[i].id, ps'[i].project) {
      assert ScannedOne(os, tables(i), ps[i], ps'[i]) && ScannedOne(os, tables(k), ps[k], ps'[k]);
    }
  }

  method DescendantIdentities(os: Os, descendants: seq<int>) returns (ids: map<int, string>)
    ensures forall x :: x in ids <==> x in descendants && os.identity([], x) != ""
    ensures forall x :: x in ids ==> ids[x] == os.identity([], x)
  {
    ids := map[];
    for i := 0 to |descendants|
      invariant forall x :: x in ids <==> x in descendants[..i] && os.identity([], x) != ""
      invariant forall x :: x in ids ==> ids[x] == os.identity([], x)
    {
      var pid := descendants[i];
      if os.identity([], pid) != "" { ids := ids[pid := os.identity([], pid)]; }
    }
  }

  /** Two sweeps in a row: once the first has been saved, the second kills nothing. */
  method SweepTwice(t: FilePIDTracker, current: int, os: Os, os': Os) returns (first: seq<Kill>, second: seq<Kill>)
    requires t.Valid()
    modifies t
    ensures t.Valid() && second == []
    ensures forall n :: 0 <= n < |first| ==> Authorised(os, old(t.Current()).processes, first, n)
    ensures old(t.Current()).daemonPid != current ==> t.Current() == Tracking(current, [])
  {
    ghost var ps := t.Current().processes;
    var a, _ := t.CleanupOrphans(current, os, true);
    first := a;
    forall n | 0 <= n < |first| ensures Authorised(os, ps, first, n) { OnlyAuthorised(os, ps, n); }
    var b, _ := t.CleanupOrphans(current, os', true);
    second := b;
  }

  // ------------------------------------------------------------ after a process was reaped

  predicate Trusted(v: Verified) { v.pid > 1 && v.identity != "" }

  function TrustedPids(verified: seq<Verified>): seq<int> {
    if verified == [] then []
    else
      var front, v := verified[..|verified| - 1], verified[|verified| - 1];
      TrustedPids(front) + if Trusted(v) then [v.pid] else []
  }

  predicate LastTrusted(verified: seq<Verified>, i: nat)
    requires i < |verified|
  {
    && Trusted(verified[i])
    && forall k :: i < k < |verified| && Trusted(verified[k]) ==> verified[k].pid != verified[i].pid
  }

  /** The trusted processes join the list; each gets the identity it was verified with, the
      last one if there are several, and every other process keeps what it had. */
  ghost predicate Merged(descendants: seq<int>, identities: map<int, string>, verified: seq<Verified>, ds: seq<int>,
                         ids: map<int, string>) {
    && ds == descendants + TrustedPids(verified)
    && (forall x :: x in ids <==> x in identities || x in TrustedPids(verified))
    && (forall x :: x in identities && x !in TrustedPids(verified) ==> ids[x] == identities[x])
    && (forall i :: 0 <= i < |verified| && LastTrusted(verified, i) ==>
        verified[i].pid in ids && ids[verified[i].pid] == verified[i].identity)
  }

  /** mergeVerifiedDescendants. */
  method MergeVerified(descendants: seq<int>, identities: map<int, string>, verified: seq<Verified>)
    returns (ds: seq<int>, ids: map<int, string>)
    ensures Merged(descendants, identities, verified, ds, ids)
    ensures forall x :: x in ids ==>
      (x in identities && ids[x] == identities[x]) || (x > 1 && ids[x] != "" && Verified(x, ids[x]) in verified)
  {
    ds, ids := descendants, identities;
    for i := 0 to |verified|
      invariant forall x :: x in ids ==>
        (x in identities && ids[x] == identities[x]) || (x > 1 && ids[x] != "" && Verified(x, ids[x]) in verified)
      invariant Merged(descendants, identities, verified[..i], ds, ids)
    {
      var v := verified[i];
      ghost var ds0, ids0 := ds, ids;
      if !(v.pid <= 1 || v.identity == "") {
        ds := ds + [v.pid];
        ids := ids[v.pid := v.identity];
      }
      MergedNext(descendants, identities, verified[..i], v, ds0, ids0);
      assert verified[..i + 1] == verified[..i] + [v];
    }
    assert verified[..|verified|] == verified;
  }

  lemma MergedNext(descendants: seq<int>, identities: map<int, string>, front: seq<Verified>, v: Verified,
                   ds: seq<int>, ids: map<int, string>)
    requires Merged(descendants, identities, front, ds, ids)
    ensures
      Merged(descendants, identities, front + [v], if Trusted(v) then ds + [v.pid] else ds,
             if Trusted(v) then ids[v.pid := v.identity] else ids)
  {
    var all := front + [v];
    assert all[..|front|] == front;
    forall i | 0 <= i < |front| && LastTrusted(all, i)
      ensures LastTrusted(front, i) && !(Trusted(v) && v.pid == front[i].pid)
    {
      assert all[|front|] == v;
      forall k | i < k < |front| && Trusted(front[k]) ensures front[k].pid != front[i].pid {
        assert all[k] == front[k];
      }
    }
  }

  /** The loop after a reap: it kills exactly the listed processes recognised at their turn. */
  method KillStoredDescendants(pids: seq<int>, ids: map<int, string>, os: Os) returns (kills: seq<Kill>)
    ensures Listed(os, ids, pids, kills, 0, |kills|)
    ensures forall n :: 0 <= n < |kills| ==>
      kills[n].pid in pids && kills[n].pgid == 0 && Recognised(os, kills[..n], ids, kills[n].pid)
  {
    kills := [];
    for i := 0 to |pids|
      invariant kills == KillListed(os, ids, pids[..i], [])
    {
      var pid := pids[i];
      assert pids[..i + 1][..i] == pids[..i];
      var expected := if pid in ids then ids[pid] else "";
      if expected == "" || !os.alive(kills, pid) || os.identity(kills, pid) != expected { continue; }
      kills := kills + [Kill(pid, 0)];
    }
    assert pids[..|pids|] == pids;
    ListedExact(os, ids, pids, []);
    ListedSound(os, ids, pids, []);
  }

  /** What is killed after a process was reaped: nothing if its wait returned no error;
      otherwise each process of the stop or cancel path's snapshot and each verified
      descendant of the tracker, if it is alive and has, when its turn comes, the identity
      taken before, and nobody else. */
  method ReapDescendants(t: FilePIDTracker, pid: int, descendants: seq<int>, identities: map<int, string>,
                         failed: bool, os: Os, os': Os)
    returns (kills: seq<Kill>)
    requires t.Valid()
    ensures !failed ==> kills == []
    ensures failed ==> exists verified, ds, ids ::
      && AllVerified(os, t.Current().processes, pid, verified)
      && Merged(descendants, identities, verified, ds, ids)
      && Listed(os', ids, ds, kills, 0, |kills|)
    ensures forall n :: 0 <= n < |kills| ==>
      var d := kills[n].pid;
      var identity := os'.identity(kills[..n], d);
      && os'.alive(kills[..n], d) && identity != ""
      && ((d in identities && identity == identities[d]) || (d > 1 && Capture(pid, d, identity) in t.captured))
  {
    var verified := t.GetVerifiedDescendants(pid, os);
    var ds, ids := MergeVerified(descendants, identities, verified);
    if !failed { return []; }
    kills := KillStoredDescendants(ds, ids, os');
  }
}
