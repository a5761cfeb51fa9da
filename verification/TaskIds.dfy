/** Task IDs: "task-" and an int64 counter that a restart sets to the highest number loaded. */
module TaskIds {
  import opened Int64
  import opened Prelude
  import opened Text

  const PREFIX := "task-"

  function Decimal(n: int): string { if n < 0 then "-" + Itoa(-n) else Itoa(n) }

  function TaskId(n: int): string { PREFIX + Decimal(n) }

  function ParseTaskIDNum(id: string): Option<int> {
    if PREFIX <= id then Atoi(id[|PREFIX|..]) else None
  }

  lemma DecimalParses(n: int)
    requires Fits(n)
    ensures Atoi(Decimal(n)) == Some(n)
  {
    if n < 0 {
      DigitsOfItoa(-n);
      assert Decimal(n)[1..] == Itoa(-n);
    } else {
      AtoiOfItoa(n);
    }
  }

  /** An ID gives back the number it was made from, so different numbers give different IDs. */
  lemma TaskIdParses(n: int)
    requires Fits(n)
    ensures ParseTaskIDNum(TaskId(n)) == Some(n)
  {
    DecimalParses(n);
    assert TaskId(n)[|PREFIX|..] == Decimal(n);
  }

  /** The counter after loading these IDs into a fresh scheduler. */
  function MaxId(ids: seq<string>): (m: int)
    ensures 0 <= m <= MAX64
  {
    if ids == [] then 0
    else
      var m := MaxId(ids[..|ids| - 1]);
      match ParseTaskIDNum(ids[|ids| - 1]) case Some(n) => (if n > m then n else m) case None => m
  }

  lemma {:induction false} MaxIdBounds(ids: seq<string>, id: string)
    requires id in ids && ParseTaskIDNum(id).Some?
    ensures ParseTaskIDNum(id).value <= MaxId(ids)
  {
    if id != ids[|ids| - 1] {
      assert id in ids[..|ids| - 1] by {
        var i :| 0 <= i < |ids| && ids[i] == id;
        assert ids[..|ids| - 1][i] == id;
      }
      MaxIdBounds(ids[..|ids| - 1], id);
    }
  }

  /** The bound is one of the numbers loaded, or zero when none is positive. */
  lemma {:induction false} MaxIdLoaded(ids: seq<string>)
    ensures MaxId(ids) == 0 || exists i :: 0 <= i < |ids| && ParseTaskIDNum(ids[i]) == Some(MaxId(ids))
  {
    if ids == [] {
    } else {
      var front := ids[..|ids| - 1];
      MaxIdLoaded(front);
      if i :| 0 <= i < |front| && ParseTaskIDNum(front[i]) == Some(MaxId(front)) { assert front[i] == ids[i]; }
    }
  }

  /** The k-th ID issued after the counter was set to base: the counter is an int64. */
  function Issued(base: int, k: nat): string { TaskId(Wrap(base + k)) }

  /** The k-th new ID differs from every loaded ID, whatever was loaded, exactly as long as
      the counter has not wrapped around. */
  lemma IssuedIsFresh(base: int, k: nat)
    requires 0 <= base <= MAX64 && 0 < k < TWO64
    ensures (forall loaded :: MaxId(loaded) == base ==> Issued(base, k) !in loaded) <==> base + k <= MAX64
  {
    if base + k <= MAX64 {
      WrapExact(base + k);
      forall loaded | MaxId(loaded) == base ensures TaskId(base + k) !in loaded { AboveMax(loaded, base + k); }
    } else {
      var loaded := Colliding(base, Wrap(base + k));
    }
  }

  lemma AboveMax(loaded: seq<string>, n: int)
    requires MaxId(loaded) < n <= MAX64
    ensures TaskId(n) !in loaded
  {
    TaskIdParses(n);
    if TaskId(n) in loaded { MaxIdBounds(loaded, TaskId(n)); }
  }

  lemma Colliding(base: int, n: int) returns (loaded: seq<string>)
    requires 0 <= base <= MAX64 && Fits(n) && n <= base
    ensures MaxId(loaded) == base && TaskId(n) in loaded
  {
    TaskIdParses(n);
    TaskIdParses(base);
    var first := [TaskId(base)];
    assert first[..0] == [] && MaxId(first) == base;
    loaded := first + [TaskId(n)];
    assert loaded[..1] == first && loaded[1] == TaskId(n);
  }

  /** Two new IDs differ, even across the wrap-around. */
  lemma IssuedDiffer(base: int, j: nat, k: nat)
    requires 0 <= base <= MAX64 && 0 < j < k < TWO64
    ensures Issued(base, j) != Issued(base, k)
  {
    WrapDiffers(base + j, base + k);
    TaskIdsDiffer(Wrap(base + j), Wrap(base + k));
  }

  lemma WrapDiffers(x: int, y: int)
    requires x < y < x + TWO64
    ensures Wrap(x) != Wrap(y)
  {
  }

  lemma TaskIdsDiffer(m: int, n: int)
    requires Fits(m) && Fits(n) && m != n
    ensures TaskId(m) != TaskId(n)
  {
    TaskIdParses(m);
    TaskIdParses(n);
  }
}
