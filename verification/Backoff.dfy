/** Go's 64-bit integer arithmetic where it decides a delay. */
module Int64 {
  const MIN64: int := -0x8000_0000_0000_0000
  const MAX64: int := 0x7fff_ffff_ffff_ffff
  const TWO64: int := 0x1_0000_0000_0000_0000

  predicate Fits(x: int) { MIN64 <= x <= MAX64 }

  /** Two's-complement wrap-around of a mathematical integer. */
  function Wrap(x: int): (r: int)
    ensures Fits(r) && (r - x) % TWO64 == 0
  {
    var m := x % TWO64;
    if m > MAX64 then m - TWO64 else m
  }

  lemma WrapExact(x: int)
    ensures Wrap(x) == x <==> Fits(x)
  {
  }

  function Pow2(n: nat): (r: nat)
    ensures r > 0
  {
    if n == 0 then 1 else 2 * Pow2(n - 1)
  }

  lemma {:induction false} Pow2Mono(a: nat, b: nat)
    requires a <= b
    ensures Pow2(a) <= Pow2(b)
    decreases b
  {
    if a == b {
    } else {
      Pow2Mono(a, b - 1);
    }
  }

  lemma Pow2At62()
    ensures Pow2(62) == 0x4000_0000_0000_0000
  {
    assert Pow2(8) == 256;
    assert Pow2(16) == 65536 by { assert Pow2(12) == 4096; }
    assert Pow2(24) == 0x100_0000 by { assert Pow2(20) == 0x10_0000; }
    assert Pow2(32) == 0x1_0000_0000 by { assert Pow2(28) == 0x1000_0000; }
    assert Pow2(40) == 0x100_0000_0000 by { assert Pow2(36) == 0x10_0000_0000; }
    assert Pow2(48) == 0x1_0000_0000_0000 by { assert Pow2(44) == 0x1000_0000_0000; }
    assert Pow2(56) == 0x100_0000_0000_0000 by { assert Pow2(52) == 0x10_0000_0000_0000; }
    assert Pow2(60) == 0x1000_0000_0000_0000;
  }

  /** 1 << n for a 64-bit one: the bit is lost when n reaches the width. */
  function Shl1(n: nat): int {
    if n >= 64 then 0 else Wrap(Pow2(n))
  }

  lemma Shl1Exact(n: nat)
    ensures n <= 62 ==> Shl1(n) == Pow2(n)
  {
    Pow2At62();
    if n <= 62 {
      Pow2Mono(n, 62);
      WrapExact(Pow2(n));
    }
  }
}

/** The scheduler's exponential backoff between delivery attempts. */
module Backoff {
  import opened Int64

  /** The wait after the given counted attempt (1, 2, ..), as the source computes it. */
  function Wait(delay: int, attempt: nat): int
    requires attempt > 0
  {
    Wrap(delay * Shl1(attempt - 1))
  }

  lemma MulPow(delay: int, a: nat, b: nat)
    requires delay > 0 && a <= b
    ensures delay * Pow2(a) <= delay * Pow2(b)
  {
    Pow2Mono(a, b);
  }

  /** One wait is exact exactly when its true value fits a signed 64-bit integer. */
  lemma WaitExact(delay: int, attempt: nat)
    requires 0 < delay <= MAX64 && attempt > 0
    ensures Wait(delay, attempt) == delay * Pow2(attempt - 1) <==> delay * Pow2(attempt - 1) <= MAX64
  {
    var k := attempt - 1;
    Shl1Exact(k);
    Pow2At62();
    if k <= 62 {
      assert delay * Pow2(k) > 0;
      WrapExact(delay * Pow2(k));
    } else {
      MulPow(delay, 63, k);
      assert Pow2(63) == 2 * Pow2(62);
    }
  }

  /** All waits of a task that may retry (attempts 1 .. maxRetries - 1) are exact and
      positive if and only if the longest one fits. */
  lemma WaitsExact(delay: int, maxRetries: nat)
    requires 0 < delay <= MAX64 && maxRetries >= 2
    ensures
      (forall a :: 1 <= a < maxRetries ==> Wait(delay, a) == delay * Pow2(a - 1) && Wait(delay, a) > 0) <==>
      delay * Pow2(maxRetries - 2) <= MAX64
  {
    WaitExact(delay, maxRetries - 1);
    if delay * Pow2(maxRetries - 2) <= MAX64 {
      forall a | 1 <= a < maxRetries ensures Wait(delay, a) == delay * Pow2(a - 1) && Wait(delay, a) > 0 {
        MulPow(delay, a - 1, maxRetries - 2);
        WaitExact(delay, a);
      }
    } else {
      assert !(Wait(delay, maxRetries - 1) == delay * Pow2(maxRetries - 2));
    }
  }

  /** The waits a task goes through when its first n attempts fail. */
  function TotalWait(delay: int, n: nat): int {
    if n == 0 then 0 else TotalWait(delay, n - 1) + Wait(delay, n)
  }

  lemma Distribute(d: int, x: int)
    ensures d * (x - 1) + d * x == d * (2 * x - 1)
  {
  }

  lemma {:induction false} WaitsSum(delay: int, n: nat)
    requires 0 < delay <= MAX64 && (n > 0 ==> delay * Pow2(n - 1) <= MAX64)
    ensures TotalWait(delay, n) == delay * (Pow2(n) - 1)
  {
    if n == 0 {
    } else {
      WaitExact(delay, n);
      if n > 1 { MulPow(delay, n - 2, n - 1); }
      WaitsSum(delay, n - 1);
      Distribute(delay, Pow2(n - 1));
    }
  }

  /** A task that exhausts its retries has waited delay * (2^(maxRetries-1) - 1) in all. */
  lemma TotalBeforeFailure(delay: int, maxRetries: nat)
    requires 0 < delay <= MAX64 && maxRetries >= 2 && delay * Pow2(maxRetries - 2) <= MAX64
    ensures TotalWait(delay, maxRetries - 1) == delay * (Pow2(maxRetries - 1) - 1)
  {
    WaitsSum(delay, maxRetries - 1);
  }
}
