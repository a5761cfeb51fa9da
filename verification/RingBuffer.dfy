/** The bounded output buffer of a process: it keeps the newest bytes and forgets the rest. */
module RingBuffer {
  import opened Base64

  const DEFAULT_BUFFER_SIZE := 256 * 1024

  /** The newest cap bytes of a history. */
  function Kept<T>(history: seq<T>, cap: nat): (k: seq<T>)
    ensures |k| == if |history| <= cap then |history| else cap
  {
    if |history| <= cap then history else history[|history| - cap..]
  }

  /** What is kept determines what will be kept: forgotten bytes never matter again. */
  lemma KeptAppend<T>(history: seq<T>, p: seq<T>, cap: nat)
    ensures Kept(Kept(history, cap) + p, cap) == Kept(history + p, cap)
  {
  }

  /** The buffer read from the write position onwards, oldest slot first. */
  function Rotated(b: seq<byte>, pos: nat): seq<byte>
    requires pos <= |b|
  {
    b[pos..] + b[..pos]
  }

  /** The slots in age order end with what should be kept. */
  predicate Holds(r: seq<byte>, history: seq<byte>) {
    var k := Kept(history, |r|);
    r[|r| - |k|..] == k
  }

  /** Shifting in the kept part of p keeps the age order right. */
  lemma HoldsAppend(r: seq<byte>, history: seq<byte>, p: seq<byte>, q: seq<byte>)
    requires Holds(r, history) && q == Kept(p, |r|)
    ensures Holds(r[|q|..] + q, history + p)
  {
    if |p| >= |r| { KeepsOnly(history, p, |r|); } else { HoldsMore(r, history, p); }
  }

  lemma KeepsOnly(history: seq<byte>, p: seq<byte>, cap: nat)
    requires |p| >= cap
    ensures Kept(history + p, cap) == Kept(p, cap)
  {
  }

  lemma HoldsMore(r: seq<byte>, history: seq<byte>, p: seq<byte>)
    requires Holds(r, history) && |p| < |r|
    ensures Holds(r[|p|..] + p, history + p)
  {
    var k := Kept(history, |r|);
    var m := KeepsMore(history, p, |r|);
    SameEnd(r, k, m);
    SameEnd(history, k, m);
    SameEnd(r, r[|p|..], m);
    EndAppend(r[|p|..], p, m);
  }

  lemma KeepsMore(history: seq<byte>, p: seq<byte>, cap: nat) returns (m: nat)
    requires |p| < cap
    ensures m <= |Kept(history, cap)| && m <= cap - |p| && Kept(history + p, cap) == history[|history| - m..] + p
  {
    m := |Kept(history + p, cap)| - |p|;
  }

  lemma SameEnd(s: seq<byte>, k: seq<byte>, m: nat)
    requires m <= |k| <= |s| && s[|s| - |k|..] == k
    ensures s[|s| - m..] == k[|k| - m..]
  {
  }

  lemma EndAppend(s: seq<byte>, p: seq<byte>, m: nat)
    requires m <= |s|
    ensures (s + p)[|s| - m..] == s[|s| - m..] + p
  {
  }

  /** The slot of the w-th byte: the remainder, by going round. */
  function Slot(w: nat, cap: nat): (s: nat)
    requires cap > 0
    ensures s < cap
  {
    if w < cap then w else Slot(w - cap, cap)
  }

  lemma SlotIsRemainder(w: nat, cap: nat)
    requires cap > 0
    ensures Slot(w, cap) == w % cap
  {
    var q := RoundsMade(w, cap);
    var q', r' := Divided(w, cap);
    SameRemainder(q, Slot(w, cap), q', r', cap);
  }

  lemma {:induction false} RoundsMade(w: nat, cap: nat) returns (q: int)
    requires cap > 0
    ensures q * cap + Slot(w, cap) == w
  {
    if w < cap {
      q := 0;
    } else {
      var q' := RoundsMade(w - cap, cap);
      Distributes(q', cap);
      q := q' + 1;
    }
  }

  lemma Divided(w: nat, cap: nat) returns (q: int, r: int)
    requires cap > 0
    ensures r == w % cap && 0 <= r < cap && q * cap + r == w
  {
    q, r := w / cap, w % cap;
  }

  lemma Distributes(q: int, cap: nat)
    ensures (q + 1) * cap == q * cap + cap
  {
  }

  lemma {:induction false} SlotStep(w: nat, m: nat, cap: nat)
    requires 0 < m <= cap
    ensures Slot(w + m, cap) == Next(Slot(w, cap), m, cap)
  {
    if w < cap {
    } else {
      SlotStep(w - cap, m, cap);
    }
  }

  lemma SameRemainder(q: int, r: int, q': int, r': int, cap: nat)
    requires 0 <= r < cap && 0 <= r' < cap && q * cap + r == q' * cap + r'
    ensures r == r'
  {
    if q < q' { MulStep(q, q', cap); }
    if q' < q { MulStep(q', q, cap); }
  }

  lemma MulStep(a: int, b: int, cap: nat)
    requires a < b
    ensures a * cap + cap <= b * cap
    decreases b - a
  {
    assert b * cap == (b - 1) * cap + cap;
    if a + 1 >= b {
    } else {
      MulStep(a, b - 1, cap);
    }
  }

  /** The slot m places further round. */
  function Next(pos: nat, m: nat, cap: nat): int { if pos + m < cap then pos + m else pos + m - cap }

  /** p lies in b' from pos onwards, wrapping around; the rest is as in b. */
  predicate Placed(b: seq<byte>, p: seq<byte>, pos: nat, b': seq<byte>)
    requires pos < |b| && 0 < |p| <= |b|
  {
    if pos + |p| <= |b| then b' == b[..pos] + p + b[pos + |p|..]
    else b' == p[|b| - pos..] + b[pos + |p| - |b|..pos] + p[..|b| - pos]
  }

  /** Both ways of copying shift p into the age order. */
  lemma Shifted(b: seq<byte>, p: seq<byte>, pos: nat, b': seq<byte>, pos': nat)
    requires pos < |b| && 0 < |p| <= |b| && Placed(b, p, pos, b')
    requires pos' == Next(pos, |p|, |b|)
    ensures |b'| == |b| && Rotated(b', pos') == Rotated(b, pos)[|p|..] + p
  {
    var m, r := |p|, Rotated(b, pos);
    if pos + m < |b| {
      SplitsAt(b[..pos] + p, b[pos + m..]);
      assert r[m..] == b[pos + m..] + b[..pos];
    } else if pos + m == |b| {
      assert b' == b[..pos] + p && r[m..] == b[..pos];
    } else {
      assert b' == p[|b| - pos..] + (b[pos'..pos] + p[..|b| - pos]);
      SplitsAt(p[|b| - pos..], b[pos'..pos] + p[..|b| - pos]);
      assert r[m..] == b[pos'..pos];
    }
  }

  lemma SplitsAt(x: seq<byte>, y: seq<byte>)
    ensures (x + y)[..|x|] == x && (x + y)[|x|..] == y
  {
  }

  function Min(a: nat, b: nat): nat { if a <= b then a else b }

  /** The next slot to write and the write counter after a history of n bytes. */
  predicate Counts(cap: nat, pos: nat, total: nat, n: nat) {
    && pos < cap && total <= n && Min(total, cap) == Min(n, cap)
    && (total < cap ==> pos == total) && (total == cap ==> pos == 0)
  }

  /** The slots, oldest first, end with what should be kept of the history. */
  predicate Ordered(b: seq<byte>, pos: nat, history: seq<byte>) {
    pos < |b| && Holds(Rotated(b, pos), history)
  }

  /** Counting only the bytes copied is enough, also to see that something was lost. */
  lemma CountsWrite(cap: nat, pos: nat, total: nat, n: nat, len: nat)
    requires Counts(cap, pos, total, n) && len > 0
    ensures
      var m := Min(len, cap);
      && Counts(cap, Next(pos, m, cap), total + m, n + len)
      && (n + len > cap <==> n > cap || len > cap || total + m > cap)
  {
  }

  lemma OrderedWrite(b: seq<byte>, pos: nat, history: seq<byte>, data: seq<byte>, p: seq<byte>,
                     b': seq<byte>, pos': nat)
    requires Ordered(b, pos, history) && p == Kept(data, |b|) && p != []
    requires Placed(b, p, pos, b') && pos' == Next(pos, |p|, |b|)
    ensures |b'| == |b| && Ordered(b', pos', history + data)
  {
    Shifted(b, p, pos, b', pos');
    HoldsAppend(Rotated(b, pos), history, data, p);
  }

  /** The counters after a write of len bytes. */
  lemma CountsAfter(cap: nat, total: nat, n: nat, len: nat)
    requires cap > 0 && len > 0 && Counts(cap, Slot(total, cap), total, n)
    ensures
      var total' := total + Min(len, cap);
      Counts(cap, Slot(total', cap), total', n + len) && (n + len > cap <==> n > cap || len > cap || total' > cap)
  {
    SlotStep(total, Min(len, cap), cap);
    CountsWrite(cap, Slot(total, cap), total, n, len);
  }

  /** Slots and write counter are right for a history. */
  predicate Tracks(b: seq<byte>, total: nat, history: seq<byte>) {
    b != [] && Counts(|b|, Slot(total, |b|), total, |history|) && Ordered(b, Slot(total, |b|), history)
  }

  /** The bookkeeping of one write, once its bytes are in place. */
  lemma TracksWrite(b: seq<byte>, total: nat, history: seq<byte>, data: seq<byte>, p: seq<byte>, b': seq<byte>)
    requires Tracks(b, total, history) && data != [] && p == Kept(data, |b|)
    requires Placed(b, p, Slot(total, |b|), b')
    ensures Tracks(b', total + |p|, history + data)
    ensures |history + data| > |b| <==> |history| > |b| || |data| > |b| || total + |p| > |b|
  {
    SlotsWrite(b, total, history, data, p, b');
    CountsAfter(|b|, total, |history|, |data|);
  }

  lemma Bookkeeping(b: seq<byte>, total: nat, history: seq<byte>, data: seq<byte>, p: seq<byte>,
                    b': seq<byte>, total': nat, history': seq<byte>)
    requires Tracks(b, total, history) && data != [] && p == Kept(data, |b|)
    requires Placed(b, p, Slot(total, |b|), b') && total' == total + |p| && history' == history + data
    ensures Tracks(b', total', history')
    ensures |history'| > |b| <==> |history| > |b| || |data| > |b| || total' > |b|
  {
    TracksWrite(b, total, history, data, p, b');
  }

  lemma SlotsWrite(b: seq<byte>, total: nat, history: seq<byte>, data: seq<byte>, p: seq<byte>, b': seq<byte>)
    requires b != [] && Ordered(b, Slot(total, |b|), history) && data != [] && p == Kept(data, |b|)
    requires Placed(b, p, Slot(total, |b|), b')
    ensures |b'| == |b| && |p| == Min(|data|, |b|) && Ordered(b', Slot(total + |p|, |b|), history + data)
  {
    SlotStep(total, |p|, |b|);
    OrderedWrite(b, Slot(total, |b|), history, data, p, b', Slot(total + |p|, |b|));
  }

  class RingBuffer {
    const buffer: array<byte>
    const capacity: nat
    var writePos: nat
    var totalWritten: nat
    var overflowed: bool
    /** Every byte written since the last reset. */
    ghost var history: seq<byte>

    constructor (size: int)
      ensures Valid() && fresh(buffer) && history == []
      ensures capacity == if size <= 0 then 262144 else size
    {
      var n := if size <= 0 then DEFAULT_BUFFER_SIZE else size;
      buffer := new byte[n];
      capacity := n;
      writePos, totalWritten, overflowed := 0, 0, false;
      history := [];
    }

    ghost predicate Valid()
      reads this, buffer
    {
      && capacity > 0 && buffer.Length == capacity
      && writePos == totalWritten
      && Tracks(buffer[..], totalWritten, history) && overflowed == (|history| > capacity)
    }

    /** The bytes since the last reset that still fit. */
    ghost function Contents(): seq<byte>
      reads this
    {
      Kept(history, capacity)
    }

    method Write(data: seq<byte>) returns (n: nat)
      requires Valid()
      modifies this, buffer
      ensures Valid() && n == |data|
      ensures history == old(history) + data
    {
      if |data| == 0 { return 0; }
      n := |data|;
      var p, cut := data, n > capacity;
      if cut { p := p[n - capacity..]; }
      assert p == Kept(data, capacity);
      ghost var b' := Store(p, cut, data);
      Bookkeeping(old(buffer[..]), old(totalWritten), old(history), data, p, b', totalWritten, history);
    }

    /** Copies p in at the write position, moves both counters and raises the flag when
        bytes were cut off or older ones are overwritten. */
    method Store(p: seq<byte>, cut: bool, ghost data: seq<byte>) returns (ghost b': seq<byte>)
      requires buffer.Length == capacity && 0 < |p| <= capacity
      modifies this, buffer
      ensures writePos == old(writePos) + |p| && totalWritten == old(totalWritten) + |p|
      ensures overflowed == (old(overflowed) || cut || old(totalWritten) + |p| > capacity)
      ensures buffer[..] == b' && Placed(old(buffer[..]), p, Slot(old(writePos), capacity), b')
      ensures history == old(history) + data
    {
      SlotIsRemainder(writePos, capacity);
      var pos := writePos % capacity;
      CopyIn(p, pos);
      b' := buffer[..];
      if cut || totalWritten + |p| > capacity { overflowed := true; }
      writePos := writePos + |p|;
      totalWritten := totalWritten + |p|;
      history := history + data;
    }

    /** One copy, or two when the end of the buffer is reached. */
    method CopyIn(p: seq<byte>, pos: nat)
      requires buffer.Length == capacity && pos < capacity && 0 < |p| <= capacity
      modifies buffer
      ensures Placed(old(buffer[..]), p, pos, buffer[..])
    {
      ghost var b := buffer[..];
      var firstPart := capacity - pos;
      if firstPart >= |p| {
        forall i | 0 <= i < |p| { buffer[pos + i] := p[i]; }
        assert buffer[..] == b[..pos] + p + b[pos + |p|..];
      } else {
        forall i | 0 <= i < firstPart { buffer[pos + i] := p[i]; }
        forall i | firstPart <= i < |p| { buffer[i - firstPart] := p[i]; }
        assert buffer[..] == p[firstPart..] + b[|p| - firstPart..pos] + p[..firstPart];
      }
    }

    method Snapshot() returns (data: seq<byte>, truncated: bool)
      requires Valid()
      ensures data == Contents() && truncated == (|history| > capacity)
    {
      var total := totalWritten;
      if total == 0 { return [], false; }
      truncated := overflowed;
      if total <= capacity {
        data := buffer[..total];
        assert data == Rotated(buffer[..], Slot(writePos, capacity))[capacity - total..];
        return;
      }
      SlotIsRemainder(writePos, capacity);
      var pos := writePos % capacity;
      data := buffer[pos..] + buffer[..pos];
      assert data == Rotated(buffer[..], pos)[capacity - capacity..];
      truncated := true;
    }

    method Len() returns (n: nat)
      requires Valid()
      ensures n == |Contents()|
    {
      if totalWritten > capacity { return capacity; }
      n := totalWritten;
    }

    method Truncated() returns (b: bool)
      requires Valid()
      ensures b == (|history| > capacity)
    {
      b := overflowed;
    }

    method Reset()
      requires Valid()
      modifies this
      ensures Valid() && history == []
    {
      writePos, totalWritten, overflowed := 0, 0, false;
      history := [];
    }
  }

  /** One call on the buffer. */
  datatype Op = Put(data: seq<byte>) | Clear

  function History(ops: seq<Op>): seq<byte> {
    if ops == [] then []
    else match ops[|ops| - 1]
      case Put(data) => History(ops[..|ops| - 1]) + data
      case Clear => []
  }

  /** After any sequence of writes and resets the snapshot is the newest part of what was
      written since the last reset, however little of it the counters saw. */
  method Replay(size: int, ops: seq<Op>) returns (data: seq<byte>, length: nat, truncated: bool)
    ensures
      var cap := if size <= 0 then 262144 else size;
      data == Kept(History(ops), cap) && length == |data| && truncated == (|History(ops)| > cap)
  {
    var rb := new RingBuffer(size);
    for i := 0 to |ops|
      invariant rb.Valid() && fresh(rb) && fresh(rb.buffer)
      invariant rb.history == History(ops[..i])
    {
      assert ops[..i + 1][..i] == ops[..i];
      match ops[i]
      case Put(d) => var _ := rb.Write(d);
      case Clear => rb.Reset();
    }
    assert ops[..|ops|] == ops;
    var d, t := rb.Snapshot();
    length := rb.Len();
    data, truncated := d, t;
  }
}
