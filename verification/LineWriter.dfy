/** Splitting a process's output into lines as it arrives, in whatever pieces. */
module LineWriter {
  import opened Base64
  import opened RingBuffer

  const NEWLINE: byte := 10
  const MAX_PARTIAL_LINE := 64 * 1024

  /** A delivered line, and whether a newline ended it; the callback only gets the text. */
  datatype Line = Line(text: seq<byte>, ended: bool)

  /** What has been delivered, and what is held back. */
  datatype Split = Split(lines: seq<Line>, partial: seq<byte>)

  const NOTHING := Split([], [])

  // ------------------------------------------------------------ the splitting, on values

  function ScanByte(s: Split, b: byte): Split {
    if b == NEWLINE then Split(s.lines + [Line(s.partial, true)], [])
    else Split(s.lines, s.partial + [b])
  }

  function Scan(s: Split, p: seq<byte>): Split {
    if p == [] then s else ScanByte(Scan(s, p[..|p| - 1]), p[|p| - 1])
  }

  /** Whatever is held back is delivered, if there is anything. */
  function Flushed(s: Split): Split {
    if s.partial == [] then s else Split(s.lines + [Line(s.partial, false)], [])
  }

  /** One write: the pieces between newlines, then the cap. */
  function Written(s: Split, p: seq<byte>): Split {
    var r := Scan(s, p);
    if |r.partial| >= MAX_PARTIAL_LINE then Flushed(r) else r
  }

  function Run(s: Split, writes: seq<seq<byte>>): Split
    decreases |writes|
  {
    if writes == [] then s else Run(Written(s, writes[0]), writes[1..])
  }

  function Texts(lines: seq<Line>): seq<seq<byte>> { seq(|lines|, i requires 0 <= i < |lines| => lines[i].text) }

  /** What the callback has received once the stream, written in these pieces, is flushed. */
  function Delivered(writes: seq<seq<byte>>): seq<seq<byte>> { Texts(Flushed(Run(NOTHING, writes)).lines) }

  /** The newline split of a whole input: every terminated line, then the rest if any. */
  function SplitLines(input: seq<byte>): seq<seq<byte>> { Texts(Flushed(Scan(NOTHING, input)).lines) }

  function Concat(writes: seq<seq<byte>>): seq<byte> {
    if writes == [] then [] else writes[0] + Concat(writes[1..])
  }

  // ------------------------------------------------------------ nothing lost, nothing twice

  function Reassemble(lines: seq<Line>): seq<byte> {
    if lines == [] then []
    else
      var last := lines[|lines| - 1];
      Reassemble(lines[..|lines| - 1]) + last.text + if last.ended then [NEWLINE] else []
  }

  lemma ReassembleAppend(lines: seq<Line>, l: Line)
    ensures Reassemble(lines + [l]) == Reassemble(lines) + l.text + if l.ended then [NEWLINE] else []
  {
    assert (lines + [l])[..|lines|] == lines;
  }

  function Whole(s: Split): seq<byte> { Reassemble(s.lines) + s.partial }

  /** Neither a delivered line nor the held text contains a newline. */
  predicate NewlineFree(s: Split) {
    NEWLINE !in s.partial && forall i :: 0 <= i < |s.lines| ==> NEWLINE !in s.lines[i].text
  }

  lemma {:induction false} ScanKeepsAll(s: Split, p: seq<byte>)
    requires NewlineFree(s)
    ensures Whole(Scan(s, p)) == Whole(s) + p && NewlineFree(Scan(s, p))
  {
    if p == [] {
    } else {
      var front, b := p[..|p| - 1], p[|p| - 1];
      ScanKeepsAll(s, front);
      var r := Scan(s, front);
      assert p == front + [b];
      if b == NEWLINE {
        ReassembleAppend(r.lines, Line(r.partial, true));
        assert Whole(ScanByte(r, b)) == Whole(r) + [b];
      } else {
        assert Whole(ScanByte(r, b)) == Whole(r) + [b];
      }
    }
  }

  lemma FlushKeepsAll(s: Split)
    ensures Whole(Flushed(s)) == Whole(s) && (NewlineFree(s) ==> NewlineFree(Flushed(s)))
  {
    if s.partial != [] { ReassembleAppend(s.lines, Line(s.partial, false)); }
  }

  /** For any way of cutting the input, the delivered lines and the held text put the input
      back together; the held text stays below the cap. */
  lemma {:induction false} RunKeepsAll(s: Split, writes: seq<seq<byte>>)
    requires NewlineFree(s) && |s.partial| < MAX_PARTIAL_LINE
    ensures Whole(Run(s, writes)) == Whole(s) + Concat(writes)
    ensures NewlineFree(Run(s, writes)) && |Run(s, writes).partial| < 65536
    decreases |writes|
  {
    if writes == [] {
    } else {
      ScanKeepsAll(s, writes[0]);
      FlushKeepsAll(Scan(s, writes[0]));
      RunKeepsAll(Written(s, writes[0]), writes[1..]);
      assert Whole(s) + writes[0] + Concat(writes[1..]) == Whole(s) + Concat(writes);
    }
  }

  // ------------------------------------------------------------ independent of the cuts

  lemma {:induction false} ScanAppend(s: Split, p: seq<byte>, q: seq<byte>)
    ensures Scan(s, p + q) == Scan(Scan(s, p), q)
  {
    if q == [] {
      assert p + q == p;
    } else {
      assert (p + q)[..|p + q| - 1] == p + q[..|q| - 1];
      ScanAppend(s, p, q[..|q| - 1]);
    }
  }

  function Newlines(p: seq<byte>): nat {
    if p == [] then 0 else Newlines(p[..|p| - 1]) + if p[|p| - 1] == NEWLINE then 1 else 0
  }

  /** How far a scan depends on where it starts. */
  lemma {:induction false} ScanCounts(s: Split, s': Split, p: seq<byte>)
    ensures |Scan(s, p).lines| == |s.lines| + Newlines(p)
    ensures if Newlines(p) == 0 then Scan(s, p).partial == s.partial + p else Scan(s, p).partial == Scan(s', p).partial
    decreases |p|
  {
    if p == [] {
    } else {
      ScanCounts(s, s', p[..|p| - 1]);
      ScanCounts(s', s, p[..|p| - 1]);
      assert p == p[..|p| - 1] + [p[|p| - 1]];
    }
  }

  /** No terminated line reaches the cap, and what follows the last newline does not exceed
      it. */
  predicate Short(input: seq<byte>) {
    var s := Scan(NOTHING, input);
    (forall i :: 0 <= i < |s.lines| ==> |s.lines[i].text| < MAX_PARTIAL_LINE) && |s.partial| <= MAX_PARTIAL_LINE
  }

  /** Once the text after a newline has reached the cap and more follows, the input is not
      short. */
  lemma {:induction false} Overlong(y: seq<byte>, z: seq<byte>)
    requires
      var n := |Scan(NOTHING, y).partial|;
      n > MAX_PARTIAL_LINE || (n == MAX_PARTIAL_LINE && z != [])
    ensures !Short(y + z)
    decreases |z|
  {
    if z == [] {
      assert y + z == y;
    } else {
      var y', b := y + [z[0]], z[0];
      assert y + z == y' + z[1..];
      assert y'[..|y'| - 1] == y;
      if b == NEWLINE {
        ScanAppend(NOTHING, y', z[1..]);
        LinesGrow(Scan(NOTHING, y'), z[1..]);
        assert Scan(NOTHING, y').lines[|Scan(NOTHING, y).lines|].text == Scan(NOTHING, y).partial;
      } else {
        Overlong(y', z[1..]);
      }
    }
  }

  lemma {:induction false} LinesGrow(s: Split, p: seq<byte>)
    ensures s.lines <= Scan(s, p).lines
  {
    if p == [] {
    } else {
      LinesGrow(s, p[..|p| - 1]);
    }
  }

  /** An input that is not short can be cut where the held text has reached the cap. */
  lemma {:induction false} FindCut(input: seq<byte>) returns (n: nat)
    requires !Short(input)
    ensures n < |input| && |Scan(NOTHING, input[..n]).partial| >= MAX_PARTIAL_LINE
  {
    var w := input[..|input| - 1];
    if !Short(w) {
      n := FindCut(w);
      assert w[..n] == input[..n];
    } else {
      n := |w|;
    }
  }

  lemma {:induction false} EmptyWrites(s: Split, writes: seq<seq<byte>>)
    requires Concat(writes) == [] && |s.partial| < MAX_PARTIAL_LINE
    ensures Run(s, writes) == s
  {
    if writes == [] {
    } else {
      assert writes[0] == [] && Concat(writes[1..]) == [];
      EmptyWrites(s, writes[1..]);
    }
  }

  /** On a short input every way of cutting gives the newline split. */
  lemma {:induction false} CutsAgree(x: seq<byte>, writes: seq<seq<byte>>)
    requires Short(x + Concat(writes)) && |Scan(NOTHING, x).partial| < MAX_PARTIAL_LINE
    ensures Texts(Flushed(Run(Scan(NOTHING, x), writes)).lines) == SplitLines(x + Concat(writes))
    decreases |writes|
  {
    if writes == [] {
      assert x + Concat(writes) == x;
    } else {
      var p, rest := writes[0], Concat(writes[1..]);
      var y := x + p;
      assert x + Concat(writes) == y + rest;
      ScanAppend(NOTHING, x, p);
      var r := Scan(NOTHING, y);
      if |r.partial| < MAX_PARTIAL_LINE {
        CutsAgree(y, writes[1..]);
      } else {
        if |r.partial| > MAX_PARTIAL_LINE || rest != [] { Overlong(y, rest); }
        assert rest == [] && y + rest == y;
        EmptyWrites(Flushed(r), writes[1..]);
      }
    }
  }

  /** The lines delivered after the flush are the newline split of the whole input for every
      way of cutting it, exactly when the input is short. */
  lemma CutsDoNotMatter(input: seq<byte>)
    ensures (forall writes :: Concat(writes) == input ==> Delivered(writes) == SplitLines(input)) <==> Short(input)
  {
    if Short(input) {
      forall writes | Concat(writes) == input ensures Delivered(writes) == SplitLines(input) {
        assert [] + Concat(writes) == input;
        CutsAgree([], writes);
      }
    } else {
      var n := FindCut(input);
      var y, z := input[..n], input[n..];
      assert Concat([y, z]) == y + Concat([z]) && Concat([z]) == z + Concat([]);
      assert y + z == input && Concat([y, z]) == input;
      CutInTwo(y, z);
      assert Delivered([y, z]) != SplitLines(input);
    }
  }

  /** The cut that shows it: one line too many is delivered. */
  lemma CutInTwo(y: seq<byte>, z: seq<byte>)
    requires |Scan(NOTHING, y).partial| >= MAX_PARTIAL_LINE && z != []
    ensures |Delivered([y, z])| == |SplitLines(y + z)| + 1
  {
    var r := Scan(NOTHING, y);
    var a := Flushed(r);
    assert [y, z][1..] == [z] && [z][1..] == [];
    assert Run(NOTHING, [y, z]) == Run(a, [z]) == Written(a, z);
    ScanAppend(NOTHING, y, z);
    ScanCounts(r, a, z);
    ScanCounts(a, r, z);
  }

  // ------------------------------------------------------------ the writer

  class LineWriter {
    const buf: RingBuffer
    var partial: seq<byte>
    /** What the callback has been given. */
    var lines: seq<Line>

    constructor (buf: RingBuffer)
      ensures this.buf == buf && partial == [] && lines == []
    {
      this.buf := buf;
      partial, lines := [], [];
    }

    ghost predicate Valid()
      reads this, buf, buf.buffer
    {
      buf.Valid() && |partial| < MAX_PARTIAL_LINE
    }

    function State(): Split
      reads this
    {
      Split(lines, partial)
    }

    method Callback(line: seq<byte>, ended: bool)
      modifies this`lines
      ensures lines == old(lines) + [Line(line, ended)]
    {
      lines := lines + [Line(line, ended)];
    }

    method Write(p: seq<byte>) returns (n: nat)
      requires Valid()
      modifies this, buf, buf.buffer
      ensures Valid() && n == |p| && buf.history == old(buf.history) + p
      ensures State() == Written(old(State()), p)
    {
      n := buf.Write(p);
      SplitInput(p);
    }

    /** The loop over the input, and the cap on what remains. */
    method SplitInput(p: seq<byte>)
      requires |partial| < MAX_PARTIAL_LINE
      modifies this`partial, this`lines
      ensures State() == Written(old(State()), p) && |partial| < MAX_PARTIAL_LINE
    {
      ghost var s := State();
      var start := 0;
      for i := 0 to |p|
        invariant 0 <= start <= i && (start > 0 ==> partial == [])
        invariant Split(lines, partial + p[start..i]) == Scan(s, p[..i])
      {
        assert p[..i + 1][..i] == p[..i];
        assert p[start..i + 1] == p[start..i] + [p[i]];
        if p[i] == NEWLINE {
          var line := partial + p[start..i];
          partial := [];
          Callback(line, true);
          start := i + 1;
        } else {
          assert partial + p[start..i + 1] == partial + p[start..i] + [p[i]];
        }
      }
      assert p[..|p|] == p && p[start..|p|] == p[start..];
      if start < |p| {
        partial := partial + p[start..];
        if |partial| >= MAX_PARTIAL_LINE {
          Callback(partial, false);
          partial := [];
        }
      }
    }

    method Flush()
      requires Valid()
      modifies this
      ensures Valid() && State() == Flushed(old(State()))
    {
      if |partial| > 0 {
        Callback(partial, false);
        partial := [];
      }
    }
  }
}
