/** Frames on the wire: everything up to and including the first terminator. */
module Frames {
  import opened Prelude
  import opened Text

  const TERMINATOR := ";;"

  /** What separates the text of a frame from its data part. */
  const MARK := " -- "

  const MAX_FRAME := 16 * 1024 * 1024

  /** What the reader makes of the bytes it can still get: a frame's content and how many
      bytes it took, a clean end of stream, or a broken stream (ended inside a frame, or no
      terminator within the limit). */
  datatype Read = Got(body: string, consumed: nat) | Eof | Truncated | TooLarge

  function ReadFrame(s: string): Read {
    var i := Index(s, TERMINATOR);
    if 0 <= i <= MAX_FRAME - 2 then Got(s[..i], i + 2)
    else if |s| > MAX_FRAME then TooLarge
    else if s == "" then Eof else Truncated
  }

  /** How far into the stream the read went. */
  function Advance(s: string): nat {
    match ReadFrame(s)
    case Got(_, consumed) => consumed
    case TooLarge => MAX_FRAME + 1
    case _ => |s|
  }

  /** The buffered reader a parser reads from, one byte at a time. */
  class Reader {
    const input: string
    var pos: nat

    constructor (s: string)
      ensures input == s && pos == 0
    {
      input := s;
      pos := 0;
    }

    ghost predicate Valid() reads this { pos <= |input| }

    function Rest(): string
      requires Valid()
      reads this
    {
      input[pos..]
    }

    method ReadByte() returns (b: Option<char>)
      requires Valid()
      modifies this
      ensures Valid()
      ensures old(Rest()) == "" ==> b == None && pos == old(pos)
      ensures old(Rest()) != "" ==> b == Some(old(Rest())[0]) && pos == old(pos) + 1
    {
      if pos == |input| { return None; }
      b := Some(input[pos]);
      pos := pos + 1;
    }

    method ReadUntilTerminator() returns (r: Read)
      requires Valid()
      modifies this
      ensures Valid()
      ensures r == ReadFrame(old(Rest())) && pos == old(pos) + Advance(old(Rest()))
    {
      ghost var s := Rest();
      var buf := "";
      while true
        invariant Scanning(s, buf) && Valid() && s == input[old(pos)..] && pos == old(pos) + |buf|
        decreases |input| - pos
      {
        var b := ReadByte();
        if b == None {
          ScanEnd(s, buf);
          return if buf == "" then Eof else Truncated;
        }
        ScanStep(s, buf, b.value);
        buf := buf + [b.value];
        if |buf| > MAX_FRAME {
          return TooLarge;
        }
        if |buf| >= 2 && buf[|buf| - 2..] == TERMINATOR {
          return Got(buf[..|buf| - 2], |buf|);
        }
      }
    }
  }

  predicate TermAt(s: string, k: nat) { k + 1 < |s| && s[k] == ';' && s[k + 1] == ';' }

  ghost predicate Unterminated(s: string) { forall k :: 0 <= k ==> !TermAt(s, k) }

  /** What was read so far: a start of the stream within the limit, without a terminator. */
  ghost predicate Scanning(s: string, buf: string) {
    |buf| <= |s| && buf == s[..|buf|] && |buf| <= MAX_FRAME && Unterminated(buf)
  }

  lemma ScanEnd(s: string, buf: string)
    requires Scanning(s, buf) && |buf| == |s|
    ensures ReadFrame(s) == (if buf == "" then Eof else Truncated) && Advance(s) == |s|
  {
    assert buf == s;
    NoTerminator(s);
  }

  /** One more byte: the limit is exceeded, or a frame is complete, or reading goes on. */
  lemma ScanStep(s: string, buf: string, b: char)
    requires Scanning(s, buf) && |buf| < |s| && b == s[|buf|]
    ensures
      var buf' := buf + [b];
      if |buf'| > MAX_FRAME then ReadFrame(s) == TooLarge && Advance(s) == |buf'|
      else if |buf'| >= 2 && buf'[|buf'| - 2..] == TERMINATOR then ReadFrame(s) == Got(buf'[..|buf'| - 2], |buf'|)
      else Scanning(s, buf')
  {
    var buf' := buf + [b];
    assert buf' == s[..|buf'|] && buf'[..|buf|] == buf;
    if |buf'| > MAX_FRAME {
      LateTerminator(s, |buf|);
    } else if |buf'| >= 2 && buf'[|buf'| - 2..] == TERMINATOR {
      TermReached(s, buf, buf');
    } else {
      NoTermYet(buf, buf');
    }
  }

  /** One more byte that does not complete a terminator. */
  lemma NoTermYet(before: string, buf: string)
    requires |buf| == |before| + 1 && before == buf[..|before|] && Unterminated(before)
    requires !(|buf| >= 2 && buf[|buf| - 2..] == TERMINATOR)
    ensures Unterminated(buf)
  {
    forall k: nat ensures !TermAt(buf, k) {
      assert !TermAt(before, k);
      if |buf| >= 2 { assert buf[|buf| - 2..] == [buf[|buf| - 2], buf[|buf| - 1]]; }
    }
  }

  /** One more byte that completes the first terminator of the stream. */
  lemma TermReached(s: string, before: string, buf: string)
    requires 2 <= |buf| <= |s| && buf == s[..|buf|] && before == buf[..|buf| - 1] && buf[|buf| - 2..] == TERMINATOR
    requires Unterminated(before)
    ensures Index(s, TERMINATOR) == |buf| - 2
  {
    var n := |buf| - 2;
    assert buf[n..] == [buf[n], buf[n + 1]];
    assert TermAt(s, n);
    forall k | 0 <= k < n ensures !TermAt(s, k) { assert !TermAt(before, k); }
    FirstTerminator(s, n);
  }

  lemma TermOccurs(s: string, k: nat)
    ensures TermAt(s, k) <==> OccursAt(s, TERMINATOR, k)
  {
    if k + 2 <= |s| { assert s[k..k + 2] == [s[k], s[k + 1]]; }
  }

  lemma FirstTerminator(s: string, n: nat)
    requires TermAt(s, n) && forall k :: 0 <= k < n ==> !TermAt(s, k)
    ensures Index(s, TERMINATOR) == n
  {
    TermOccurs(s, n);
    forall k | 0 <= k < n ensures !OccursAt(s, TERMINATOR, k) { TermOccurs(s, k); }
    IndexIs(s, TERMINATOR, n);
  }

  lemma NoTerminator(s: string)
    ensures Index(s, TERMINATOR) < 0 <==> Unterminated(s)
  {
    IndexNone(s, TERMINATOR);
    forall k: nat ensures TermAt(s, k) <==> OccursAt(s, TERMINATOR, k) { TermOccurs(s, k); }
  }

  lemma LateTerminator(s: string, n: nat)
    requires n <= |s| && Unterminated(s[..n])
    ensures Index(s, TERMINATOR) < 0 || Index(s, TERMINATOR) > n - 2
  {
    var i := Index(s, TERMINATOR);
    if 0 <= i <= n - 2 {
      TermOccurs(s, i);
      assert TermAt(s[..n], i);
    }
  }

  lemma ContainsTerm(s: string)
    ensures Contains(s, TERMINATOR) <==> exists k :: 0 <= k && TermAt(s, k)
  {
    NoTerminator(s);
  }

  /** The frame of a body is read back, whatever follows it, exactly when the body does not
      itself contain the terminator or end in half of one, and the frame fits the limit. */
  lemma FrameReadsBack(body: string, rest: string)
    ensures
      ReadFrame(body + TERMINATOR + rest) == Got(body, |body| + 2) <==>
      !Contains(body, TERMINATOR) && !(body != "" && body[|body| - 1] == ';') && |body| + 2 <= MAX_FRAME
  {
    var s, n := body + TERMINATOR + rest, |body|;
    ContainsTerm(body);
    assert s[..n] == body && TermAt(s, n);
    if !Contains(body, TERMINATOR) && !(body != "" && body[n - 1] == ';') {
      forall k | 0 <= k < n ensures !TermAt(s, k) { assert !TermAt(body, k) && s[k] == body[k]; }
      FirstTerminator(s, n);
    } else {
      EndsTooSoon(body, s);
    }
  }

  lemma EndsTooSoon(body: string, s: string)
    requires |body| < |s| && s[..|body|] == body && s[|body|] == ';'
    requires Contains(body, TERMINATOR) || (body != "" && body[|body| - 1] == ';')
    ensures 0 <= Index(s, TERMINATOR) < |body|
  {
    ContainsTerm(body);
    var k: nat := if Contains(body, TERMINATOR) then (var k :| 0 <= k && TermAt(body, k); k) else |body| - 1;
    assert s[k] == body[k];
    TermOccurs(s, k);
    IndexLeast(s, TERMINATOR, k);
  }
}
