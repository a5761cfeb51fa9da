/** The part of Go's strings and strconv packages that the wire protocol uses.  A
    character stands for one byte; white space and letter case are ASCII. */
module Text {
  import opened Prelude

  predicate IsSpace(c: char) {
    c == ' ' || c == '\t' || c == '\n' || c == '\r' || c == 0x0b as char || c == 0x0c as char
  }

  function TrimLeft(s: string): string {
    if s != "" && IsSpace(s[0]) then TrimLeft(s[1..]) else s
  }

  function TrimRight(s: string): (r: string)
    ensures r <= s
  {
    if s != "" && IsSpace(s[|s| - 1]) then TrimRight(s[..|s| - 1]) else s
  }

  function TrimSpace(s: string): string { TrimRight(TrimLeft(s)) }

  lemma TrimNothing(s: string)
    requires s != "" && !IsSpace(s[0]) && !IsSpace(s[|s| - 1])
    ensures TrimSpace(s) == s
  {
  }

  predicate HasSuffix(s: string, t: string) { |t| <= |s| && s[|s| - |t|..] == t }

  /** Position of the first occurrence, or -1. */
  function Index(s: string, pat: string): (i: int)
    ensures -1 <= i && (i >= 0 ==> i + |pat| <= |s| && s[i..i + |pat|] == pat)
  {
    if pat <= s then 0
    else if s == "" then -1
    else var i := Index(s[1..], pat); if i < 0 then -1 else i + 1
  }

  predicate Contains(s: string, pat: string) { Index(s, pat) >= 0 }

  predicate OccursAt(s: string, pat: string, k: nat) { k + |pat| <= |s| && s[k..k + |pat|] == pat }

  /** Index is the least position at which the pattern occurs. */
  lemma {:induction false} IndexLeast(s: string, pat: string, k: nat)
    requires OccursAt(s, pat, k)
    ensures 0 <= Index(s, pat) <= k
  {
    if !(pat <= s) {
      assert k > 0;
      assert s[1..][k - 1..k - 1 + |pat|] == s[k..k + |pat|];
      IndexLeast(s[1..], pat, k - 1);
    }
  }

  /** The first occurrence is where Index says. */
  lemma IndexIs(s: string, pat: string, n: nat)
    requires OccursAt(s, pat, n)
    requires forall k :: 0 <= k < n ==> !OccursAt(s, pat, k)
    ensures Index(s, pat) == n
  {
    IndexLeast(s, pat, n);
    assert OccursAt(s, pat, Index(s, pat));
  }

  lemma IndexNone(s: string, pat: string)
    ensures Index(s, pat) < 0 <==> forall k :: 0 <= k ==> !OccursAt(s, pat, k)
  {
    if Index(s, pat) >= 0 { assert OccursAt(s, pat, Index(s, pat)); }
    forall k: nat | OccursAt(s, pat, k) ensures Index(s, pat) >= 0 { IndexLeast(s, pat, k); }
  }

  predicate Free(s: string, c: char) { forall i :: 0 <= i < |s| ==> s[i] != c }

  /** A prefix without the pattern's first character is skipped whole. */
  lemma {:induction false} IndexSkip(t: string, s: string, pat: string)
    requires pat != "" && Free(t, pat[0])
    ensures Index(t + s, pat) == if Index(s, pat) < 0 then -1 else |t| + Index(s, pat)
  {
    if t == "" {
      assert t + s == s;
    } else {
      assert !(pat <= t + s) by { assert (t + s)[0] == t[0] != pat[0]; }
      assert (t + s)[1..] == t[1..] + s;
      IndexSkip(t[1..], s, pat);
    }
  }

  // ------------------------------------------------------------ words

  predicate NoSpace(s: string) { forall i :: 0 <= i < |s| ==> !IsSpace(s[i]) }

  predicate IsWord(s: string) { s != "" && NoSpace(s) }

  /** The longest prefix without white space. */
  function Word(s: string): (w: string)
    ensures w <= s && NoSpace(w)
    ensures s != "" && !IsSpace(s[0]) ==> w != ""
  {
    if s == "" || IsSpace(s[0]) then "" else [s[0]] + Word(s[1..])
  }

  /** strings.Fields: the maximal runs of characters that are not white space. */
  function Fields(s: string): (ws: seq<string>)
    ensures forall i :: 0 <= i < |ws| ==> IsWord(ws[i])
  {
    if s == "" then []
    else if IsSpace(s[0]) then Fields(s[1..])
    else [Word(s)] + Fields(s[|Word(s)|..])
  }

  lemma {:induction false} WordPrefix(w: string, s: string)
    requires NoSpace(w) && (s == "" || IsSpace(s[0]))
    ensures Word(w + s) == w
  {
    if w == "" {
      assert w + s == s;
    } else {
      assert (w + s)[1..] == w[1..] + s;
      WordPrefix(w[1..], s);
    }
  }

  function Join(ws: seq<string>): string {
    if ws == [] then "" else if |ws| == 1 then ws[0] else ws[0] + " " + Join(ws[1..])
  }

  predicate Words(ws: seq<string>) { forall i :: 0 <= i < |ws| ==> IsWord(ws[i]) }

  /** Splitting undoes joining when every piece is a word. */
  lemma {:induction false} FieldsOfJoin(ws: seq<string>)
    requires Words(ws)
    ensures Fields(Join(ws)) == ws
  {
    if ws == [] {
    } else {
      var w := ws[0];
      if |ws| == 1 {
        assert w + "" == w;
        WordPrefix(w, "");
      } else {
        var rest := " " + Join(ws[1..]);
        assert Join(ws) == w + rest;
        WordPrefix(w, rest);
        assert (w + rest)[|w|..] == rest;
        assert rest[1..] == Join(ws[1..]);
        FieldsOfJoin(ws[1..]);
      }
    }
  }

  // ------------------------------------------------------------ upper case

  function UpperChar(c: char): char {
    if 'a' <= c <= 'z' then (c as int - 32) as char else c
  }

  function ToUpper(s: string): (r: string)
    ensures |r| == |s| && forall i :: 0 <= i < |s| ==> r[i] == UpperChar(s[i])
  {
    if s == "" then "" else [UpperChar(s[0])] + ToUpper(s[1..])
  }

  lemma UpperTwice(s: string)
    ensures ToUpper(ToUpper(s)) == ToUpper(s)
    ensures IsWord(s) ==> IsWord(ToUpper(s))
  {
  }

  // ------------------------------------------------------------ numbers

  predicate IsDigit(c: char) { '0' <= c <= '9' }

  function Digit(d: nat): char
    requires d < 10
  {
    ('0' as int + d) as char
  }

  /** strconv.Itoa for a non-negative number. */
  function Itoa(n: nat): (s: string)
    ensures s != "" && forall i :: 0 <= i < |s| ==> IsDigit(s[i])
  {
    if n < 10 then [Digit(n)] else Itoa(n / 10) + [Digit(n % 10)]
  }

  function Digits(s: string): Option<nat> {
    if s == "" then Some(0)
    else if !IsDigit(s[|s| - 1]) then None
    else match Digits(s[..|s| - 1])
      case None => None
      case Some(n) => Some(10 * n + (s[|s| - 1] as int - '0' as int))
  }

  const MAX_INT := 0x7fff_ffff_ffff_ffff

  /** strconv.Atoi and ParseInt(s, 10, 64): an optional sign, then at least one digit; out
      of range is an error. */
  function Atoi(s: string): Option<int> {
    var negative := s != "" && s[0] == '-';
    var body := if s != "" && (s[0] == '-' || s[0] == '+') then s[1..] else s;
    if body == "" then None
    else match Digits(body)
      case None => None
      case Some(n) =>
        var v := if negative then -(n as int) else n as int;
        if -MAX_INT - 1 <= v <= MAX_INT then Some(v) else None
  }

  lemma {:induction false} DigitsOfItoa(n: nat)
    ensures Digits(Itoa(n)) == Some(n)
  {
    var s := Itoa(n);
    if n < 10 {
      assert s[..|s| - 1] == "";
    } else {
      assert s[..|s| - 1] == Itoa(n / 10);
      DigitsOfItoa(n / 10);
    }
  }

  lemma AtoiOfItoa(n: nat)
    requires n <= MAX_INT
    ensures Atoi(Itoa(n)) == Some(n)
  {
    DigitsOfItoa(n);
    assert IsDigit(Itoa(n)[0]);
  }
}
