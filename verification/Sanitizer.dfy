/** Making a free-text message safe to put in a frame: why the replacement loops stop, and
    exactly what can still go wrong in their result. */
module Sanitizer {
  import opened Text
  import opened Frames

  /** strings.ReplaceAll: non-overlapping, from the left. */
  function ReplaceAll(s: string, pat: string, new_: string): string
    requires pat != ""
  {
    if s == "" then ""
    else if pat <= s then new_ + ReplaceAll(s[|pat|..], pat, new_)
    else [s[0]] + ReplaceAll(s[1..], pat, new_)
  }

  /** The number of positions at which the pattern occurs, overlaps included. */
  function Occurrences(s: string, pat: string): nat {
    if s == "" then 0 else (if pat <= s then 1 else 0) + Occurrences(s[1..], pat)
  }

  /** The two replacements the sanitiser makes. */
  predicate Rule(pat: string, new_: string) {
    (pat == TERMINATOR && new_ == "; ;") || (pat == MARK && new_ == " - - ")
  }

  // ------------------------------------------------------------ one replacement pass

  /** A pass keeps the first and the last character. */
  lemma {:induction false} EndsKept(s: string, pat: string, new_: string)
    requires Rule(pat, new_)
    ensures
      var r := ReplaceAll(s, pat, new_);
      (s == "" <==> r == "") && (s != "" ==> r[0] == s[0] && r[|r| - 1] == s[|s| - 1])
  {
    if s == "" {
    } else {
      if pat <= s {
        EndsKept(s[|pat|..], pat, new_);
        assert pat == s[..|pat|];
        if s[|pat|..] == "" { assert s == pat; }
      } else {
        EndsKept(s[1..], pat, new_);
      }
    }
  }

  predicate Dashes(s: string) { |s| >= 2 && s[0] == '-' && s[1] == '-' }

  /** A pass does not touch two leading dashes nor the character behind them. */
  lemma DashesKept(s: string, pat: string, new_: string)
    requires Rule(pat, new_)
    ensures
      var r := ReplaceAll(s, pat, new_);
      && (Dashes(r) <==> Dashes(s))
      && (Dashes(s) ==> r[2..] == ReplaceAll(s[2..], pat, new_))
      && (Dashes(s) && |s| > 2 ==> |r| > 2 && r[2] == s[2])
  {
    EndsKept(s, pat, new_);
    if s != "" && s[0] == '-' {
      EndsKept(s[1..], pat, new_);
      if |s| > 1 && s[1] == '-' {
        assert s[1..][1..] == s[2..];
        EndsKept(s[2..], pat, new_);
      }
    }
  }

  lemma MarkPrefix(s: string)
    ensures MARK <= s <==> s != "" && s[0] == ' ' && Dashes(s[1..]) && |s| > 3 && s[3] == ' '
  {
    if |s| >= 4 { assert s[..4] == [s[0], s[1], s[2], s[3]]; }
  }

  lemma TermPrefix(s: string)
    ensures TERMINATOR <= s <==> |s| >= 2 && s[0] == ';' && s[1] == ';'
  {
    if |s| >= 2 { assert s[..2] == [s[0], s[1]]; }
  }

  /** Replacing terminators leaves fewer of them, unless there were none. */
  lemma {:induction false} TermsFall(s: string)
    ensures
      var r := ReplaceAll(s, TERMINATOR, "; ;");
      Occurrences(r, TERMINATOR) <= Occurrences(s, TERMINATOR)
        && (Contains(s, TERMINATOR) ==> Occurrences(r, TERMINATOR) < Occurrences(s, TERMINATOR))
    decreases |s|
  {
    if s == "" {
    } else {
      TermPrefix(s);
      if TERMINATOR <= s {
        var t := s[2..];
        var rt := ReplaceAll(t, TERMINATOR, "; ;");
        TermsFall(t);
        EndsKept(t, TERMINATOR, "; ;");
        assert s[1..][1..] == t;
        TermPrefix(s[1..]);
        Skip("; ", ";" + rt, TERMINATOR);
        assert "; ;" + rt == "; " + (";" + rt);
        TermPrefix(";" + rt);
        assert (";" + rt)[1..] == rt;
      } else {
        var rt := ReplaceAll(s[1..], TERMINATOR, "; ;");
        TermsFall(s[1..]);
        EndsKept(s[1..], TERMINATOR, "; ;");
        TermPrefix([s[0]] + rt);
        assert ([s[0]] + rt)[1..] == rt;
      }
    }
  }

  /** Text in front that cannot start an occurrence does not count. */
  lemma Skip(a: string, t: string, pat: string)
    requires |a| == 2 && !(pat <= a + t) && !(pat <= a[1..] + t)
    ensures Occurrences(a + t, pat) == Occurrences(t, pat)
  {
    assert (a + t)[1..] == a[1..] + t;
    assert (a[1..] + t)[1..] == t;
  }

  lemma MarkInFront(t: string)
    ensures Occurrences(MARK + t, MARK) == 1 + Occurrences(" " + t, MARK)
  {
    var x := MARK + t;
    var x1, x2, x3 := "--" + (" " + t), "-" + (" " + t), " " + t;
    assert MARK <= x && x[1..] == x1 && x1[1..] == x2 && x2[1..] == x3;
    MarkPrefix(x1);
    MarkPrefix(x2);
    assert Occurrences(x1, MARK) == Occurrences(x2, MARK) == Occurrences(x3, MARK);
  }

  lemma HarmlessInFront(t: string)
    ensures Occurrences(" - - " + t, MARK) == Occurrences(" " + t, MARK)
  {
    var y := " -" + (" " + t);
    assert " - - " + t == " -" + y;
    assert y[1..] == "-" + (" " + t);
    MarkPrefix(" -" + y);
    MarkPrefix("-" + y);
    MarkPrefix(y);
    MarkPrefix("-" + (" " + t));
    Skip(" -", y, MARK);
    Skip(" -", " " + t, MARK);
  }

  /** Replacing markers leaves fewer of them, unless there were none. */
  lemma {:induction false} MarksFall(s: string)
    ensures
      var r := ReplaceAll(s, MARK, " - - ");
      Occurrences(r, MARK) <= Occurrences(s, MARK)
        && (Contains(s, MARK) ==> Occurrences(r, MARK) < Occurrences(s, MARK))
    decreases |s|
  {
    if s == "" {
    } else {
      MarkPrefix(s);
      if MARK <= s {
        var t := s[4..];
        var rt := ReplaceAll(t, MARK, " - - ");
        MarksFall(t);
        MarkBehind(t, rt);
        MarkInFront(t);
        HarmlessInFront(rt);
        assert s == MARK + t;
      } else {
        var rt := ReplaceAll(s[1..], MARK, " - - ");
        MarksFall(s[1..]);
        DashesKept(s[1..], MARK, " - - ");
        MarkPrefix([s[0]] + rt);
        assert ([s[0]] + rt)[1..] == rt;
      }
    }
  }

  /** A space in front of a replaced text starts a marker exactly when it did before. */
  lemma MarkBehind(t: string, rt: string)
    requires rt == ReplaceAll(t, MARK, " - - ")
    ensures (MARK <= " " + rt) <==> (MARK <= " " + t)
    ensures Occurrences(" " + rt, MARK) == (if MARK <= " " + t then 1 else 0) + Occurrences(rt, MARK)
    ensures Occurrences(" " + t, MARK) == (if MARK <= " " + t then 1 else 0) + Occurrences(t, MARK)
  {
    MarkPrefix(" " + rt);
    MarkPrefix(" " + t);
    assert (" " + rt)[1..] == rt && (" " + t)[1..] == t;
    DashesKept(t, MARK, " - - ");
  }

  // ------------------------------------------------------------ the sanitiser

  lemma PassFalls(s: string, pat: string, new_: string)
    requires Rule(pat, new_) && Contains(s, pat)
    ensures Occurrences(ReplaceAll(s, pat, new_), pat) < Occurrences(s, pat)
  {
    if pat == TERMINATOR { TermsFall(s); } else { MarksFall(s); }
  }

  /** Replacing until the pattern is gone. */
  function Settle(s: string, pat: string, new_: string): (r: string)
    requires Rule(pat, new_)
    ensures !Contains(r, pat)
    decreases Occurrences(s, pat)
  {
    if Contains(s, pat) then PassFalls(s, pat, new_); Settle(ReplaceAll(s, pat, new_), pat, new_) else s
  }

  predicate IsBreak(c: char) { c == '\r' || c == '\n' }

  /** Line breaks become spaces. */
  function Blank(s: string): (r: string)
    ensures |r| == |s| && forall i :: 0 <= i < |s| ==> r[i] == if IsBreak(s[i]) then ' ' else s[i]
  {
    if s == "" then "" else [if IsBreak(s[0]) then ' ' else s[0]] + Blank(s[1..])
  }

  function Sanitized(s: string): string {
    Blank(Settle(Settle(s, TERMINATOR, "; ;"), MARK, " - - "))
  }

  lemma {:induction false} ReplaceChar(s: string, c: char)
    ensures
      var r := ReplaceAll(s, [c], " ");
      |r| == |s| && forall i :: 0 <= i < |s| ==> r[i] == if s[i] == c then ' ' else s[i]
  {
    if s == "" {
    } else {
      assert [c] <= s <==> s[0] == c;
      ReplaceChar(s[1..], c);
    }
  }

  method SanitizeMessage(msg: string) returns (s: string)
    ensures s == Sanitized(msg)
  {
    s := msg;
    while Contains(s, TERMINATOR)
      invariant Settle(s, TERMINATOR, "; ;") == Settle(msg, TERMINATOR, "; ;")
      decreases Occurrences(s, TERMINATOR)
    {
      TermsFall(s);
      s := ReplaceAll(s, TERMINATOR, "; ;");
    }
    ghost var safe := s;
    while Contains(s, MARK)
      invariant Settle(s, MARK, " - - ") == Settle(safe, MARK, " - - ")
      decreases Occurrences(s, MARK)
    {
      MarksFall(s);
      s := ReplaceAll(s, MARK, " - - ");
    }
    ghost var u := s;
    ReplaceChar(s, '\r');
    s := ReplaceAll(s, "\r", " ");
    ReplaceChar(s, '\n');
    s := ReplaceAll(s, "\n", " ");
    assert s == Blank(u);
  }

  // ------------------------------------------------------------ what survives

  predicate Wide(c: char) { c == ' ' || IsBreak(c) }

  predicate HasInk(s: string) { s != "" && (!IsSpace(s[0]) || HasInk(s[1..])) }

  /** Two dashes between white characters that the marker loop does not see, because at
      least one of them is a line break; with ink, only if something visible follows. */
  predicate LiveHere(s: string, ink: bool) {
    && s != "" && Wide(s[0]) && Dashes(s[1..]) && |s| > 3 && Wide(s[3])
    && !(s[0] == ' ' && s[3] == ' ')
    && (ink ==> HasInk(s[4..]))
  }

  predicate Live(s: string, ink: bool) { s != "" && (LiveHere(s, ink) || Live(s[1..], ink)) }

  lemma {:induction false} InkOfConcat(a: string, b: string)
    ensures HasInk(a + b) == (HasInk(a) || HasInk(b))
  {
    if a == "" {
      assert a + b == b;
    } else {
      assert (a + b)[1..] == a[1..] + b;
      InkOfConcat(a[1..], b);
    }
  }

  lemma RuleInk(pat: string, new_: string)
    requires Rule(pat, new_)
    ensures HasInk(pat) && HasInk(new_) && HasInk(pat[1..]) && HasInk(new_[1..])
  {
    if pat == TERMINATOR {
      assert pat[1..] == ";" && new_[1..] == " ;" && new_[1..][1..] == ";";
    } else {
      assert pat[1..] == "-- " && new_[1..] == "- - ";
    }
  }

  lemma InkInFront(a: string, b: string)
    requires a != "" && HasInk(a) && HasInk(a[1..])
    ensures HasInk(a + b) && HasInk((a + b)[1..])
  {
    InkOfConcat(a, b);
    InkOfConcat(a[1..], b);
    assert (a + b)[1..] == a[1..] + b;
  }

  lemma {:induction false} InkKept(s: string, pat: string, new_: string)
    requires Rule(pat, new_)
    ensures HasInk(ReplaceAll(s, pat, new_)) == HasInk(s)
    ensures s != "" ==> HasInk(ReplaceAll(s, pat, new_)[1..]) == HasInk(s[1..])
  {
    if s == "" {
    } else {
      if pat <= s {
        RuleInk(pat, new_);
        assert s == pat + s[|pat|..];
        InkInFront(pat, s[|pat|..]);
        InkInFront(new_, ReplaceAll(s[|pat|..], pat, new_));
      } else {
        InkKept(s[1..], pat, new_);
        assert ([s[0]] + ReplaceAll(s[1..], pat, new_))[1..] == ReplaceAll(s[1..], pat, new_);
      }
    }
  }

  lemma HereKept(c: char, t: string, pat: string, new_: string, ink: bool)
    requires Rule(pat, new_)
    ensures LiveHere([c] + ReplaceAll(t, pat, new_), ink) == LiveHere([c] + t, ink)
  {
    var rt := ReplaceAll(t, pat, new_);
    DashesKept(t, pat, new_);
    assert ([c] + rt)[1..] == rt && ([c] + t)[1..] == t;
    if Dashes(t) && |t| > 2 {
      InkKept(t[2..], pat, new_);
      assert ([c] + rt)[4..] == rt[2..][1..] && ([c] + t)[4..] == t[2..][1..];
    } else if Dashes(t) {
      assert t[2..] == "";
    }
  }

  lemma LiveStep(c: char, t: string, ink: bool)
    ensures Live([c] + t, ink) == (LiveHere([c] + t, ink) || Live(t, ink))
  {
    assert ([c] + t)[1..] == t;
  }

  /** Either pass keeps the line-break markers as they are: it neither makes nor removes
      one. */
  lemma {:induction false} LiveKept(s: string, pat: string, new_: string, ink: bool)
    requires Rule(pat, new_)
    ensures Live(ReplaceAll(s, pat, new_), ink) == Live(s, ink)
    decreases |s|
  {
    if s == "" {
    } else {
      if pat <= s {
        var t := s[|pat|..];
        var rt := ReplaceAll(t, pat, new_);
        LiveKept(t, pat, new_, ink);
        if pat == TERMINATOR { LiveTerm(t, rt, ink); assert s == TERMINATOR + t; }
        else { LiveThroughMark(t, ink); assert s == MARK + t; }
      } else {
        var t := s[1..];
        LiveKept(t, pat, new_, ink);
        HereKept(s[0], t, pat, new_, ink);
        LiveStep(s[0], t, ink);
        LiveStep(s[0], ReplaceAll(t, pat, new_), ink);
        assert s == [s[0]] + t;
      }
    }
  }

  lemma LiveTerm(t: string, rt: string, ink: bool)
    ensures Live(TERMINATOR + t, ink) == Live(t, ink) && Live("; ;" + rt, ink) == Live(rt, ink)
  {
    assert TERMINATOR + t == [';'] + ([';'] + t);
    LiveStep(';', [';'] + t, ink);
    LiveStep(';', t, ink);
    assert "; ;" + rt == [';'] + ([' '] + ([';'] + rt));
    LiveStep(';', [' '] + ([';'] + rt), ink);
    LiveStep(' ', [';'] + rt, ink);
    LiveStep(';', rt, ink);
    assert ([' '] + ([';'] + rt))[1..] == [';'] + rt;
  }

  lemma LiveMark(t: string, ink: bool)
    ensures Live(MARK + t, ink) == Live([' '] + t, ink)
  {
    var x3 := [' '] + t;
    var x2 := ['-'] + x3;
    var x1 := ['-'] + x2;
    assert MARK + t == [' '] + x1;
    assert ([' '] + x1)[3] == ' ';
    LiveStep(' ', x1, ink);
    LiveStep('-', x2, ink);
    LiveStep('-', x3, ink);
  }

  lemma LiveSpread(t: string, ink: bool)
    ensures Live(" - - " + t, ink) == Live([' '] + t, ink)
  {
    var x4 := [' '] + t;
    var x3 := ['-'] + x4;
    var x2 := [' '] + x3;
    var x1 := ['-'] + x2;
    assert " - - " + t == [' '] + x1;
    assert ([' '] + x1)[1..] == x1 && ([' '] + x3)[1..] == x3;
    LiveStep(' ', x1, ink);
    LiveStep('-', x2, ink);
    LiveStep(' ', x3, ink);
    LiveStep('-', x4, ink);
  }

  lemma LiveThroughMark(t: string, ink: bool)
    requires Live(ReplaceAll(t, MARK, " - - "), ink) == Live(t, ink)
    ensures Live(" - - " + ReplaceAll(t, MARK, " - - "), ink) == Live(MARK + t, ink)
  {
    var rt := ReplaceAll(t, MARK, " - - ");
    LiveMark(t, ink);
    LiveSpread(rt, ink);
    HereKept(' ', t, MARK, " - - ", ink);
    LiveStep(' ', t, ink);
    LiveStep(' ', rt, ink);
  }

  /** What the passes keep of a text: whether a marker will survive, ink, both ends, and a
      leading pair of dashes with what follows it. */
  predicate Keeps(s: string, r: string, ink: bool) {
    && Live(r, ink) == Live(s, ink) && HasInk(r) == HasInk(s)
    && (s == "" <==> r == "") && (s != "" ==> r[0] == s[0] && r[|r| - 1] == s[|s| - 1])
    && (Dashes(r) <==> Dashes(s))
    && (Dashes(s) && |s| > 2 ==> |r| > 2 && r[2] == s[2])
    && (Dashes(s) ==> HasInk(r[2..]) == HasInk(s[2..]))
    && (Dashes(s) && |s| > 2 ==> HasInk(r[3..]) == HasInk(s[3..]))
  }

  lemma PassKeeps(s: string, pat: string, new_: string, ink: bool)
    requires Rule(pat, new_)
    ensures Keeps(s, ReplaceAll(s, pat, new_), ink)
  {
    var r := ReplaceAll(s, pat, new_);
    LiveKept(s, pat, new_, ink);
    InkKept(s, pat, new_);
    EndsKept(s, pat, new_);
    DashesKept(s, pat, new_);
    if Dashes(s) {
      InkKept(s[2..], pat, new_);
      if |s| > 2 { assert r[3..] == r[2..][1..] && s[3..] == s[2..][1..]; }
    }
  }

  lemma KeepsTwice(s: string, r: string, q: string, ink: bool)
    requires Keeps(s, r, ink) && Keeps(r, q, ink)
    ensures Keeps(s, q, ink)
  {
  }

  lemma {:induction false} SettleKeeps(s: string, pat: string, new_: string, ink: bool)
    requires Rule(pat, new_)
    ensures Keeps(s, Settle(s, pat, new_), ink)
    decreases Occurrences(s, pat)
  {
    if !Contains(s, pat) {
    } else {
      var r := ReplaceAll(s, pat, new_);
      PassFalls(s, pat, new_);
      PassKeeps(s, pat, new_, ink);
      SettleKeeps(r, pat, new_, ink);
      KeepsTwice(s, r, Settle(r, pat, new_), ink);
    }
  }

  // ------------------------------------------------------------ the sanitised message

  lemma ContainsStep(c: char, t: string, pat: string)
    requires pat != ""
    ensures Contains([c] + t, pat) == (pat <= [c] + t || Contains(t, pat))
  {
    assert ([c] + t)[1..] == t;
  }

  lemma {:induction false} NoTermKept(s: string)
    requires !Contains(s, TERMINATOR)
    ensures !Contains(ReplaceAll(s, MARK, " - - "), TERMINATOR)
    decreases |s|
  {
    if s == "" {
    } else {
      TermPrefix(s);
      if MARK <= s {
        var rt := ReplaceAll(s[4..], MARK, " - - ");
        NoTermTail(s, 4);
        NoTermKept(s[4..]);
        assert Free(" - - ", ';');
        TermFreeFront(" - - ", rt);
      } else {
        var t := s[1..];
        assert s == [s[0]] + t;
        ContainsStep(s[0], t, TERMINATOR);
        NoTermKept(t);
        var rt := ReplaceAll(t, MARK, " - - ");
        EndsKept(t, MARK, " - - ");
        ContainsStep(s[0], rt, TERMINATOR);
        TermPrefix([s[0]] + rt);
      }
    }
  }

  lemma {:induction false} NoTermTail(s: string, k: nat)
    requires k <= |s| && !Contains(s, TERMINATOR)
    ensures !Contains(s[k..], TERMINATOR)
  {
    if k == 0 {
    } else {
      assert s[1..][k - 1..] == s[k..];
      NoTermTail(s[1..], k - 1);
    }
  }

  lemma {:induction false} TermFreeFront(a: string, t: string)
    requires Free(a, ';') && !Contains(t, TERMINATOR)
    ensures !Contains(a + t, TERMINATOR)
  {
    if a == "" {
      assert a + t == t;
    } else {
      assert a + t == [a[0]] + (a[1..] + t);
      TermFreeFront(a[1..], t);
      ContainsStep(a[0], a[1..] + t, TERMINATOR);
      TermPrefix(a + t);
    }
  }

  lemma {:induction false} SettleNoTerm(s: string)
    requires !Contains(s, TERMINATOR)
    ensures !Contains(Settle(s, MARK, " - - "), TERMINATOR)
    decreases Occurrences(s, MARK)
  {
    if !Contains(s, MARK) {
    } else {
      PassFalls(s, MARK, " - - ");
      NoTermKept(s);
      SettleNoTerm(ReplaceAll(s, MARK, " - - "));
    }
  }

  lemma {:induction false} BlankNoTerm(s: string)
    requires !Contains(s, TERMINATOR)
    ensures !Contains(Blank(s), TERMINATOR)
  {
    if s == "" {
    } else {
      assert s == [s[0]] + s[1..];
      ContainsStep(s[0], s[1..], TERMINATOR);
      BlankNoTerm(s[1..]);
      TermPrefix(s);
      TermPrefix(Blank(s));
      assert Blank(s)[1..] == Blank(s[1..]);
    }
  }

  /** A sanitised message never contains the terminator or a line break. */
  lemma SanitizedClean(msg: string)
    ensures !Contains(Sanitized(msg), TERMINATOR)
    ensures forall i :: 0 <= i < |Sanitized(msg)| ==> !IsBreak(Sanitized(msg)[i])
  {
    SettleNoTerm(Settle(msg, TERMINATOR, "; ;"));
    BlankNoTerm(Settle(Settle(msg, TERMINATOR, "; ;"), MARK, " - - "));
  }

  /** A marker in the text; with ink, one that is followed by something visible. */
  predicate MarkLive(v: string, ink: bool) {
    v != "" && ((MARK <= v && (ink ==> HasInk(v[4..]))) || MarkLive(v[1..], ink))
  }

  lemma {:induction false} MarkLiveAt(v: string, ink: bool)
    ensures MarkLive(v, ink) <==> exists p :: 0 <= p && OccursAt(v, MARK, p) && (ink ==> HasInk(v[p + 4..]))
  {
    if v == "" {
    } else {
      MarkLiveAt(v[1..], ink);
      assert MARK <= v <==> OccursAt(v, MARK, 0);
      forall p: nat | p + 5 <= |v| ensures OccursAt(v[1..], MARK, p) <==> OccursAt(v, MARK, p + 1) {
        assert v[1..][p..p + 4] == v[p + 1..p + 5];
        assert v[1..][p + 4..] == v[p + 5..];
      }
      if p: nat :| p > 0 && OccursAt(v, MARK, p) && (ink ==> HasInk(v[p + 4..])) {
        assert OccursAt(v[1..], MARK, p - 1);
        assert v[1..][p - 1 + 4..] == v[p + 4..];
      }
      if p: nat :| OccursAt(v[1..], MARK, p) && (ink ==> HasInk(v[1..][p + 4..])) {
        assert OccursAt(v, MARK, p + 1);
        assert v[1..][p + 4..] == v[p + 1 + 4..];
      }
    }
  }

  lemma {:induction false} InkOfBlank(s: string)
    ensures HasInk(Blank(s)) == HasInk(s)
  {
    if s == "" {
    } else {
      assert Blank(s)[1..] == Blank(s[1..]);
      InkOfBlank(s[1..]);
    }
  }

  lemma BlankTail(s: string, k: nat)
    requires k <= |s|
    ensures Blank(s)[k..] == Blank(s[k..])
  {
  }

  /** In a text without markers, blanking the line breaks makes exactly the live ones. */
  lemma {:induction false} BlankLive(u: string, ink: bool)
    requires !Contains(u, MARK)
    ensures MarkLive(Blank(u), ink) == Live(u, ink)
  {
    if u == "" {
    } else {
      assert u == [u[0]] + u[1..];
      ContainsStep(u[0], u[1..], MARK);
      BlankTail(u, 1);
      BlankLive(u[1..], ink);
      MarkPrefix(u);
      MarkPrefix(Blank(u));
      if |u| > 3 {
        BlankTail(u, 4);
        InkOfBlank(u[4..]);
      }
    }
  }

  /** Trimming stops at the last visible character. */
  lemma {:induction false} InkBeyond(v: string, k: nat)
    requires k <= |v|
    ensures HasInk(v[k..]) <==> |TrimRight(v)| > k
  {
    if v == "" || k >= |v| {
    } else {
      var x, d := v[..|v| - 1], v[|v| - 1];
      assert v[k..] == x[k..] + [d];
      InkOfConcat(x[k..], [d]);
      if IsSpace(d) { InkBeyond(x, k); }
    }
  }

  lemma {:induction false} TrimRightEnd(v: string)
    ensures TrimRight(v) != "" ==> !IsSpace(TrimRight(v)[|TrimRight(v)| - 1])
  {
    if v == "" || !IsSpace(v[|v| - 1]) {
    } else {
      TrimRightEnd(v[..|v| - 1]);
    }
  }

  lemma TrimMarkAt(v: string, p: nat)
    ensures OccursAt(TrimRight(v), MARK, p) <==> OccursAt(v, MARK, p) && HasInk(v[p + 4..])
  {
    var w := TrimRight(v);
    TrimRightEnd(v);
    if p + 4 <= |v| { InkBeyond(v, p + 4); }
    if p + 4 <= |w| {
      assert v[p..p + 4] == w[p..p + 4];
      assert w[p..p + 4][3] == w[p + 3];
    }
  }

  /** A right-trimmed text contains a marker exactly when the text has one with ink after it. */
  lemma TrimMark(v: string)
    ensures Contains(TrimRight(v), MARK) == MarkLive(v, true)
  {
    MarkLiveAt(v, true);
    IndexNone(TrimRight(v), MARK);
    forall p: nat ensures OccursAt(TrimRight(v), MARK, p) <==> OccursAt(v, MARK, p) && HasInk(v[p + 4..]) {
      TrimMarkAt(v, p);
    }
  }

  /** The message begins with the marker's dashes and something visible follows: the space
      the formatter puts in front completes the marker. */
  predicate Leads(msg: string) { Dashes(msg) && |msg| > 2 && Wide(msg[2]) && HasInk(msg[3..]) }

  /** A condition on the message as given: its frame will carry a data marker. */
  predicate MarkerSurvives(msg: string) { Leads(msg) || Live(msg, true) }

  lemma SettledFacts(msg: string, ink: bool)
    ensures
      var u := Settle(Settle(msg, TERMINATOR, "; ;"), MARK, " - - ");
      && Live(u, ink) == Live(msg, ink) && HasInk(u) == HasInk(msg)
      && (msg == "" <==> u == "") && (msg != "" ==> u[|u| - 1] == msg[|msg| - 1])
      && Leads(u) == Leads(msg)
  {
    SettleKeeps(msg, TERMINATOR, "; ;", ink);
    SettleKeeps(Settle(msg, TERMINATOR, "; ;"), MARK, " - - ", ink);
  }

  /** A sanitised message contains the data marker exactly when the original has two
      dashes between white characters not both of which are spaces; so never when the
      original has no line break. */
  lemma SanitizedMarker(msg: string)
    ensures Contains(Sanitized(msg), MARK) == Live(msg, false)
    ensures (forall i :: 0 <= i < |msg| ==> !IsBreak(msg[i])) ==> !Contains(Sanitized(msg), MARK)
  {
    var u := Settle(Settle(msg, TERMINATOR, "; ;"), MARK, " - - ");
    SettledFacts(msg, false);
    BlankLive(u, false);
    MarkLiveAt(Blank(u), false);
    IndexNone(Blank(u), MARK);
    if forall i :: 0 <= i < |msg| ==> !IsBreak(msg[i]) { NoBreakNoLive(msg); }
  }

  lemma {:induction false} NoBreakNoLive(s: string)
    requires forall i :: 0 <= i < |s| ==> !IsBreak(s[i])
    ensures !Live(s, false)
  {
    if s == "" {
    } else {
      NoBreakNoLive(s[1..]);
    }
  }

  /** Behind the formatter's space, the trimmed message carries a marker exactly when the
      condition on the original says so. */
  lemma FramedMarker(msg: string)
    ensures Contains(TrimRight(" " + Sanitized(msg)), MARK) == MarkerSurvives(msg)
  {
    var u := Settle(Settle(msg, TERMINATOR, "; ;"), MARK, " - - ");
    var v := Blank(u);
    SettledFacts(msg, true);
    BlankLive(u, true);
    TrimMark(" " + v);
    assert (" " + v)[1..] == v;
    MarkPrefix(" " + v);
    if |u| > 2 {
      assert (" " + v)[4..] == v[3..];
      BlankTail(u, 3);
      InkOfBlank(u[3..]);
    }
  }

  /** The last character is a semicolon exactly when the message's is. */
  lemma SanitizedEnd(msg: string)
    ensures
      var s := Sanitized(msg);
      && (s == "" <==> msg == "")
      && (msg != "" ==> (s[|s| - 1] == ';' <==> msg[|msg| - 1] == ';'))
      && HasInk(s) == HasInk(msg)
  {
    SettledFacts(msg, false);
    InkOfBlank(Settle(Settle(msg, TERMINATOR, "; ;"), MARK, " - - "));
  }
}
