/** What the sanitiser does to the words of a message: the two loops computed in one pass,
    what is left when white space is ignored, and which messages are not touched at all. */
module SanitizedText {
  import opened Text
  import opened Frames
  import opened Sanitizer

  // ------------------------------------------------------------ one pass instead of two loops

  /** A space between every two neighbouring semicolons. */
  function Parted(s: string): string {
    if s == "" then ""
    else if |s| >= 2 && s[0] == ';' && s[1] == ';' then "; " + Parted(s[1..])
    else [s[0]] + Parted(s[1..])
  }

  /** A space between the dashes of every marker; two markers may share their middle space. */
  function Spread(s: string): string {
    if s == "" then ""
    else if MARK <= s then " - -" + Spread(s[3..])
    else [s[0]] + Spread(s[1..])
  }

  lemma {:induction false} PartedPass(s: string)
    ensures Parted(ReplaceAll(s, TERMINATOR, "; ;")) == Parted(s)
    decreases |s|
  {
    if s == "" {
    } else {
      TermPrefix(s);
      if TERMINATOR <= s {
        var t := s[2..];
        var rt := ReplaceAll(t, TERMINATOR, "; ;");
        PartedPass(t);
        PartedHead(';', t, rt);
        assert s[1..] == [';'] + t;
        PartedTwo(rt);
      } else {
        var t := s[1..];
        PartedPass(t);
        PartedHead(s[0], t, ReplaceAll(t, TERMINATOR, "; ;"));
        assert s == [s[0]] + t;
      }
    }
  }

  lemma PartedTwo(rt: string)
    ensures Parted("; ;" + rt) == "; " + Parted([';'] + rt)
  {
    var y := [';'] + rt;
    assert ("; ;" + rt)[1..] == [' '] + y;
    assert ([' '] + y)[1..] == y;
    assert Parted([' '] + y) == " " + Parted(y);
    assert [';'] + (" " + Parted(y)) == "; " + Parted(y);
  }

  lemma PartedHead(c: char, t: string, rt: string)
    requires rt == ReplaceAll(t, TERMINATOR, "; ;") && Parted(rt) == Parted(t)
    ensures Parted([c] + rt) == Parted([c] + t)
  {
    EndsKept(t, TERMINATOR, "; ;");
    assert ([c] + rt)[1..] == rt && ([c] + t)[1..] == t;
  }

  lemma {:induction false} SpreadPass(s: string)
    ensures Spread(ReplaceAll(s, MARK, " - - ")) == Spread(s)
    decreases |s|
  {
    if s == "" {
    } else {
      if MARK <= s {
        var t := s[4..];
        SpreadPass(t);
        if |t| >= 2 { SpreadPass(t[2..]); }
        SpreadHead(' ', t);
        MarkPrefix(s);
        assert s[3..] == [' '] + t;
        SpreadTwo(ReplaceAll(t, MARK, " - - "));
      } else {
        var t := s[1..];
        SpreadPass(t);
        if |t| >= 2 { SpreadPass(t[2..]); }
        SpreadHead(s[0], t);
        assert s == [s[0]] + t;
      }
    }
  }

  lemma FourThen(a: char, b: char, c: char, d: char, t: string)
    ensures [a] + ([b] + ([c] + ([d] + t))) == [a, b, c, d] + t
  {
  }

  lemma SpreadTwo(rt: string)
    ensures Spread(" - - " + rt) == " - -" + Spread([' '] + rt)
  {
    var y := [' '] + rt;
    SpreadTwice(y);
    FourThen(' ', '-', ' ', '-', y);
    FourThen(' ', '-', ' ', '-', Spread(y));
    assert " - - " + rt == " - -" + y;
  }

  lemma SpreadTwice(y: string)
    requires y != "" && y[0] == ' '
    ensures Spread([' '] + (['-'] + ([' '] + (['-'] + y)))) == [' '] + (['-'] + ([' '] + (['-'] + Spread(y))))
  {
    SpreadSpaced(['-'] + y, y);
    var z := [' '] + (['-'] + y);
    SpreadSpaced(['-'] + z, z);
  }

  lemma SpreadSpaced(t: string, u: string)
    requires t == ['-'] + u && u != "" && u[0] == ' '
    ensures Spread([' '] + t) == [' '] + (['-'] + Spread(u))
  {
    SpreadStep('-', u);
    SpreadStep(' ', t);
  }

  lemma SpreadStep(c: char, t: string)
    requires !(c == ' ' && Dashes(t))
    ensures Spread([c] + t) == [c] + Spread(t)
  {
    MarkPrefix([c] + t);
    assert ([c] + t)[1..] == t;
  }

  lemma SpreadMark(c: char, t: string)
    ensures
      Spread([c] + t) ==
      if c == ' ' && Dashes(t) && |t| > 2 && t[2] == ' ' then " - -" + Spread(t[2..]) else [c] + Spread(t)
  {
    MarkPrefix([c] + t);
    assert ([c] + t)[1..] == t;
    if MARK <= [c] + t { assert ([c] + t)[3..] == t[2..]; }
  }

  lemma SpreadHead(c: char, t: string)
    requires Spread(ReplaceAll(t, MARK, " - - ")) == Spread(t)
    requires |t| >= 2 ==> Spread(ReplaceAll(t[2..], MARK, " - - ")) == Spread(t[2..])
    ensures Spread([c] + ReplaceAll(t, MARK, " - - ")) == Spread([c] + t)
  {
    var rt := ReplaceAll(t, MARK, " - - ");
    DashesKept(t, MARK, " - - ");
    SpreadMark(c, rt);
    SpreadMark(c, t);
  }

  lemma {:induction false} PartedWhole(s: string)
    requires !Contains(s, TERMINATOR)
    ensures Parted(s) == s
  {
    if s == "" {
    } else {
      TermPrefix(s);
      ContainsStep(s[0], s[1..], TERMINATOR);
      assert s == [s[0]] + s[1..];
      PartedWhole(s[1..]);
    }
  }

  lemma {:induction false} SpreadWhole(s: string)
    requires !Contains(s, MARK)
    ensures Spread(s) == s
  {
    if s == "" {
    } else {
      ContainsStep(s[0], s[1..], MARK);
      assert s == [s[0]] + s[1..];
      SpreadWhole(s[1..]);
    }
  }

  lemma {:induction false} PartedSettled(s: string)
    ensures Settle(s, TERMINATOR, "; ;") == Parted(s)
    decreases Occurrences(s, TERMINATOR)
  {
    if !Contains(s, TERMINATOR) {
      PartedWhole(s);
    } else {
      TermsFall(s);
      PartedPass(s);
      PartedSettled(ReplaceAll(s, TERMINATOR, "; ;"));
    }
  }

  lemma {:induction false} SpreadSettled(s: string)
    ensures Settle(s, MARK, " - - ") == Spread(s)
    decreases Occurrences(s, MARK)
  {
    if !Contains(s, MARK) {
      SpreadWhole(s);
    } else {
      MarksFall(s);
      SpreadPass(s);
      SpreadSettled(ReplaceAll(s, MARK, " - - "));
    }
  }

  /** However often the loops run, they put one space between every two neighbouring
      semicolons and one between the dashes of every marker, and nothing anywhere else. */
  lemma SanitizedOnce(msg: string)
    ensures Sanitized(msg) == Blank(Spread(Parted(msg)))
  {
    PartedSettled(msg);
    SpreadSettled(Parted(msg));
  }

  // ------------------------------------------------------------ the words of the message

  /** The text without its spaces and line breaks. */
  function Squeezed(s: string): string {
    if s == "" then "" else (if s[0] == ' ' || s[0] == '\r' || s[0] == '\n' then "" else [s[0]]) + Squeezed(s[1..])
  }

  lemma {:induction false} SqueezedParted(s: string)
    ensures Squeezed(Parted(s)) == Squeezed(s)
  {
    if s == "" {
    } else {
      SqueezedParted(s[1..]);
      var p := Parted(s[1..]);
      if |s| >= 2 && s[0] == ';' && s[1] == ';' {
        SqueezedPair(';', ' ', p);
        assert "; " + p == [';'] + ([' '] + p);
      } else {
        SqueezedStep(s[0], p);
      }
    }
  }

  lemma {:induction false} SqueezedSpread(s: string)
    ensures Squeezed(Spread(s)) == Squeezed(s)
    decreases |s|
  {
    if s == "" {
    } else if MARK <= s {
      SqueezedSpread(s[3..]);
      MarkPrefix(s);
      var p := Spread(s[3..]);
      SqueezedMark(p, s[3..]);
      assert s == " --" + s[3..];
    } else {
      SqueezedSpread(s[1..]);
      SqueezedStep(s[0], Spread(s[1..]));
    }
  }

  lemma SqueezedStep(c: char, t: string)
    ensures Squeezed([c] + t) == (if Wide(c) then "" else [c]) + Squeezed(t)
  {
    assert ([c] + t)[1..] == t;
  }

  lemma SqueezedMark(p: string, t: string)
    ensures Squeezed(" - -" + p) == "--" + Squeezed(p) && Squeezed(" --" + t) == "--" + Squeezed(t)
  {
    var q := [' '] + (['-'] + p);
    SqueezedPair(' ', '-', p);
    SqueezedPair(' ', '-', q);
    FourThen(' ', '-', ' ', '-', p);
    SqueezedPair('-', '-', t);
    SqueezedStep(' ', ['-'] + (['-'] + t));
    assert " --" + t == [' '] + (['-'] + (['-'] + t));
  }

  lemma SqueezedPair(c: char, d: char, t: string)
    ensures Squeezed([c] + ([d] + t)) == (if Wide(c) then "" else [c]) + ((if Wide(d) then "" else [d]) + Squeezed(t))
  {
    SqueezedStep(d, t);
    SqueezedStep(c, [d] + t);
  }

  lemma {:induction false} SqueezedBlank(s: string)
    ensures Squeezed(Blank(s)) == Squeezed(s)
  {
    if s == "" {
    } else {
      assert Blank(s)[1..] == Blank(s[1..]);
      SqueezedBlank(s[1..]);
    }
  }

  /** Apart from spaces and line breaks, every message keeps its text. */
  lemma TextKept(msg: string)
    ensures Squeezed(Sanitized(msg)) == Squeezed(msg)
  {
    SanitizedOnce(msg);
    SqueezedParted(msg);
    SqueezedSpread(Parted(msg));
    SqueezedBlank(Spread(Parted(msg)));
  }

  // ------------------------------------------------------------ messages that are not touched

  predicate Clean(msg: string) {
    && !Contains(msg, TERMINATOR) && !Contains(msg, MARK)
    && forall i :: 0 <= i < |msg| ==> msg[i] != '\r' && msg[i] != '\n'
  }

  /** The sanitiser leaves a message alone exactly when it holds no terminator, no marker
      and no line break. */
  lemma Untouched(msg: string)
    ensures Sanitized(msg) == msg <==> Clean(msg)
  {
    SanitizedClean(msg);
    SanitizedMarker(msg);
    if Sanitized(msg) == msg {
      assert forall i :: 0 <= i < |msg| ==> !IsBreak(msg[i]);
    }
  }
}
