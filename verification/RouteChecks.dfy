/** Which patterns a subprocess may claim, and what a pattern claims. */
module RouteChecks {
  import opened Prelude
  import opened Text
  import opened Routes

  // ------------------------------------------------------------ what is accepted

  /** What the patterns claim, one claim for each pattern that is not blank, in order. */
  ghost function ClaimList(commands: seq<string>): seq<Claim> {
    if commands == [] then []
    else
      var p := Normal(commands[|commands| - 1]);
      ClaimList(commands[..|commands| - 1]) + if p == "" then [] else [ClaimOf(p)]
  }

  lemma {:induction false} ClaimsListed(commands: seq<string>)
    ensures forall c :: c in Claims(commands) <==> c in ClaimList(commands)
  {
    if commands == [] {
    } else {
      ClaimsListed(commands[..|commands| - 1]);
    }
  }

  /** One or two words, of which the first is not the hub's, and nobody else claims it. */
  ghost predicate Available(own: Owned, id: string, c: Claim, hubVerbs: set<string>) {
    && 1 <= |c.words| <= 2 && c.words[0] !in hubVerbs
    && forall other :: ClaimedBy(own, other, c) ==> other == id
  }

  /** Everything claimed is available, and nothing is claimed twice. */
  ghost predicate Admissible(own: Owned, id: string, cs: seq<Claim>, hubVerbs: set<string>) {
    && (forall i :: 0 <= i < |cs| ==> Available(own, id, cs[i], hubVerbs))
    && (forall i, k :: 0 <= k < i < |cs| ==> cs[k] != cs[i])
  }

  lemma ClaimErrorExact(t: Table, own: Owned, id: string, c: Claim, seen: set<Claim>, hubVerbs: set<string>)
    requires NoConflict(own) && Covers(t, own) && Only(t, own) && Words(c.words)
    ensures ClaimError(c, seen, id, t, hubVerbs) == None <==> Available(own, id, c, hubVerbs) && c !in seen
  {
    FindsOwner(t, own, c);
  }

  lemma AdmissibleStep(own: Owned, id: string, cs: seq<Claim>, c: Claim, hubVerbs: set<string>)
    ensures
      Admissible(own, id, cs + [c], hubVerbs) <==>
      Admissible(own, id, cs, hubVerbs) && Available(own, id, c, hubVerbs) && c !in cs
  {
    var all := cs + [c];
    assert forall i :: 0 <= i < |cs| ==> all[i] == cs[i];
    assert all[|cs|] == c;
  }

  /** The validator, on the routing table of the registered subprocesses, accepts exactly the
      lists of patterns whose claims are admissible: two-sided, for any patterns. */
  lemma {:induction false} AcceptedExactly(t: Table, own: Owned, id: string, commands: seq<string>,
                                           hubVerbs: set<string>)
    requires NoConflict(own) && Covers(t, own) && Only(t, own)
    ensures FirstError(commands, id, t, hubVerbs) == None <==> Admissible(own, id, ClaimList(commands), hubVerbs)
  {
    if commands == [] {
    } else {
      var front, p := commands[..|commands| - 1], Normal(commands[|commands| - 1]);
      AcceptedExactly(t, own, id, front, hubVerbs);
      ClaimUpper(commands[|commands| - 1]);
      ClaimsListed(front);
      OneMorePattern(t, own, id, ClaimList(front), Claims(front), FirstError(front, id, t, hubVerbs), p, ClaimOf(p),
                     hubVerbs);
    }
  }

  /** The claims so far, listed and as a set, the error so far, and one more pattern. */
  lemma OneMorePattern(t: Table, own: Owned, id: string, cs: seq<Claim>, seen: set<Claim>, e: Option<RouteError>,
                       p: string, c: Claim, hubVerbs: set<string>)
    requires NoConflict(own) && Covers(t, own) && Only(t, own) && Words(c.words)
    requires (forall d :: d in seen <==> d in cs) && (e == None <==> Admissible(own, id, cs, hubVerbs))
    ensures
      (if e.Some? || p == "" then e else ClaimError(c, seen, id, t, hubVerbs)) == None <==>
      Admissible(own, id, cs + if p == "" then [] else [c], hubVerbs)
  {
    ClaimErrorExact(t, own, id, c, seen, hubVerbs);
    AdmissibleStep(own, id, cs, c, hubVerbs);
    assert cs + [] == cs;
  }

  // ------------------------------------------------------------ what a pattern claims

  /** The words in capitals. */
  function Capitals(ws: seq<string>): (r: seq<string>)
    ensures |r| == |ws| && forall i :: 0 <= i < |ws| ==> r[i] == ToUpper(ws[i])
  {
    if ws == [] then [] else [ToUpper(ws[0])] + Capitals(ws[1..])
  }

  lemma UpperConcat(a: string, b: string)
    ensures ToUpper(a + b) == ToUpper(a) + ToUpper(b)
  {
  }

  lemma {:induction false} UpperJoin(ws: seq<string>)
    ensures ToUpper(Join(ws)) == Join(Capitals(ws))
  {
    if ws == [] {
    } else if |ws| == 1 {
      assert Capitals(ws) == [ToUpper(ws[0])];
    } else {
      UpperJoin(ws[1..]);
      UpperConcat(ws[0] + " ", Join(ws[1..]));
      UpperConcat(ws[0], " ");
      assert ToUpper(" ") == " ";
      assert Capitals(ws)[1..] == Capitals(ws[1..]);
    }
  }

  lemma {:induction false} JoinedEnds(ws: seq<string>)
    requires ws != [] && Words(ws)
    ensures
      var s, last := Join(ws), ws[|ws| - 1];
      s != "" && s[0] == ws[0][0] && s[|s| - 1] == last[|last| - 1]
  {
    if |ws| == 1 {
    } else {
      JoinedEnds(ws[1..]);
      assert ws[1..][|ws| - 2] == ws[|ws| - 1];
    }
  }

  predicate NoStar(ws: seq<string>) { forall i :: 0 <= i < |ws| ==> Free(ws[i], '*') }

  /** Words without a star claim exactly themselves, in capitals. */
  lemma ExactPattern(ws: seq<string>)
    requires ws != [] && Words(ws) && NoStar(ws)
    ensures ClaimOf(Normal(Join(ws))) == Claim(Exact, Capitals(ws))
  {
    var p := Join(ws);
    JoinedEnds(ws);
    assert IsWord(ws[0]) && IsWord(ws[|ws| - 1]) && Free(ws[|ws| - 1], '*');
    TrimNothing(p);
    UpperJoin(ws);
    var q := ToUpper(p);
    assert q[|q| - 1] == UpperChar(p[|p| - 1]) != '*';
    NoStarEnd(q);
    CapitalWords(ws);
    FieldsOfJoin(Capitals(ws));
  }

  lemma CapitalWords(ws: seq<string>)
    requires Words(ws)
    ensures Words(Capitals(ws))
  {
    forall i | 0 <= i < |ws| ensures IsWord(Capitals(ws)[i]) { UpperTwice(ws[i]); }
  }

  lemma SuffixEnd(q: string, t: string)
    requires t != "" && HasSuffix(q, t)
    ensures q != "" && q[|q| - 1] == t[|t| - 1]
  {
    assert q[|q| - |t|..][|t| - 1] == q[|q| - 1];
  }

  lemma NoStarEnd(q: string)
    requires q != ""
    ensures IsPrefix(q) <==> q[|q| - 1] == '*'
  {
    assert q[|q| - 1..] == [q[|q| - 1]];
    if HasSuffix(q, " *") { SuffixEnd(q, " *"); }
  }

  /** With a star behind them, with or without a space, they claim every command that begins
      with them. */
  lemma PrefixPattern(ws: seq<string>, tail: string)
    requires ws != [] && Words(ws) && (tail == "*" || tail == " *")
    ensures ClaimOf(Normal(Join(ws) + tail)) == Claim(Prefix, Capitals(ws))
  {
    var p := Join(ws) + tail;
    JoinedEnds(ws);
    assert IsWord(ws[0]);
    assert p[0] == ws[0][0] && p[|p| - 1] == '*';
    TrimNothing(p);
    UpperJoin(ws);
    UpperConcat(Join(ws), tail);
    CapitalWords(ws);
    StarOff(Capitals(ws), tail, ToUpper(p));
  }

  lemma StarOff(ws: seq<string>, tail: string, q: string)
    requires ws != [] && Words(ws) && (tail == "*" || tail == " *") && q == Join(ws) + ToUpper(tail)
    ensures ClaimOf(q) == Claim(Prefix, ws)
  {
    assert ToUpper(tail) == tail;
    assert q[|q| - 1] == '*';
    NoStarEnd(q);
    FieldsOfJoin(ws);
    var r := TrimSuffix(q, '*');
    FieldsTrim(r);
    if tail == "*" {
      assert r == Join(ws);
    } else {
      assert r == Join(ws) + [' '];
      FieldsAppendSpace(Join(ws), ' ');
    }
  }
}
