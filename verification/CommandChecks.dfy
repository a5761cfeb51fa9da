/** What the validator lets through and what the parser turns away, told from the characters. */
module CommandChecks {
  import opened Prelude
  import opened Text
  import opened TextFacts
  import opened Base64
  import opened Frames
  import opened Commands
  import opened CommandRoundTrip

  // ------------------------------------------------------------ tokens

  /** No two neighbouring semicolons, no line break, and no free-standing pair of dashes; no
      white space at all unless it is allowed. */
  ghost predicate Harmless(tok: string, allowSpace: bool) {
    && tok != ""
    && (forall k :: 0 <= k && k + 1 < |tok| ==> !(tok[k] == ';' && tok[k + 1] == ';'))
    && (forall k :: 0 <= k < |tok| ==> tok[k] != '\r' && tok[k] != '\n')
    && !Stands(tok, "--")
    && (!allowSpace ==> forall k :: 0 <= k < |tok| ==> !IsSpace(tok[k]))
  }

  /** The validator accepts exactly the harmless tokens. */
  lemma TokenExact(tok: string, allowSpace: bool)
    ensures ValidateToken(tok, allowSpace) == None <==> Harmless(tok, allowSpace)
  {
    NoTerminator(tok);
    assert forall k :: 0 <= k && k + 1 < |tok| ==> (TermAt(tok, k) <==> tok[k] == ';' && tok[k + 1] == ';');
    assert Unterminated(tok) ==> forall k :: 0 <= k && k + 1 < |tok| ==> !TermAt(tok, k);
    FieldsHas(tok, "--");
  }

  lemma {:induction false} ArgsExact(args: seq<string>)
    ensures ValidateArgs(args) == None <==> forall i :: 0 <= i < |args| ==> Harmless(args[i], false)
  {
    if args == [] {
    } else {
      TokenExact(args[0], false);
      ArgsExact(args[1..]);
      assert args == [args[0]] + args[1..];
    }
  }

  /** The validator accepts exactly the commands with a harmless verb, a harmless sub-verb if
      there is one, and harmless arguments without white space; the payload is free. */
  lemma CommandExact(cmd: Command)
    ensures
      Valid(cmd) <==>
      && Harmless(cmd.verb, true) && (cmd.subVerb != "" ==> Harmless(cmd.subVerb, true))
      && forall i :: 0 <= i < |cmd.args| ==> Harmless(cmd.args[i], false)
  {
    TokenExact(cmd.verb, true);
    TokenExact(cmd.subVerb, true);
    ArgsExact(cmd.args);
  }

  // ------------------------------------------------------------ the frame, spelled out

  /** Joining puts one space between neighbours. */
  lemma JoinOf(front: seq<string>, w: string)
    ensures Join(front + [w]) == if front == [] then w else Join(front) + " " + w
  {
    if front == [] {
      assert front + [w] == [w];
    } else {
      JoinAppend(front, w);
    }
  }

  /** Verb, sub-verb and arguments with one space between them; a payload behind a marker as its
      encoded length, a newline and its encoding; and the terminator. */
  lemma FrameSpelled(cmd: Command)
    ensures
      var ws := [cmd.verb] + (if cmd.subVerb == "" then [] else [cmd.subVerb]) + cmd.args;
      var enc := Encode(cmd.data);
      Frame(cmd) == Join(ws) + (if cmd.data == [] then "" else " -- " + Itoa(|enc|) + "\n" + enc) + ";;"
  {
    var enc := Encode(cmd.data);
    assert " -- " + (Itoa(|enc|) + "\n" + enc) == " -- " + Itoa(|enc|) + "\n" + enc;
  }

  // ------------------------------------------------------------ the data part

  lemma {:induction false} TrimCRSplit(s: string)
    ensures
      var enc := TrimRightCR(s);
      enc <= s && (enc == "" || enc[|enc| - 1] != '\r') && forall i :: |enc| <= i < |s| ==> s[i] == '\r'
  {
    if s == "" || s[|s| - 1] != '\r' {
    } else {
      TrimCRSplit(s[..|s| - 1]);
    }
  }

  lemma {:induction false} TrimCROf(enc: string, cr: string)
    requires (enc == "" || enc[|enc| - 1] != '\r') && forall i :: 0 <= i < |cr| ==> cr[i] == '\r'
    ensures TrimRightCR(enc + cr) == enc
  {
    if cr == "" {
      assert enc + cr == enc;
      TrimCRNothing(enc);
    } else {
      assert (enc + cr)[..|enc + cr| - 1] == enc + cr[..|cr| - 1];
      TrimCROf(enc, cr[..|cr| - 1]);
    }
  }

  /** A length, a newline, encoded text, and carriage returns at the end. */
  predicate Laid(part: string, len: string, enc: string, cr: string) {
    && part == len + "\n" + enc + cr && Free(len, '\n') && (enc == "" || enc[|enc| - 1] != '\r')
    && forall i :: 0 <= i < |cr| ==> cr[i] == '\r'
  }

  lemma LaidOut(part: string, len: string, enc: string, cr: string)
    requires Laid(part, len, enc, cr)
    ensures Index(part, "\n") == |len| && part[..|len|] == len && TrimRightCR(part[|len| + 1..]) == enc
  {
    assert part == len + ("\n" + (enc + cr));
    IndexSkip(len, "\n" + (enc + cr), "\n");
    assert part[|len| + 1..] == enc + cr;
    TrimCROf(enc, cr);
  }

  lemma Glued(part: string, nl: nat, enc: string)
    requires nl < |part| && part[nl] == '\n' && enc <= part[nl + 1..]
    ensures part == part[..nl] + "\n" + enc + part[nl + 1..][|enc|..]
  {
    var tail := part[nl + 1..];
    assert tail == enc + tail[|enc|..];
    assert part == part[..nl] + "\n" + tail;
  }

  lemma LayOut(part: string) returns (len: string, enc: string, cr: string)
    requires Index(part, "\n") >= 0
    ensures Laid(part, len, enc, cr)
  {
    var nl := Index(part, "\n");
    var tail := part[nl + 1..];
    len, enc := part[..nl], TrimRightCR(tail);
    TrimCRSplit(tail);
    cr := tail[|enc|..];
    BeforeFirst(part);
    assert part[nl] == '\n' by { assert part[nl..nl + 1] == "\n"; }
    Glued(part, nl, enc);
  }

  lemma BeforeFirst(part: string)
    requires Index(part, "\n") >= 0
    ensures Free(part[..Index(part, "\n")], '\n')
  {
    var nl := Index(part, "\n");
    forall i | 0 <= i < nl ensures part[i] != '\n' {
      if part[i] == '\n' {
        assert part[i..i + 1] == "\n";
        IndexLeast(part, "\n", i);
      }
    }
  }

  /** Laid out with exactly as many encoded characters as the length says, which decode to
      these bytes. */
  predicate Carries(part: string, data: seq<byte>, len: string, enc: string, cr: string) {
    Laid(part, len, enc, cr) && Atoi(TrimSpace(len)) == Some(|enc|) && |enc| > 0 && Decode(enc) == Bytes(data)
  }

  lemma CarriesParses(part: string, data: seq<byte>, len: string, enc: string, cr: string)
    requires Carries(part, data, len, enc, cr)
    ensures ParseDataPart(part) == Ok(data)
  {
    LaidOut(part, len, enc, cr);
  }

  lemma ParsesCarries(part: string, data: seq<byte>, len: string, enc: string, cr: string)
    requires data != [] && ParseDataPart(part) == Ok(data) && Laid(part, len, enc, cr)
    ensures Carries(part, data, len, enc, cr)
  {
    LaidOut(part, len, enc, cr);
  }

  /** A data part gives these bytes, and they are not empty, exactly when it is laid out as a
      length, a newline and encoded text of exactly that length which decodes to them. */
  lemma DataExact(part: string, data: seq<byte>)
    requires data != []
    ensures ParseDataPart(part) == Ok(data) <==> exists len, enc, cr :: Carries(part, data, len, enc, cr)
  {
    if ParseDataPart(part) == Ok(data) {
      assert Index(part, "\n") >= 0;
      var len, enc, cr := LayOut(part);
      ParsesCarries(part, data, len, enc, cr);
    }
    if len, enc, cr :| Carries(part, data, len, enc, cr) {
      CarriesParses(part, data, len, enc, cr);
    }
  }

  /** Without a newline there is no payload: only the length zero may stand alone. */
  lemma NoNewline(part: string)
    requires Free(part, '\n')
    ensures ParseDataPart(part) == if TrimSpace(part) == "0" then Ok([]) else Err(MissingNewline)
  {
    IndexNone(part, "\n");
    forall k: nat ensures !OccursAt(part, "\n", k) {
      if k + 1 <= |part| { assert part[k..k + 1] == [part[k]]; }
    }
  }

  /** A marker at the end of the line, with nothing behind it, is an error. */
  lemma MarkerWithoutLength(reg: Registry, ws: seq<string>)
    requires ws != [] && Plain(ws) && ws[0][0] != '{' && ws[0][0] != '['
    ensures ParseCommand(reg, Join(ws) + " --") == Err(MissingLength)
  {
    var line := Join(ws) + " --";
    JoinEnds(ws);
    assert IsWord(ws[0]);
    assert line[0] == ws[0][0] && line[|line| - 1] == '-';
    TrimNothing(line);
    assert line[|line| - 3..] == " --";
    MarkAfter(ws, "");
    NoMarkYet(Join(ws));
  }

  /** The marker's last space is missing. */
  lemma NoMarkYet(line: string)
    requires Index(line + MARK + "", MARK) == |line|
    ensures Index(line + " --", MARK) < 0
  {
    var s, full := line + " --", line + MARK + "";
    IndexNone(s, MARK);
    forall k: nat ensures !OccursAt(s, MARK, k) {
      if OccursAt(s, MARK, k) {
        Earlier(line, k);
        IndexLeast(full, MARK, k);
      }
    }
  }

  lemma Earlier(line: string, k: nat)
    requires OccursAt(line + " --", MARK, k)
    ensures OccursAt(line + MARK + "", MARK, k) && k < |line|
  {
    var s, full := line + " --", line + MARK + "";
    assert full == s + " ";
    assert full[k..k + 4] == s[k..k + 4];
  }

  /** A length other than zero that is not the length of what follows is an error, whatever
      follows. */
  lemma WrongLength(n: nat, enc: string, cr: string)
    requires 0 < n <= MAX_INT && n != |enc| && Laid(Itoa(n) + "\n" + enc + cr, Itoa(n), enc, cr)
    ensures ParseDataPart(Itoa(n) + "\n" + enc + cr) == Err(LengthMismatch)
  {
    LaidOut(Itoa(n) + "\n" + enc + cr, Itoa(n), enc, cr);
    AtoiOfItoa(n);
    TrimNothing(Itoa(n));
  }

  /** Behind the length zero anything is ignored. */
  lemma ZeroLength(part: string, len: string, enc: string, cr: string)
    requires Laid(part, len, enc, cr) && Atoi(TrimSpace(len)) == Some(0)
    ensures ParseDataPart(part) == Ok([])
  {
    LaidOut(part, len, enc, cr);
  }

  /** A command whose payload was cut or stretched on the way is refused, and never read as a
      command with other bytes. */
  lemma DamagedPayload(reg: Registry, cmd: Command, enc: string)
    requires Valid(cmd) && Sendable(reg, cmd) && cmd.data != [] && |enc| != |Encode(cmd.data)| <= MAX_INT
    requires enc != "" && !IsSpace(enc[|enc| - 1])
    ensures
      var line := Join(Tokens(cmd)) + MARK + (Itoa(|Encode(cmd.data)|) + "\n" + enc);
      ParseCommand(reg, line) == Err(BadData(LengthMismatch))
  {
    var n := |Encode(cmd.data)|;
    var part := Itoa(n) + "\n" + enc;
    PlainTokens(cmd);
    assert part[|part| - 1] == enc[|enc| - 1];
    ParseWithData(reg, Tokens(cmd), part);
    assert part == Itoa(n) + "\n" + enc + "";
    WrongLength(n, enc, "");
    assert reg.IsValidVerb(Tokens(cmd)[0]);
    UpperTwice(Tokens(cmd)[0]);
  }
}
