/** Formatting a command and parsing the frame back. */
module CommandRoundTrip {
  import opened Prelude
  import opened Text
  import opened Base64
  import opened Frames
  import opened Commands

  // ------------------------------------------------------------ joined tokens

  /** What the validator guarantees about one token. */
  predicate CleanToken(tok: string) {
    tok != "" && !Contains(tok, TERMINATOR)
  }

  predicate Plain(ws: seq<string>) { Words(ws) && "--" !in ws }

  lemma {:induction false} JoinEnds(ws: seq<string>)
    requires ws != [] && forall i :: 0 <= i < |ws| ==> ws[i] != ""
    ensures
      var s, last := Join(ws), ws[|ws| - 1];
      s != "" && s[0] == ws[0][0] && s[|s| - 1] == last[|last| - 1]
  {
    if |ws| <= 1 {
    } else {
      var rest := ws[1..];
      assert rest[|rest| - 1] == ws[|ws| - 1];
      JoinEnds(rest);
      EndsOf(ws[0], Join(rest));
    }
  }

  lemma EndsOf(w: string, t: string)
    requires w != "" && t != ""
    ensures var s := w + " " + t; s != "" && s[0] == w[0] && s[|s| - 1] == t[|t| - 1]
  {
  }

  lemma {:induction false} JoinNoTerm(ws: seq<string>)
    requires forall i :: 0 <= i < |ws| ==> CleanToken(ws[i])
    ensures !Contains(Join(ws), TERMINATOR)
  {
    ContainsTerm(Join(ws));
    if |ws| == 1 {
      ContainsTerm(ws[0]);
    } else if |ws| > 1 {
      JoinNoTerm(ws[1..]);
      var w, rest := ws[0], Join(ws[1..]);
      ContainsTerm(w);
      ContainsTerm(rest);
      var s := Join(ws);
      assert s == w + " " + rest;
      forall k: nat ensures !TermAt(s, k) {
        if TermAt(s, k) {
          if k < |w| { assert s[|w|] == ' '; assert k + 1 < |w|; assert TermAt(w, k); }
          else { assert k > |w|; assert TermAt(rest, k - |w| - 1); }
        }
      }
    }
  }

  predicate DashesAt(s: string, k: int) { 0 <= k && k + 1 < |s| && s[k] == '-' && s[k + 1] == '-' }

  lemma DashPrefix(t: string)
    ensures "-- " <= t <==> DashesAt(t, 0) && |t| > 2 && t[2] == ' '
  {
    if |t| >= 3 { assert t[..3] == [t[0], t[1], t[2]]; }
  }

  lemma DashSuffix(s: string)
    ensures HasSuffix(s, " --") <==> |s| >= 3 && s[|s| - 3] == ' ' && DashesAt(s, |s| - 2)
  {
    if |s| >= 3 { assert s[|s| - 3..] == [s[|s| - 3], s[|s| - 2], s[|s| - 1]]; }
  }

  /** A word other than the marker, followed by a space or by nothing, does not look like
      the rest of a marker. */
  lemma NotDash(w: string, t: string)
    requires IsWord(w) && w != "--" && (t == "" || t[0] == ' ')
    ensures !("-- " <= w + t) && w + t != "--"
  {
    DashPrefix(w + t);
    if |w| == 1 {
      assert t != "" ==> (w + t)[1] == ' ';
    } else if |w| == 2 {
      assert w == [w[0], w[1]];
    } else {
      assert (w + t)[2] == w[2];
    }
  }

  lemma SpaceThen(t: string)
    requires !("-- " <= t)
    ensures Index(" " + t, MARK) == if Index(t, MARK) < 0 then -1 else 1 + Index(t, MARK)
  {
    assert (" " + t)[1..] == t;
    DashPrefix(t);
    if |t| >= 3 { assert (" " + t)[..4] == [' ', t[0], t[1], t[2]]; }
  }

  /** Skipping one word and the space behind it, when the next word is not the marker. */
  lemma SkipWord(w: string, w1: string, t: string)
    requires IsWord(w) && IsWord(w1) && w1 != "--" && (t == "" || t[0] == ' ')
    ensures Index(w + (" " + (w1 + t)), MARK) == if Index(w1 + t, MARK) < 0 then -1 else |w| + 1 + Index(w1 + t, MARK)
  {
    NotDash(w1, t);
    SpaceThen(w1 + t);
    IndexSkip(w, " " + (w1 + t), MARK);
  }

  /** What follows the first token. */
  function After(ws: seq<string>): (t: string)
    requires ws != []
    ensures Join(ws) == ws[0] + t && (t == "" || t[0] == ' ')
  {
    if |ws| == 1 then "" else " " + Join(ws[1..])
  }

  /** Several tokens with something behind them, seen from the first and from the second. */
  lemma JoinRest(ws: seq<string>, x: string) returns (t: string)
    requires |ws| > 1
    ensures Join(ws) + x == ws[0] + (" " + (ws[1] + t)) && Join(ws[1..]) + x == ws[1] + t
    ensures |Join(ws)| == |ws[0]| + 1 + |Join(ws[1..])|
    ensures (x != "" && x[0] == ' ' ==> t[0] == ' ') && |t| >= |x|
  {
    t := After(ws[1..]) + x;
    assert Join(ws[1..]) == ws[1] + After(ws[1..]);
  }

  /** After plain tokens, the first marker is the one that was appended. */
  lemma {:induction false} MarkAfter(ws: seq<string>, rest: string)
    requires ws != [] && Plain(ws)
    ensures Index(Join(ws) + MARK + rest, MARK) == |Join(ws)|
  {
    assert Join(ws) + MARK + rest == Join(ws) + (MARK + rest);
    if |ws| == 1 {
      IndexSkip(ws[0], MARK + rest, MARK);
    } else {
      assert Join(ws[1..]) + MARK + rest == Join(ws[1..]) + (MARK + rest);
      var t := JoinRest(ws, MARK + rest);
      SkipWord(ws[0], ws[1], t);
      MarkAfter(ws[1..], rest);
    }
  }

  lemma {:induction false} NoMark(ws: seq<string>)
    requires ws != [] && Plain(ws)
    ensures Index(Join(ws), MARK) < 0 && !HasSuffix(Join(ws), " --")
    decreases |ws|
  {
    if |ws| == 1 {
      NoMarkInWord(ws[0]);
    } else {
      var w, rest := PlainTail(ws);
      NoMark(rest);
      NoMarkBefore(w, rest[0], After(rest), Join(rest));
    }
  }

  lemma PlainTail(ws: seq<string>) returns (w: string, rest: seq<string>)
    requires |ws| > 1 && Plain(ws)
    ensures rest != [] && |rest| < |ws| && Plain(rest) && IsWord(w) && IsWord(rest[0]) && rest[0] != "--"
    ensures Join(ws) == w + (" " + Join(rest))
  {
    w, rest := ws[0], ws[1..];
    assert rest[0] == ws[1];
    Associates(w, " ", Join(rest));
  }

  lemma Associates(a: string, b: string, c: string)
    ensures a + b + c == a + (b + c)
  {
  }

  lemma NoMarkInWord(w: string)
    requires IsWord(w)
    ensures Index(w, MARK) < 0 && !HasSuffix(w, " --")
  {
    DashSuffix(w);
    assert w + "" == w;
    IndexSkip(w, "", MARK);
  }

  lemma NoMarkBefore(w: string, w1: string, t: string, tail: string)
    requires IsWord(w) && IsWord(w1) && w1 != "--" && (t == "" || t[0] == ' ') && tail == w1 + t
    requires Index(tail, MARK) < 0 && !HasSuffix(tail, " --")
    ensures Index(w + (" " + tail), MARK) < 0 && !HasSuffix(w + (" " + tail), " --")
  {
    SkipWord(w, w1, t);
    NotDash(w1, t);
    NoDashSuffix(w, tail);
  }

  lemma NoDashSuffix(w: string, tail: string)
    requires tail != "" && tail != "--" && !HasSuffix(tail, " --")
    ensures !HasSuffix(w + (" " + tail), " --")
  {
    var s := w + (" " + tail);
    DashSuffix(s);
    DashSuffix(tail);
    if |tail| == 1 {
      assert s[|s| - 2] == ' ';
    } else if |tail| == 2 {
      assert tail == [s[|s| - 2], s[|s| - 1]];
    } else {
      assert s[|s| - 3] == tail[|tail| - 3] && s[|s| - 2] == tail[|tail| - 2] && s[|s| - 1] == tail[|tail| - 1];
    }
  }

  // ------------------------------------------------------------ the data part

  lemma {:induction false} TrimCRNothing(s: string)
    requires s != "" ==> s[|s| - 1] != '\r'
    ensures TrimRightCR(s) == s
  {
  }

  lemma CutLength(len: string, enc: string)
    requires len != "" && forall i :: 0 <= i < |len| ==> IsDigit(len[i])
    ensures
      var s := len + "\n" + enc;
      Index(s, "\n") == |len| && s[..|len|] == len && s[|len| + 1..] == enc && TrimSpace(len) == len
  {
    assert len + "\n" + enc == len + ("\n" + enc);
    IndexSkip(len, "\n" + enc, "\n");
    TrimNothing(len);
  }

  /** The data part of a frame carries any payload whose encoding has a representable
      length. */
  lemma DataPartRoundTrip(data: seq<byte>)
    requires data != [] && |Encode(data)| <= MAX_INT
    ensures ParseDataPart(DataPart(data)) == Ok(data)
  {
    var enc := Encode(data);
    CutLength(Itoa(|enc|), enc);
    AtoiOfItoa(|enc|);
    assert InAlphabet(enc[|enc| - 1]);
    TrimCRNothing(enc);
    RoundTrip(data);
  }

  // ------------------------------------------------------------ what validation gives

  lemma {:induction false} ValidArgs(args: seq<string>)
    requires ValidateArgs(args) == None
    ensures forall i :: 0 <= i < |args| ==> CleanToken(args[i]) && IsWord(args[i]) && args[i] != "--"
  {
    if args == [] {
    } else {
      var a := args[0];
      ValidArgs(args[1..]);
      assert forall i :: 0 < i < |args| ==> args[i] == args[1..][i - 1];
      FieldsOfJoin([a]);
      assert "--" in ["--"];
    }
  }

  lemma ValidTokens(cmd: Command)
    requires Valid(cmd)
    ensures forall i :: 0 <= i < |Tokens(cmd)| ==> CleanToken(Tokens(cmd)[i])
  {
    ValidArgs(cmd.args);
  }

  lemma ValidWord(tok: string)
    requires IsWord(tok) && ValidateToken(tok, true) == None
    ensures tok != "--"
  {
    FieldsOfJoin([tok]);
    assert tok in [tok];
  }

  lemma PlainTokens(cmd: Command)
    requires Valid(cmd) && IsWord(cmd.verb) && (cmd.subVerb != "" ==> IsWord(cmd.subVerb))
    ensures Plain(Tokens(cmd))
  {
    ValidArgs(cmd.args);
    ValidWord(cmd.verb);
    if cmd.subVerb != "" { ValidWord(cmd.subVerb); }
  }

  // ------------------------------------------------------------ the body, parsed

  /** The branch of the parser for a trimmed line with a marker in it. */
  lemma ParseMarked(reg: Registry, line: string, part: string, ws: seq<string>)
    requires Index(line + MARK + part, MARK) == |line| && Fields(line) == ws != []
    requires TrimSpace(line + MARK + part) == line + MARK + part && line != "" && line[0] != '{' && line[0] != '['
    ensures ParseCommand(reg, line + MARK + part) == ParseTokens(reg, ws, part)
  {
    var b := line + MARK + part;
    assert b[..|line|] == line && b[|line| + |MARK|..] == part && b[0] == line[0];
  }

  lemma ParseWithData(reg: Registry, ws: seq<string>, part: string)
    requires ws != [] && Plain(ws) && ws[0][0] != '{' && ws[0][0] != '['
    requires part != "" && !IsSpace(part[|part| - 1])
    ensures ParseCommand(reg, Join(ws) + MARK + part) == ParseTokens(reg, ws, part)
  {
    var line := Join(ws);
    JoinEnds(ws);
    MarkedTrimmed(line, part);
    MarkAfter(ws, part);
    FieldsOfJoin(ws);
    ParseMarked(reg, line, part, ws);
  }

  lemma MarkedTrimmed(line: string, part: string)
    requires line != "" && !IsSpace(line[0]) && part != "" && !IsSpace(part[|part| - 1])
    ensures TrimSpace(line + MARK + part) == line + MARK + part
  {
    var b := line + MARK + part;
    assert b[0] == line[0] && b[|b| - 1] == part[|part| - 1];
    TrimNothing(b);
  }

  lemma ParseWithoutData(reg: Registry, ws: seq<string>)
    requires ws != [] && Plain(ws) && ws[0][0] != '{' && ws[0][0] != '['
    ensures ParseCommand(reg, Join(ws)) == ParseTokens(reg, ws, "")
  {
    JoinEnds(ws);
    assert IsWord(ws[|ws| - 1]);
    TrimNothing(Join(ws));
    NoMark(ws);
    FieldsOfJoin(ws);
  }

  lemma DataPartEnds(data: seq<byte>)
    requires data != []
    ensures var part := DataPart(data); part != "" && InAlphabet(part[|part| - 1])
    ensures Free(MARK + DataPart(data), ';')
  {
    var enc := Encode(data);
    assert forall k :: 0 <= k < |enc| ==> InAlphabet(enc[k]);
    var part := DataPart(data);
    assert part[|part| - 1] == enc[|enc| - 1];
  }

  function SentData(cmd: Command): string { if cmd.data != [] then DataPart(cmd.data) else "" }

  /** Parsing the body of a command made of plain tokens recovers those tokens and the
      data part. */
  lemma ParseBody(reg: Registry, cmd: Command)
    requires Plain(Tokens(cmd)) && Tokens(cmd)[0][0] != '{' && Tokens(cmd)[0][0] != '['
    ensures ParseCommand(reg, Body(cmd)) == ParseTokens(reg, Tokens(cmd), SentData(cmd))
  {
    if cmd.data != [] {
      assert Body(cmd) == Join(Tokens(cmd)) + MARK + DataPart(cmd.data);
      DataPartEnds(cmd.data);
      ParseWithData(reg, Tokens(cmd), DataPart(cmd.data));
    } else {
      assert Body(cmd) == Join(Tokens(cmd));
      ParseWithoutData(reg, Tokens(cmd));
    }
  }

  // ------------------------------------------------------------ the round trip

  /** What a sender can check before sending. */
  predicate Sendable(reg: Registry, cmd: Command) {
    var last := Tokens(cmd)[|Tokens(cmd)| - 1];
    && |Frame(cmd)| <= MAX_FRAME
    && IsWord(cmd.verb) && ToUpper(cmd.verb) == cmd.verb && reg.IsValidVerb(cmd.verb)
    && cmd.verb[0] != '{' && cmd.verb[0] != '['
    && (cmd.subVerb != "" ==>
          IsWord(cmd.subVerb) && ToUpper(cmd.subVerb) == cmd.subVerb && reg.IsSubVerbForVerb(cmd.verb, cmd.subVerb))
    && (cmd.subVerb == "" && cmd.args != [] ==> !reg.IsSubVerbForVerb(cmd.verb, cmd.args[0]))
    && (cmd.data == [] ==> last != "" && last[|last| - 1] != ';')
  }

  /** The reader takes exactly the frame and the parser returns the command. */
  predicate RoundTrips(reg: Registry, cmd: Command, rest: string) {
    && ReadFrame(Frame(cmd) + rest) == Got(Body(cmd), |Frame(cmd)|)
    && ParseCommand(reg, Body(cmd)) == Ok(cmd)
  }

  lemma BodyNoTerm(line: string, part: string)
    requires !Contains(line, TERMINATOR) && Free(part, ';')
    ensures !Contains(line + part, TERMINATOR)
  {
    var s := line + part;
    ContainsTerm(line);
    ContainsTerm(s);
    forall k: nat ensures !TermAt(s, k) {
      if k + 1 < |line| { assert !TermAt(line, k); }
    }
  }

  /** Clean tokens and a data part without semicolons: only the last token can spoil the
      frame, and only when nothing follows it. */
  lemma LineFrame(ws: seq<string>, part: string, body: string, frame: string, rest: string)
    requires ws != [] && (forall i :: 0 <= i < |ws| ==> CleanToken(ws[i])) && Free(part, ';')
    requires body == Join(ws) + part && frame == body + TERMINATOR
    ensures
      var last := ws[|ws| - 1];
      && last != ""
      && (ReadFrame(frame + rest) == Got(body, |frame|) <==>
            |frame| <= MAX_FRAME && (part == "" ==> last[|last| - 1] != ';'))
  {
    var line := Join(ws);
    JoinEnds(ws);
    JoinNoTerm(ws);
    BodyNoTerm(line, part);
    FrameReadsBack(body, rest);
    assert body[|body| - 1] == if part == "" then line[|line| - 1] else part[|part| - 1];
  }

  lemma BodyFrame(cmd: Command, rest: string)
    requires Valid(cmd)
    ensures
      var last := Tokens(cmd)[|Tokens(cmd)| - 1];
      && last != ""
      && (ReadFrame(Frame(cmd) + rest) == Got(Body(cmd), |Frame(cmd)|) <==>
            |Frame(cmd)| <= MAX_FRAME && (cmd.data == [] ==> last[|last| - 1] != ';'))
  {
    ValidTokens(cmd);
    var part := BodyParts(cmd);
    LineFrame(Tokens(cmd), part, Body(cmd), Frame(cmd), rest);
  }

  lemma BodyParts(cmd: Command) returns (part: string)
    ensures Body(cmd) == Join(Tokens(cmd)) + part && Free(part, ';') && (part == "" <==> cmd.data == [])
  {
    part := if cmd.data != [] then MARK + DataPart(cmd.data) else "";
    if cmd.data != [] { DataPartEnds(cmd.data); }
  }

  /** The tokens of a sendable command are read as its verb, sub-verb and arguments. */
  lemma TokensRead(reg: Registry, cmd: Command, part: string)
    requires IsWord(cmd.verb) && ToUpper(cmd.verb) == cmd.verb && reg.IsValidVerb(cmd.verb)
    requires cmd.subVerb != "" ==> ToUpper(cmd.subVerb) == cmd.subVerb && reg.IsSubVerbForVerb(cmd.verb, cmd.subVerb)
    requires cmd.subVerb == "" && cmd.args != [] ==> !reg.IsSubVerbForVerb(cmd.verb, cmd.args[0])
    requires if cmd.data == [] then part == "" else part != "" && ParseDataPart(part) == Ok(cmd.data)
    ensures ParseTokens(reg, Tokens(cmd), part) == Ok(cmd)
  {
    if cmd.subVerb != "" {
      assert Tokens(cmd)[2..] == cmd.args;
    } else {
      assert Tokens(cmd)[1..] == cmd.args;
      if cmd.args != [] { UpperTwice(cmd.args[0]); }
    }
  }

  lemma SendableRoundTrips(reg: Registry, cmd: Command, rest: string)
    requires Valid(cmd) && Sendable(reg, cmd)
    ensures RoundTrips(reg, cmd, rest)
  {
    BodyFrame(cmd, rest);
    PlainTokens(cmd);
    ParseBody(reg, cmd);
    if cmd.data != [] {
      DataPartRoundTrip(cmd.data);
      DataPartEnds(cmd.data);
    }
    TokensRead(reg, cmd, SentData(cmd));
  }

  lemma RoundTripsSendable(reg: Registry, cmd: Command, rest: string)
    requires Valid(cmd) && RoundTrips(reg, cmd, rest)
    ensures Sendable(reg, cmd)
  {
    BodyFrame(cmd, rest);
    VerbIsWord(reg, cmd);
    if cmd.subVerb == "" && cmd.args != [] { FirstArgument(reg, cmd); }
  }

  /** A first argument that names a sub-verb would be read as one. */
  lemma FirstArgument(reg: Registry, cmd: Command)
    requires Valid(cmd) && cmd.subVerb == "" && cmd.args != [] && ParseCommand(reg, Body(cmd)) == Ok(cmd)
    ensures !reg.IsSubVerbForVerb(cmd.verb, cmd.args[0])
  {
    VerbIsWord(reg, cmd);
    PlainTokens(cmd);
    ParseBody(reg, cmd);
    ReadAsSubVerb(reg, Tokens(cmd), SentData(cmd), cmd);
    assert Tokens(cmd)[1] == cmd.args[0];
  }

  lemma ReadAsSubVerb(reg: Registry, ws: seq<string>, part: string, cmd: Command)
    requires |ws| > 1 && ws[1] != "" && ParseTokens(reg, ws, part) == Ok(cmd) && cmd.subVerb == ""
    ensures !reg.IsSubVerbForVerb(cmd.verb, ws[1])
  {
    UpperTwice(ws[0]);
    UpperTwice(ws[1]);
  }

  lemma ParsedTokens(reg: Registry, parts: seq<string>, dataPart: string, c: Command)
    requires parts != [] && Words(parts) && ParseTokens(reg, parts, dataPart) == Ok(c)
    ensures IsWord(c.verb) && ToUpper(c.verb) == c.verb && reg.IsValidVerb(c.verb)
    ensures c.subVerb != "" ==>
      IsWord(c.subVerb) && ToUpper(c.subVerb) == c.subVerb && reg.IsSubVerbForVerb(c.verb, c.subVerb)
  {
    UpperTwice(parts[0]);
    if |parts| > 1 { UpperTwice(parts[1]); }
  }

  /** Whatever the bytes, a parsed command has a registered upper-case verb, a sub-verb
      only if it is registered for that verb, and did not look like JSON. */
  lemma ParsedCommand(reg: Registry, body: string, c: Command)
    requires ParseCommand(reg, body) == Ok(c)
    ensures IsWord(c.verb) && ToUpper(c.verb) == c.verb && reg.IsValidVerb(c.verb)
    ensures c.subVerb != "" ==>
      IsWord(c.subVerb) && ToUpper(c.subVerb) == c.subVerb && reg.IsSubVerbForVerb(c.verb, c.subVerb)
    ensures TrimSpace(body) != "" && TrimSpace(body)[0] != '{' && TrimSpace(body)[0] != '['
  {
    var content := TrimSpace(body);
    var idx := Index(content, MARK);
    var parts := Fields(if idx < 0 then content else content[..idx]);
    ParsedTokens(reg, parts, if idx < 0 then "" else content[idx + |MARK|..], c);
  }

  lemma VerbIsWord(reg: Registry, cmd: Command)
    requires ParseCommand(reg, Body(cmd)) == Ok(cmd)
    ensures IsWord(cmd.verb) && ToUpper(cmd.verb) == cmd.verb && reg.IsValidVerb(cmd.verb)
    ensures cmd.verb[0] != '{' && cmd.verb[0] != '['
    ensures cmd.subVerb != "" ==>
      IsWord(cmd.subVerb) && ToUpper(cmd.subVerb) == cmd.subVerb && reg.IsSubVerbForVerb(cmd.verb, cmd.subVerb)
  {
    ParsedCommand(reg, Body(cmd), cmd);
    BodyStart(cmd);
    assert TrimLeft(Body(cmd)) == Body(cmd);
  }

  lemma BodyStart(cmd: Command)
    requires cmd.verb != ""
    ensures Body(cmd) != "" && Body(cmd)[0] == cmd.verb[0]
  {
    assert Tokens(cmd)[0] == cmd.verb;
  }

  /** A validated command survives the wire exactly when it is sendable: for every
      registry, every command and whatever follows the frame. */
  lemma CommandRoundTrip(reg: Registry, cmd: Command, rest: string)
    requires Valid(cmd)
    ensures RoundTrips(reg, cmd, rest) <==> Sendable(reg, cmd)
  {
    if Sendable(reg, cmd) { SendableRoundTrips(reg, cmd, rest); }
    if RoundTrips(reg, cmd, rest) { RoundTripsSendable(reg, cmd, rest); }
  }

  // ------------------------------------------------------------ streams of commands

  function FrameAll(cmds: seq<Command>): string {
    if cmds == [] then "" else Frame(cmds[0]) + FrameAll(cmds[1..])
  }

  /** Reading and parsing frame after frame, until no complete frame is left. */
  function ParseAll(reg: Registry, stream: string): seq<Result<Command, ParseError>>
    decreases |stream|
  {
    match ReadFrame(stream)
    case Got(body, consumed) => [ParseCommand(reg, body)] + ParseAll(reg, stream[consumed..])
    case _ => []
  }

  lemma StreamStep(reg: Registry, cmd: Command, rest: string)
    requires RoundTrips(reg, cmd, rest)
    ensures ParseAll(reg, Frame(cmd) + rest) == [Ok(cmd)] + ParseAll(reg, rest)
  {
    assert (Frame(cmd) + rest)[|Frame(cmd)|..] == rest;
  }

  function Oks(cmds: seq<Command>): seq<Result<Command, ParseError>> {
    if cmds == [] then [] else [Ok(cmds[0])] + Oks(cmds[1..])
  }

  /** A concatenation of frames parses back to the list of commands. */
  lemma {:induction false} StreamRoundTrip(reg: Registry, cmds: seq<Command>)
    requires forall i :: 0 <= i < |cmds| ==> Valid(cmds[i]) && Sendable(reg, cmds[i])
    ensures ParseAll(reg, FrameAll(cmds)) == Oks(cmds)
  {
    if cmds == [] {
    } else {
      var rest := FrameAll(cmds[1..]);
      CommandRoundTrip(reg, cmds[0], rest);
      StreamStep(reg, cmds[0], rest);
      StreamRoundTrip(reg, cmds[1..]);
    }
  }
}
