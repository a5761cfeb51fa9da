/** Formatting a response and parsing the frame back. */
module ResponseRoundTrip {
  import opened Prelude
  import opened Text
  import opened Base64
  import opened Frames
  import opened Sanitizer
  import opened Responses
  import opened Commands
  import opened CommandRoundTrip

  /** The reader takes exactly the frame of this body, and it parses to this response. */
  predicate Delivers(body: string, rest: string, r: Response) {
    && ReadFrame(body + TERMINATOR + rest) == Got(body, |body| + 2)
    && ParseResponse(body) == Ok(r)
  }

  // ------------------------------------------------------------ trimming

  lemma {:induction false} TrimPrefix(a: string, b: string)
    requires a != "" && !IsSpace(a[|a| - 1])
    ensures TrimRight(a + b) == a + TrimRight(b)
  {
    if b == "" {
      assert a + b == a;
    } else if IsSpace(b[|b| - 1]) {
      assert (a + b)[..|a + b| - 1] == a + b[..|b| - 1];
      TrimPrefix(a, b[..|b| - 1]);
    }
  }

  /** A text with a leading space, trimmed: nothing, or the space and the trimmed text. */
  function Tail(san: string): string { TrimRight(" " + san) }

  lemma {:induction false} TailIs(san: string)
    ensures Tail(san) == if HasInk(san) then " " + TrimRight(san) else ""
    ensures !HasInk(san) <==> TrimRight(san) == ""
  {
    InkBeyond(san, 0);
    assert san[0..] == san;
    if san == "" {
      assert " " + san == " ";
      assert TrimRight(" ") == TrimRight("");
    } else if IsSpace(san[|san| - 1]) {
      var x := san[..|san| - 1];
      assert (" " + san)[..|san|] == " " + x;
      assert san == x + [san[|san| - 1]];
      InkOfConcat(x, [san[|san| - 1]]);
      TailIs(x);
    } else {
      assert TrimRight(san) == san;
    }
  }

  predicate IsTail(x: string) { x == "" || x[0] == ' ' }

  // ------------------------------------------------------------ cutting and splitting

  lemma NameFacts(k: Kind)
    ensures Name(k) != "" && Free(Name(k), ';') && Free(Name(k), ' ') && NoSpace(Name(k))
  {
  }

  lemma KindFacts(k: Kind)
    ensures KindNamed(ToUpper(Name(k))) == Some(k)
  {
    CapitalName(k);
    UpperStays(Name(k));
  }

  lemma CapitalName(k: Kind)
    ensures forall i :: 0 <= i < |Name(k)| ==> !('a' <= Name(k)[i] <= 'z')
    ensures KindNamed(Name(k)) == Some(k)
  {
  }

  lemma {:induction false} UpperStays(s: string)
    requires forall i :: 0 <= i < |s| ==> !('a' <= s[i] <= 'z')
    ensures ToUpper(s) == s
  {
    assert forall i :: 0 <= i < |s| ==> ToUpper(s)[i] == UpperChar(s[i]) == s[i];
  }

  lemma CutMark(h: string, x: string)
    requires Free(h, ' ')
    ensures TextPart(h + x) == h + TextPart(x) && RestPart(h + x) == RestPart(x)
  {
    IndexSkip(h, x, MARK);
    var i := Index(x, MARK);
    if i >= 0 {
      assert (h + x)[..|h| + i] == h + x[..i] && (h + x)[|h| + i + 4..] == x[i + 4..];
    }
  }

  lemma SplitHead(h: string, x: string)
    requires Free(h, ' ') && IsTail(x)
    ensures Split3(h + x) == [h] + if x == "" then [] else Split2(x[1..])
    ensures Split2(h + x) == [h] + if x == "" then [] else [x[1..]]
  {
    IndexSkip(h, x, " ");
    if x != "" {
      assert " " <= x;
      assert (h + x)[..|h|] == h && (h + x)[|h| + 1..] == x[1..];
    } else {
      assert h + x == h;
    }
  }

  lemma JoinSplit(w: string)
    ensures Join(Split2(w)) == w
  {
    var j := Index(w, " ");
    if j >= 0 { assert w == w[..j] + " " + w[j + 1..] by { assert w[j..j + 1] == " "; } }
  }

  /** Parsing content made of a type name, and a tail. */
  lemma ParseNamed(body: string, k: Kind, x: string)
    requires TrimSpace(body) == Name(k) + x && IsTail(TextPart(x))
    ensures
      var tx := TextPart(x);
      ParseResponse(body) == Interpret([Name(k)] + (if tx == "" then [] else Split2(tx[1..])), RestPart(x))
  {
    NameFacts(k);
    CutMark(Name(k), x);
    SplitHead(Name(k), TextPart(x));
  }

  // ------------------------------------------------------------ OK

  /** The message of a parsed response whose text after the head is x. */
  function TailMessage(x: string): string {
    if TextPart(x) == "" then "" else TextPart(x)[1..]
  }

  lemma OkContent(body: string, x: string)
    requires IsTail(x) && TrimSpace(body) == Name(OK) + x
    ensures ParseResponse(body) == Ok(Response(OK, TailMessage(x), "", []))
  {
    ParseNamed(body, OK, x);
    KindFacts(OK);
    if TextPart(x) != "" { JoinSplit(TextPart(x)[1..]); }
  }

  /** The text after the head survives parsing exactly when it holds no marker. */
  lemma TailMessageIntact(x: string)
    requires IsTail(x)
    ensures TailMessage(x) == (if x == "" then "" else x[1..]) <==> !Contains(x, MARK)
  {
  }

  /** A body whose head holds no semicolon: only its text can spoil the frame. */
  lemma FrameOf(head: string, text: string, rest: string)
    requires head != "" && Free(head, ';') && !Contains(text, TERMINATOR)
    ensures
      ReadFrame((head + text) + TERMINATOR + rest) == Got(head + text, |head + text| + 2) <==>
      |head + text| + 2 <= MAX_FRAME && !(text != "" && text[|text| - 1] == ';')
  {
    var body := head + text;
    TermFreeFront(head, text);
    FrameReadsBack(body, rest);
    assert body[|body| - 1] == if text == "" then head[|head| - 1] else text[|text| - 1];
  }

  lemma FrameOfText(head: string, message: string, rest: string)
    requires head != "" && Free(head, ';')
    ensures
      var body := if message == "" then head else head + (" " + Sanitized(message));
      (ReadFrame(body + TERMINATOR + rest) == Got(body, |body| + 2) <==>
        |body| + 2 <= MAX_FRAME && !(message != "" && message[|message| - 1] == ';'))
  {
    var san := Sanitized(message);
    SanitizedClean(message);
    SanitizedEnd(message);
    if message == "" {
      assert head + san == head;
      FrameOf(head, san, rest);
    } else {
      assert head + (" " + san) == (head + " ") + san;
      FrameOf(head + " ", san, rest);
    }
  }

  lemma TrimHead(head: string, b: string)
    requires head != "" && !IsSpace(head[0]) && !IsSpace(head[|head| - 1])
    ensures TrimSpace(head + b) == head + TrimRight(b)
  {
    TrimPrefix(head, b);
  }

  lemma OkParses(message: string)
    ensures ParseResponse(OkBody(message)) == Ok(Response(OK, TailMessage(Tail(Sanitized(message))), "", []))
  {
    var san := Sanitized(message);
    SanitizedEnd(message);
    TailIs(san);
    NameFacts(OK);
    if message == "" {
      assert OkBody(message) == Name(OK) + "";
      TrimHead(Name(OK), "");
    } else {
      TrimHead(Name(OK), " " + san);
    }
    OkContent(OkBody(message), Tail(san));
  }

  /** What is left of the message is the whole trimmed message exactly when no marker
      survives. */
  lemma TailIntact(message: string)
    ensures IsTail(Tail(Sanitized(message)))
    ensures TailMessage(Tail(Sanitized(message))) == TrimRight(Sanitized(message)) <==> !MarkerSurvives(message)
  {
    TailIs(Sanitized(message));
    FramedMarker(message);
    TailMessageIntact(Tail(Sanitized(message)));
  }

  /** An OK response arrives as its sanitised, right-trimmed message exactly when the frame
      fits, the message does not end in a semicolon and no data marker survives in it: for
      every message. */
  lemma OkRoundTrip(message: string, rest: string)
    ensures
      Delivers(OkBody(message), rest, Response(OK, TrimRight(Sanitized(message)), "", [])) <==>
      && |FormatOK(message)| <= MAX_FRAME
      && !(message != "" && message[|message| - 1] == ';')
      && !MarkerSurvives(message)
  {
    OkParses(message);
    TailIntact(message);
    NameFacts(OK);
    FrameOfText(Name(OK), message, rest);
  }

  // ------------------------------------------------------------ ERR

  lemma ErrText(code: string, x: string)
    requires IsWord(code) && IsTail(x)
    ensures TextPart(" " + (code + x)) == if code == "--" && x != "" then "" else " " + (code + TextPart(x))
  {
    var y := " " + (code + x);
    CutMark(code, x);
    if code != "--" {
      NotDash(code, x);
      SpaceStep(code + x);
    } else if x == "" {
      DashPrefix(code + x);
      SpaceStep(code + x);
    } else {
      assert y[..4] == MARK by { assert x == " " + x[1..]; }
    }
  }

  lemma SpaceStep(t: string)
    requires !("-- " <= t)
    ensures TextPart(" " + t) == " " + TextPart(t)
  {
    SpaceThen(t);
    var i := Index(t, MARK);
    if i >= 0 { assert (" " + t)[..1 + i] == " " + t[..i]; }
  }

  lemma InterpretErr(parts: seq<string>, dataPart: string)
    requires parts != [] && KindNamed(ToUpper(parts[0])) == Some(ERR)
    ensures
      Interpret(parts, dataPart) ==
      Ok(Response(ERR, if |parts| >= 3 then parts[2] else "", if |parts| >= 2 then parts[1] else "", []))
  {
  }

  lemma ErrContent(body: string, code: string, x: string)
    requires IsWord(code) && IsTail(x) && TrimSpace(body) == Name(ERR) + (" " + (code + x))
    ensures
      ParseResponse(body) ==
      if code == "--" && x != "" then Ok(Response(ERR, "", "", []))
      else Ok(Response(ERR, TailMessage(x), code, []))
  {
    var y := " " + (code + x);
    var head := Name(ERR);
    ErrText(code, x);
    ParseNamed(body, ERR, y);
    KindFacts(ERR);
    if code == "--" && x != "" {
      assert [head] + [] == [head];
      InterpretErr([head], RestPart(y));
    } else {
      assert (" " + (code + TextPart(x)))[1..] == code + TextPart(x);
      SplitHead(code, TextPart(x));
      InterpretErr([head] + Split2(code + TextPart(x)), RestPart(y));
    }
  }

  lemma CodeIsWord(code: string)
    ensures IsWord(SanitizedCode(code)) && Free(SanitizedCode(code), ';')
  {
  }

  lemma ErrTrimmed(body: string, sc: string, san: string)
    requires IsWord(sc) && body == Name(ERR) + (" " + sc) + (" " + san)
    ensures TrimSpace(body) == Name(ERR) + (" " + (sc + Tail(san))) && IsTail(Tail(san))
  {
    var name := Name(ERR);
    assert name != "" && !IsSpace(name[0]) by { NameFacts(ERR); }
    TwoWords(name, sc, Tail(san));
    TrimHead(name + (" " + sc), " " + san);
    assert IsTail(Tail(san)) by { TailIs(san); }
  }

  lemma TwoWords(name: string, sc: string, tail: string)
    requires name != "" && !IsSpace(name[0]) && IsWord(sc)
    ensures
      var head := name + (" " + sc);
      head != "" && !IsSpace(head[0]) && !IsSpace(head[|head| - 1]) && head + tail == name + (" " + (sc + tail))
  {
    var head := name + (" " + sc);
    assert head[|head| - 1] == sc[|sc| - 1] && head[0] == name[0];
  }

  lemma ErrParses(code: string, message: string)
    ensures
      var x := Tail(Sanitized(message));
      ParseResponse(ErrBody(code, message)) ==
      if SanitizedCode(code) == "--" && x != "" then Ok(Response(ERR, "", "", []))
      else Ok(Response(ERR, TailMessage(x), SanitizedCode(code), []))
  {
    CodeIsWord(code);
    ErrTrimmed(ErrBody(code, message), SanitizedCode(code), Sanitized(message));
    ErrContent(ErrBody(code, message), SanitizedCode(code), Tail(Sanitized(message)));
  }

  lemma FrameOfErr(code: string, message: string, rest: string)
    ensures
      var body := ErrBody(code, message);
      ReadFrame(body + TERMINATOR + rest) == Got(body, |body| + 2) <==>
        |body| + 2 <= MAX_FRAME && !(message != "" && message[|message| - 1] == ';')
  {
    CodeIsWord(code);
    var san := Sanitized(message);
    var head := ErrHead(SanitizedCode(code));
    SanitizedClean(message);
    SanitizedEnd(message);
    assert ErrBody(code, message) == head + san;
    FrameOf(head, san, rest);
  }

  lemma ErrHead(sc: string) returns (head: string)
    requires sc != "" && Free(sc, ';')
    ensures head == Name(ERR) + (" " + sc) + " " && Free(head, ';') && head != ""
  {
    head := Name(ERR) + (" " + sc) + " ";
  }

  /** An ERR response arrives as its sanitised code and its sanitised, right-trimmed
      message exactly when, besides, the code did not sanitise to two dashes in front of a
      visible message. */
  lemma ErrRoundTrip(code: string, message: string, rest: string)
    ensures
      Delivers(ErrBody(code, message), rest, Response(ERR, TrimRight(Sanitized(message)), SanitizedCode(code), [])) <==>
      && |FormatErr(code, message)| <= MAX_FRAME
      && !(message != "" && message[|message| - 1] == ';')
      && !MarkerSurvives(message)
      && !(SanitizedCode(code) == "--" && HasInk(message))
  {
    ErrParses(code, message);
    TailIntact(message);
    TailIs(Sanitized(message));
    SanitizedEnd(message);
    FrameOfErr(code, message, rest);
    CodeIsWord(code);
  }

  // ------------------------------------------------------------ payloads

  lemma MarkFirst(part: string)
    ensures TextPart(MARK + part) == "" && RestPart(MARK + part) == part
  {
    assert MARK <= MARK + part;
    assert Index(MARK + part, MARK) == 0;
  }

  lemma InterpretPayload(name: string, k: Kind, part: string)
    requires CarriesData(k) && KindNamed(ToUpper(name)) == Some(k) && part != ""
    ensures
      Interpret([name], part) ==
      match ParseDataPart(part) { case Err(e) => Err(BadPayload(e)) case Ok(data) => Ok(Response(k, "", "", data)) }
  {
  }

  lemma PayloadContent(body: string, k: Kind, part: string)
    requires CarriesData(k) && part != "" && TrimSpace(body) == Name(k) + (MARK + part)
    ensures
      ParseResponse(body) ==
      match ParseDataPart(part) { case Err(e) => Err(BadPayload(e)) case Ok(data) => Ok(Response(k, "", "", data)) }
  {
    MarkFirst(part);
    ParseNamed(body, k, MARK + part);
    assert [Name(k)] + [] == [Name(k)];
    KindFacts(k);
    InterpretPayload(Name(k), k, part);
  }

  lemma TrimmedPayload(k: Kind, data: seq<byte>)
    ensures TrimSpace(PayloadBody(k, data)) == Name(k) + (MARK + TrimmedPart(data))
  {
    NameFacts(k);
    if data == [] {
      var head := Name(k) + (MARK + "0");
      assert PayloadBody(k, data) == head + "\n";
      TrimHead(head, "\n");
      assert TrimRight("\n") == TrimRight("") == "";
      assert head + "" == head;
    } else {
      DataPartEnds(data);
      TrimNothing(PayloadBody(k, data));
    }
  }

  lemma PayloadFrame(k: Kind, data: seq<byte>, rest: string)
    ensures
      var body := PayloadBody(k, data);
      ReadFrame(body + TERMINATOR + rest) == Got(body, |body| + 2) <==> |body| + 2 <= MAX_FRAME
  {
    NameFacts(k);
    var enc := Encode(data);
    assert forall i :: 0 <= i < |enc| ==> InAlphabet(enc[i]);
    assert Free(PayloadBody(k, data), ';') by {
      assert PayloadBody(k, data) == Name(k) + (MARK + (Itoa(|enc|) + "\n" + enc));
    }
    assert PayloadBody(k, data) + "" == PayloadBody(k, data);
    FrameOf(PayloadBody(k, data), "", rest);
  }

  /** The data part as the trimmed frame shows it. */
  function TrimmedPart(data: seq<byte>): string { if data == [] then "0" else DataPart(data) }

  lemma TrimmedPartParses(data: seq<byte>)
    requires |Encode(data)| <= MAX_INT
    ensures TrimmedPart(data) != "" && ParseDataPart(TrimmedPart(data)) == Ok(data)
  {
    if data == [] {
      IndexSkip("0", "", "\n");
      assert "0" + "" == "0";
      TrimNothing("0");
    } else {
      DataPartRoundTrip(data);
    }
  }

  lemma PartParses(body: string, k: Kind, part: string, data: seq<byte>)
    requires CarriesData(k) && part != "" && TrimSpace(body) == Name(k) + (MARK + part)
        && ParseDataPart(part) == Ok(data)
    ensures ParseResponse(body) == Ok(Response(k, "", "", data))
  {
    PayloadContent(body, k, part);
  }

  lemma PayloadParses(k: Kind, data: seq<byte>)
    requires CarriesData(k) && |PayloadBody(k, data)| + 2 <= MAX_FRAME
    ensures ParseResponse(PayloadBody(k, data)) == Ok(Response(k, "", "", data))
  {
    assert |Encode(data)| <= |PayloadBody(k, data)|;
    TrimmedPayload(k, data);
    TrimmedPartParses(data);
    PartParses(PayloadBody(k, data), k, TrimmedPart(data), data);
  }

  /** A data-carrying response arrives unchanged, for every payload whose frame fits. */
  lemma PayloadRoundTrip(k: Kind, data: seq<byte>, rest: string)
    requires CarriesData(k)
    ensures Delivers(PayloadBody(k, data), rest, Response(k, "", "", data)) <==> |FormatPayload(k, data)| <= MAX_FRAME
  {
    PayloadFrame(k, data, rest);
    if |FormatPayload(k, data)| <= MAX_FRAME { PayloadParses(k, data); }
  }

  /** Whatever the bytes: nothing is parsed as a response with a payload unless it holds a data
      marker and something behind it. */
  lemma PayloadNeedsMarker(body: string, r: Response)
    requires ParseResponse(body) == Ok(r) && CarriesData(r.kind)
    ensures Contains(TrimSpace(body), MARK) && RestPart(TrimSpace(body)) != ""
  {
    var content := TrimSpace(body);
    var parts, rest := Split3(TextPart(content)), RestPart(content);
    assert ParseResponse(body) == Interpret(parts, rest);
    PayloadInterpreted(parts, rest, r);
  }

  lemma PayloadInterpreted(parts: seq<string>, rest: string, r: Response)
    requires parts != [] && Interpret(parts, rest) == Ok(r) && CarriesData(r.kind)
    ensures rest != ""
  {
  }

  lemma BareParses(k: Kind, name: string)
    requires (k == PONG || k == END) && name == Name(k)
    ensures ParseResponse(name) == Ok(Response(k, "", "", []))
  {
    NameFacts(k);
    TrimNothing(name);
    assert name + "" == name;
    ParseNamed(name, k, "");
    KindFacts(k);
  }

  /** The two responses without content. */
  lemma BareRoundTrip(k: Kind, rest: string)
    requires k == PONG || k == END
    ensures Delivers(Name(k), rest, Response(k, "", "", []))
  {
    NameFacts(k);
    assert Name(k) + "" == Name(k);
    FrameOf(Name(k), "", rest);
    BareParses(k, Name(k));
  }
}
