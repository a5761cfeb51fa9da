/** Responses on the wire: the formatters and the parser. */
module Responses {
  import opened Prelude
  import opened Text
  import opened Base64
  import opened Frames
  import opened Sanitizer
  import Commands

  datatype Kind = OK | ERR | DATA | JSON | CHUNK | STATUS | END | PONG

  datatype Response = Response(kind: Kind, message: string, code: string, data: seq<byte>)

  datatype ResponseError = EmptyResponse | UnknownType(name: string) | RequiresData
    | BadPayload(why: Commands.DataError)

  function Name(k: Kind): string {
    match k
    case OK => "OK" case ERR => "ERR" case DATA => "DATA" case JSON => "JSON"
    case CHUNK => "CHUNK" case STATUS => "STATUS" case END => "END" case PONG => "PONG"
  }

  function KindNamed(name: string): Option<Kind> {
    if name == "OK" then Some(OK) else if name == "ERR" then Some(ERR)
    else if name == "DATA" then Some(DATA) else if name == "JSON" then Some(JSON)
    else if name == "CHUNK" then Some(CHUNK) else if name == "STATUS" then Some(STATUS)
    else if name == "END" then Some(END) else if name == "PONG" then Some(PONG) else None
  }

  predicate CarriesData(k: Kind) { k == DATA || k == JSON || k == CHUNK || k == STATUS }

  // ------------------------------------------------------------ error codes

  predicate CodeChar(c: char) { 'a' <= c <= 'z' || 'A' <= c <= 'Z' || IsDigit(c) || c == '_' || c == '-' }

  function CodeChars(s: string): (r: string)
    ensures forall i :: 0 <= i < |r| ==> CodeChar(r[i])
  {
    if s == "" then "" else (if CodeChar(s[0]) then [s[0]] else "") + CodeChars(s[1..])
  }

  function SanitizedCode(code: string): (r: string)
    ensures r != "" && forall i :: 0 <= i < |r| ==> CodeChar(r[i])
  {
    if CodeChars(code) == "" then "internal" else CodeChars(code)
  }

  lemma {:induction false} CodeCharsAppend(s: string, c: char)
    ensures CodeChars(s + [c]) == CodeChars(s) + if CodeChar(c) then [c] else ""
  {
    if s == "" {
    } else {
      assert (s + [c])[1..] == s[1..] + [c];
      CodeCharsAppend(s[1..], c);
    }
  }

  lemma {:induction false} CodeCharsWhole(s: string)
    ensures CodeChars(s) == s <==> forall i :: 0 <= i < |s| ==> CodeChar(s[i])
  {
    if s == "" {
    } else {
      CodeCharsWhole(s[1..]);
      assert s == [s[0]] + s[1..];
    }
  }

  /** A code stays as it is exactly when it is not empty and made of letters, digits,
      underscores and dashes. */
  lemma CodeKept(code: string)
    ensures
      SanitizedCode(code) == code <==>
      code != "" && forall i :: 0 <= i < |code| ==>
        ('a' <= code[i] <= 'z' || 'A' <= code[i] <= 'Z' || '0' <= code[i] <= '9' || code[i] == '_' || code[i] == '-')
  {
    CodeCharsWhole(code);
  }

  lemma {:induction false} CodeCharsConcat(a: string, b: string)
    ensures CodeChars(a + b) == CodeChars(a) + CodeChars(b)
  {
    if a == "" {
      assert a + b == b;
    } else {
      assert (a + b)[1..] == a[1..] + b;
      CodeCharsConcat(a[1..], b);
    }
  }

  /** Any other character is as good as absent, wherever it stands; a code of which nothing is
      left becomes "internal". */
  lemma CodeDrops(a: string, c: char, b: string)
    requires !('a' <= c <= 'z' || 'A' <= c <= 'Z' || '0' <= c <= '9' || c == '_' || c == '-')
    ensures SanitizedCode(a + [c] + b) == SanitizedCode(a + b) && SanitizedCode("") == "internal"
  {
    CodeCharsConcat(a, b);
    CodeCharsConcat(a + [c], b);
    CodeCharsAppend(a, c);
    assert CodeChars(a + [c]) == CodeChars(a) by { assert CodeChars(a) + "" == CodeChars(a); }
    assert CodeChars(a + [c] + b) == CodeChars(a + b);
  }

  method SanitizeErrorCode(code: string) returns (r: string)
    ensures r == SanitizedCode(code)
  {
    r := "";
    for i := 0 to |code|
      invariant r == CodeChars(code[..i])
    {
      CodeCharsAppend(code[..i], code[i]);
      assert code[..i + 1] == code[..i] + [code[i]];
      if CodeChar(code[i]) { r := r + [code[i]]; }
    }
    assert code[..|code|] == code;
    if r == "" { r := "internal"; }
  }

  // ------------------------------------------------------------ formatting

  function OkBody(message: string): string {
    if message == "" then Name(OK) else Name(OK) + (" " + Sanitized(message))
  }

  function ErrBody(code: string, message: string): string {
    Name(ERR) + (" " + SanitizedCode(code)) + (" " + Sanitized(message))
  }

  function PayloadBody(k: Kind, data: seq<byte>): string {
    Name(k) + (MARK + Commands.DataPart(data))
  }

  function FormatOK(message: string): string { OkBody(message) + TERMINATOR }

  function FormatErr(code: string, message: string): string { ErrBody(code, message) + TERMINATOR }

  function FormatPayload(k: Kind, data: seq<byte>): string { PayloadBody(k, data) + TERMINATOR }

  // ------------------------------------------------------------ parsing

  function Split2(s: string): (parts: seq<string>)
    ensures 1 <= |parts| <= 2
  {
    var i := Index(s, " ");
    if i < 0 then [s] else [s[..i], s[i + 1..]]
  }

  /** strings.SplitN(s, " ", 3). */
  function Split3(s: string): (parts: seq<string>)
    ensures 1 <= |parts| <= 3
  {
    var i := Index(s, " ");
    if i < 0 then [s] else [s[..i]] + Split2(s[i + 1..])
  }

  /** What precedes the first data marker, and what follows it. */
  function TextPart(content: string): string {
    var i := Index(content, MARK);
    if i < 0 then content else content[..i]
  }

  function RestPart(content: string): string {
    var i := Index(content, MARK);
    if i < 0 then "" else content[i + |MARK|..]
  }

  function Interpret(parts: seq<string>, dataPart: string): Commands.Result<Response, ResponseError>
    requires parts != []
  {
    match KindNamed(ToUpper(parts[0]))
    case None => Commands.Err(UnknownType(ToUpper(parts[0])))
    case Some(k) =>
      if k == OK then Commands.Ok(Response(OK, Join(parts[1..]), "", []))
      else if k == ERR then
        Commands.Ok(Response(ERR, if |parts| >= 3 then parts[2] else "", if |parts| >= 2 then parts[1] else "", []))
      else if k == PONG || k == END then Commands.Ok(Response(k, "", "", []))
      else if dataPart == "" then Commands.Err(RequiresData)
      else match Commands.ParseDataPart(dataPart)
        case Err(e) => Commands.Err(BadPayload(e))
        case Ok(data) => Commands.Ok(Response(k, "", "", data))
  }

  function ParseResponse(frameBody: string): Commands.Result<Response, ResponseError> {
    var content := TrimSpace(frameBody);
    if content == "" then Commands.Err(EmptyResponse)
    else Interpret(Split3(TextPart(content)), RestPart(content))
  }
}
