/** Commands on the wire: the verb registry, the validator, the formatter and the parser. */
module Commands {
  import opened Prelude
  import opened Text
  import opened Base64
  import opened Frames

  datatype Command = Command(verb: string, subVerb: string, args: seq<string>, data: seq<byte>)

  datatype DataError = MissingNewline | BadLength | LengthMismatch | BadBase64

  datatype ParseError = Empty | JsonInsteadOfCommand | MissingLength | UnknownCommand(verb: string)
    | BadData(why: DataError)

  datatype Result<T, E> = Ok(value: T) | Err(error: E)

  // ------------------------------------------------------------ registry

  /** The registered verbs, and the sub-verbs of each verb, in upper case. */
  datatype Registry = Registry(verbs: set<string>, subVerbs: set<(string, string)>) {
    predicate IsValidVerb(verb: string) { ToUpper(verb) in verbs }

    predicate IsSubVerbForVerb(verb: string, subVerb: string) { (ToUpper(verb), ToUpper(subVerb)) in subVerbs }
  }

  function UpperSet(names: seq<string>): set<string> { set n | n in names :: ToUpper(n) }

  /** The registry a parser consults: two maps that registration extends. */
  class VerbRegistry {
    var verbs: set<string>
    var subVerbsByVerb: map<string, set<string>>

    constructor ()
      ensures View() == Registry({}, {})
    {
      verbs := {};
      subVerbsByVerb := map[];
    }

    ghost function View(): Registry
      reads this
    {
      Registry(verbs, set v, sv | v in subVerbsByVerb && sv in subVerbsByVerb[v] :: (v, sv))
    }

    method RegisterVerb(names: seq<string>)
      modifies this`verbs
      ensures View() == old(View()).(verbs := old(verbs) + UpperSet(names))
    {
      for i := 0 to |names|
        invariant verbs == old(verbs) + UpperSet(names[..i])
      {
        assert names[..i + 1] == names[..i] + [names[i]];
        verbs := verbs + {ToUpper(names[i])};
      }
      assert names[..|names|] == names;
    }

    method RegisterSubVerbForVerb(verb: string, names: seq<string>)
      modifies this`subVerbsByVerb
      ensures View() == old(View()).(subVerbs :=
        old(View()).subVerbs + set n | n in names :: (ToUpper(verb), ToUpper(n)))
    {
      var v := ToUpper(verb);
      if v !in subVerbsByVerb { subVerbsByVerb := subVerbsByVerb[v := {}]; }
      ghost var base := subVerbsByVerb;
      for i := 0 to |names|
        invariant v in base && subVerbsByVerb.Keys == base.Keys && subVerbsByVerb[v] == base[v] + UpperSet(names[..i])
        invariant forall u :: u in base && u != v ==> subVerbsByVerb[u] == base[u]
      {
        assert names[..i + 1] == names[..i] + [names[i]];
        subVerbsByVerb := subVerbsByVerb[v := subVerbsByVerb[v] + {ToUpper(names[i])}];
      }
      assert names[..|names|] == names;
    }

    method IsValidVerb(verb: string) returns (b: bool)
      ensures b == View().IsValidVerb(verb)
    {
      b := ToUpper(verb) in verbs;
    }

    method IsSubVerbForVerb(verb: string, subVerb: string) returns (b: bool)
      ensures b == View().IsSubVerbForVerb(verb, subVerb)
    {
      var v := ToUpper(verb);
      b := v in subVerbsByVerb && ToUpper(subVerb) in subVerbsByVerb[v];
    }
  }

  // ------------------------------------------------------------ validation

  datatype TokenError = EmptyToken | HasTerminator | HasNewline | HasMarker | HasWhitespace

  predicate HasLineBreak(tok: string) { exists i :: 0 <= i < |tok| && (tok[i] == '\r' || tok[i] == '\n') }

  function ValidateToken(tok: string, allowSpace: bool): Option<TokenError> {
    if tok == "" then Some(EmptyToken)
    else if Contains(tok, TERMINATOR) then Some(HasTerminator)
    else if HasLineBreak(tok) then Some(HasNewline)
    else if "--" in Fields(tok) then Some(HasMarker)
    else if !allowSpace && !NoSpace(tok) then Some(HasWhitespace)
    else None
  }

  function ValidateArgs(args: seq<string>): Option<TokenError> {
    if args == [] then None
    else match ValidateToken(args[0], false)
      case Some(e) => Some(e)
      case None => ValidateArgs(args[1..])
  }

  function ValidateCommand(cmd: Command): Option<TokenError> {
    match ValidateToken(cmd.verb, true)
    case Some(e) => Some(e)
    case None =>
      if cmd.subVerb != "" && ValidateToken(cmd.subVerb, true).Some? then ValidateToken(cmd.subVerb, true)
      else ValidateArgs(cmd.args)
  }

  predicate Valid(cmd: Command) { ValidateCommand(cmd) == None }

  // ------------------------------------------------------------ formatting

  function Tokens(cmd: Command): (ws: seq<string>)
    ensures ws != []
  {
    [cmd.verb] + (if cmd.subVerb != "" then [cmd.subVerb] else []) + cmd.args
  }

  /** The data marker, the length and the encoded data. */
  function DataPart(data: seq<byte>): string {
    Itoa(|Encode(data)|) + "\n" + Encode(data)
  }

  function Body(cmd: Command): string {
    Join(Tokens(cmd)) + if cmd.data != [] then MARK + DataPart(cmd.data) else ""
  }

  function Frame(cmd: Command): string { Body(cmd) + TERMINATOR }

  lemma {:induction false} JoinAppend(ws: seq<string>, w: string)
    requires ws != []
    ensures Join(ws + [w]) == Join(ws) + " " + w
  {
    if |ws| <= 1 {
    } else {
      assert (ws + [w])[1..] == ws[1..] + [w];
      JoinAppend(ws[1..], w);
    }
  }

  method FormatCommand(cmd: Command) returns (frame: string)
    ensures frame == Frame(cmd)
  {
    var buf := cmd.verb;
    ghost var ws := [cmd.verb];
    if cmd.subVerb != "" {
      JoinAppend(ws, cmd.subVerb);
      buf := buf + " " + cmd.subVerb;
      ws := ws + [cmd.subVerb];
    }
    for i := 0 to |cmd.args|
      invariant buf == Join(ws + cmd.args[..i])
    {
      JoinAppend(ws + cmd.args[..i], cmd.args[i]);
      assert ws + cmd.args[..i + 1] == ws + cmd.args[..i] + [cmd.args[i]];
      buf := buf + " " + cmd.args[i];
    }
    assert ws + cmd.args[..|cmd.args|] == Tokens(cmd);
    if |cmd.data| > 0 {
      var encoded := Encode(cmd.data);
      assert MARK + DataPart(cmd.data) == " " + "--" + " " + Itoa(|encoded|) + "\n" + encoded;
      buf := buf + (" " + "--" + " " + Itoa(|encoded|) + "\n" + encoded);
    }
    frame := buf + TERMINATOR;
  }

  // ------------------------------------------------------------ parsing

  function TrimRightCR(s: string): string {
    if s != "" && s[|s| - 1] == '\r' then TrimRightCR(s[..|s| - 1]) else s
  }

  function ParseDataPart(dataPart: string): Result<seq<byte>, DataError> {
    var nl := Index(dataPart, "\n");
    if nl < 0 then
      if TrimSpace(dataPart) == "0" then Ok([]) else Err(MissingNewline)
    else
      var encoded := TrimRightCR(dataPart[nl + 1..]);
      match Atoi(TrimSpace(dataPart[..nl]))
      case None => Err(BadLength)
      case Some(length) =>
        if length == 0 then Ok([])
        else if |encoded| != length then Err(LengthMismatch)
        else match Decode(encoded)
          case Corrupt => Err(BadBase64)
          case Bytes(data) => Ok(data)
  }

  /** The verb, sub-verb and arguments, once the data part has been cut off. */
  function ParseTokens(reg: Registry, parts: seq<string>, dataPart: string): Result<Command, ParseError>
    requires parts != []
  {
    var verb := ToUpper(parts[0]);
    if !reg.IsValidVerb(verb) then Err(UnknownCommand(verb))
    else
      var isSub := |parts| > 1 && reg.IsSubVerbForVerb(verb, ToUpper(parts[1]));
      var subVerb := if isSub then ToUpper(parts[1]) else "";
      var args := if isSub then parts[2..] else parts[1..];
      if dataPart == "" then Ok(Command(verb, subVerb, args, []))
      else match ParseDataPart(dataPart)
        case Err(e) => Err(BadData(e))
        case Ok(data) => Ok(Command(verb, subVerb, args, data))
  }

  function ParseCommand(reg: Registry, frameBody: string): Result<Command, ParseError> {
    var content := TrimSpace(frameBody);
    if content == "" then Err(Empty)
    else if content[0] == '{' || content[0] == '[' then Err(JsonInsteadOfCommand)
    else
      var idx := Index(content, MARK);
      if idx < 0 && HasSuffix(content, " --") then Err(MissingLength)
      else
        var parts := Fields(if idx < 0 then content else content[..idx]);
        var dataPart := if idx < 0 then "" else content[idx + |MARK|..];
        if parts == [] then Err(Empty) else ParseTokens(reg, parts, dataPart)
  }
}
