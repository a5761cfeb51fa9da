/** The responses a caller writes without special characters, from the caller's side: what
    arrives is the caller's own text. */
module PlainResponses {
  import opened Base64
  import opened Text
  import opened Sanitizer
  import opened SanitizedText
  import opened Responses
  import opened ResponseRoundTrip

  /** The formatter's space completes a marker at the front of the message. */
  predicate OpensMark(message: string) { "-- " <= message && |TrimRight(message)| > 3 }

  lemma {:induction false} PlainNotLive(s: string)
    requires forall i :: 0 <= i < |s| ==> s[i] != '\r' && s[i] != '\n'
    ensures !Live(s, true)
  {
    if s == "" {
    } else {
      PlainNotLive(s[1..]);
    }
  }

  lemma PlainMarker(message: string)
    requires Clean(message)
    ensures MarkerSurvives(message) <==> OpensMark(message)
  {
    PlainNotLive(message);
    if |message| > 2 {
      assert message[..3] == [message[0], message[1], message[2]];
      InkBeyond(message, 3);
    }
  }

  lemma EndsEmpty(message: string)
    ensures HasInk(message) <==> TrimRight(message) != ""
  {
    InkBeyond(message, 0);
    assert message[0..] == message;
  }

  /** How each kind of response begins and what a frame with a payload looks like. */
  lemma Spelled(k: Kind, data: seq<byte>)
    ensures FormatPayload(k, data) == Name(k) + " -- " + Itoa(|Encode(data)|) + "\n" + Encode(data) + ";;"
    ensures Name(OK) == "OK" && Name(ERR) == "ERR" && Name(DATA) == "DATA" && Name(JSON) == "JSON"
    ensures Name(CHUNK) == "CHUNK" && Name(STATUS) == "STATUS" && Name(END) == "END" && Name(PONG) == "PONG"
  {
    var len, enc := Itoa(|Encode(data)|), Encode(data);
    assert Name(k) + (" -- " + (len + "\n" + enc)) == Name(k) + " -- " + len + "\n" + enc;
  }

  lemma OkBodyIs(message: string)
    requires Sanitized(message) == message
    ensures OkBody(message) == if message == "" then "OK" else "OK " + message
  {
    assert "OK" + (" " + message) == "OK " + message;
  }

  lemma ErrBodyIs(code: string, message: string)
    requires Sanitized(message) == message && SanitizedCode(code) == code
    ensures ErrBody(code, message) == "ERR " + code + " " + message
  {
    assert "ERR" + (" " + code) == "ERR " + code;
    assert "ERR " + code + (" " + message) == "ERR " + code + " " + message;
  }

  /** An OK with a message free of terminators, markers and line breaks arrives as that
      message, right-trimmed, exactly when the frame fits, the message does not end in a
      semicolon and does not open with the rest of a marker. */
  lemma PlainOk(message: string, rest: string)
    requires Clean(message)
    ensures FormatOK(message) == (if message == "" then "OK" else "OK " + message) + ";;"
    ensures
      Delivers(OkBody(message), rest, Response(OK, TrimRight(message), "", [])) <==>
      && (if message == "" then 4 else |message| + 5) <= 16777216
      && !(message != "" && message[|message| - 1] == ';')
      && !OpensMark(message)
  {
    Untouched(message);
    PlainMarker(message);
    OkBodyIs(message);
    assert Sanitized(message) == message && MarkerSurvives(message) == OpensMark(message);
    OkRoundTrip(message, rest);
  }

  /** The same for an ERR, whose code arrives unchanged too when it is made of letters,
      digits, underscores and dashes; only the code "--" before a visible message does not. */
  lemma PlainErr(code: string, message: string, rest: string)
    requires Clean(message)
    requires code != "" && forall i :: 0 <= i < |code| ==>
      ('a' <= code[i] <= 'z' || 'A' <= code[i] <= 'Z' || '0' <= code[i] <= '9' || code[i] == '_' || code[i] == '-')
    ensures FormatErr(code, message) == "ERR " + code + " " + message + ";;"
    ensures
      Delivers(ErrBody(code, message), rest, Response(ERR, TrimRight(message), code, [])) <==>
      && |code| + |message| + 7 <= 16777216
      && !(message != "" && message[|message| - 1] == ';')
      && !OpensMark(message)
      && !(code == "--" && TrimRight(message) != "")
  {
    Untouched(message);
    PlainMarker(message);
    CodeKept(code);
    EndsEmpty(message);
    ErrBodyIs(code, message);
    ErrRoundTrip(code, message, rest);
  }
}
