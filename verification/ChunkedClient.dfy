/** The client that collects a chunked response, and the two ends together. */
module ChunkedClient {
  import opened Text
  import opened Base64
  import opened Frames
  import opened Responses
  import opened ResponseRoundTrip
  import opened Chunked

  datatype Outcome =
    | Success(data: seq<byte>)
    | EndedEarly
    | ReadFailed
    | BadResponse(why: ResponseError)
    | ServerError(code: string, message: string)
    | Unexpected(kind: Kind)

  /** What the client makes of the bytes it can still read, and the bytes it leaves unread. */
  datatype Collected = Collected(outcome: Outcome, left: string)

  /** A read or parse error makes the client drop the connection. */
  predicate Drops(o: Outcome) { o.EndedEarly? || o.ReadFailed? || o.BadResponse? }

  /** One call of the response parser: a response and the bytes behind it, or an error. */
  datatype Heard = Heard(r: Response, rest: string) | Silent(why: Outcome, left: string)

  function Hear(s: string): (h: Heard)
    ensures if h.Heard? then |h.rest| < |s| else Drops(h.why)
  {
    match ReadFrame(s)
    case Eof => Silent(EndedEarly, "")
    case Truncated => Silent(ReadFailed, "")
    case TooLarge => Silent(ReadFailed, s[Advance(s)..])
    case Got(body, n) =>
      match ParseResponse(body)
      case Err(e) => Silent(BadResponse(e), s[n..])
      case Ok(r) => Heard(r, s[n..])
  }

  /** A parser that consumes something whenever it delivers a response, and otherwise has an
      error to report. */
  ghost predicate WellBehaved(hear: string -> Heard) {
    forall s :: if hear(s).Heard? then |hear(s).rest| < |s| else Drops(hear(s).why)
  }

  /** The collecting loop over any such parser. */
  ghost function CollectWith(hear: string -> Heard, s: string, acc: seq<byte>): Collected
    requires WellBehaved(hear)
    decreases |s|
  {
    match hear(s)
    case Silent(why, left) => Collected(why, left)
    case Heard(r, rest) =>
      match r.kind
      case STATUS => CollectWith(hear, rest, acc)
      case CHUNK => CollectWith(hear, rest, acc + r.data)
      case END => Collected(Success(acc), rest)
      case ERR => Collected(ServerError(r.code, r.message), rest)
      case k => Collected(Unexpected(k), rest)
  }

  ghost function Collect(s: string, acc: seq<byte>): Collected { CollectWith(Hear, s, acc) }

  datatype Reply = Said(r: Response) | Failed(why: Outcome)

  /** The response parser, on the connection's reader. */
  method ReadResponse(reader: Reader) returns (reply: Reply)
    requires reader.Valid()
    modifies reader
    ensures reader.Valid()
    ensures Hear(old(reader.Rest())) ==
      match reply case Said(r) => Heard(r, reader.Rest()) case Failed(why) => Silent(why, reader.Rest())
  {
    ghost var before := reader.Rest();
    var frame := reader.ReadUntilTerminator();
    assert reader.Rest() == before[Advance(before)..];
    match frame
    case Eof => reply := Failed(EndedEarly);
    case Truncated => reply := Failed(ReadFailed);
    case TooLarge => reply := Failed(ReadFailed);
    case Got(body, n) =>
      match ParseResponse(body) {
        case Err(e) => reply := Failed(BadResponse(e));
        case Ok(r) => reply := Said(r);
      }
  }

  /** The loop of executeChunked over the connection's reader; open tells whether the
      client keeps the connection. */
  method ExecuteChunked(reader: Reader) returns (o: Outcome, open: bool)
    requires reader.Valid()
    modifies reader
    ensures reader.Valid()
    ensures Collected(o, reader.Rest()) == Collect(old(reader.Rest()), [])
    ensures open == !Drops(o)
  {
    var result: seq<byte> := [];
    ghost var s := reader.Rest();
    while true
      invariant reader.Valid()
      invariant Collect(reader.Rest(), result) == Collect(s, [])
      decreases |reader.Rest()|
    {
      var reply := ReadResponse(reader);
      match reply {
        case Failed(why) => return why, false;
        case Said(r) =>
          match r.kind {
            case STATUS =>
            case CHUNK => result := result + r.data;
            case END => return Success(result), true;
            case ERR => return ServerError(r.code, r.message), true;
            case k => return Unexpected(k), true;
          }
      }
    }
  }

  // ------------------------------------------------------------ the two ends together

  /** The bytes of the frames in a log. */
  function Stream(log: seq<Entry>): string {
    if log == [] then "" else FrameOfEntry(log[0]) + Stream(log[1..])
  }

  function FrameOfEntry(e: Entry): string { if e.Wrote? then e.body + TERMINATOR else "" }

  /** The first entry of an interleaving is a status, or the first essential entry. */
  lemma {:induction false} InterleavedFront(log: seq<Entry>, essential: seq<Entry>)
    requires Interleaved(log, essential) && log != []
    ensures IsStatus(log[0]) ==> FitStatus(log[0]) && Interleaved(log[1..], essential)
    ensures !IsStatus(log[0]) ==> essential != [] && log[0] == essential[0] && Interleaved(log[1..], essential[1..])
  {
    DropStatusFront(log);
  }

  lemma {:induction false} DropStatusFront(log: seq<Entry>)
    requires log != []
    ensures DropStatus(log) == (if IsStatus(log[0]) then [] else [log[0]]) + DropStatus(log[1..])
  {
    var n := |log| - 1;
    var last := if IsStatus(log[n]) then [] else [log[n]];
    assert DropStatus(log) == DropStatus(log[..n]) + last;
    if n == 0 {
      assert log[..0] == [] && log[1..] == [];
    } else {
      var front, back := log[..n], log[1..];
      DropStatusFront(front);
      assert front[1..] == back[..n - 1] && back[n - 1] == log[n];
      assert DropStatus(back) == DropStatus(back[..n - 1]) + last;
    }
  }

  /** What the round trips say about a parser: it hears every payload frame within the
      limit, and END, whatever follows. */
  ghost predicate Understands(hear: string -> Heard) {
    && WellBehaved(hear)
    && (forall k, data, rest :: CarriesData(k) && |PayloadBody(k, data)| + 2 <= MAX_FRAME ==>
          hear(PayloadBody(k, data) + TERMINATOR + rest) == Heard(Response(k, "", "", data), rest))
    && (forall rest :: hear(Name(END) + TERMINATOR + rest) == Heard(Response(END, "", "", []), rest))
  }

  lemma HearUnderstands()
    ensures Understands(Hear)
  {
    forall k, data, rest | CarriesData(k) && |PayloadBody(k, data)| + 2 <= MAX_FRAME
      ensures Hear(PayloadBody(k, data) + TERMINATOR + rest) == Heard(Response(k, "", "", data), rest)
    {
      PayloadRoundTrip(k, data, rest);
      Delivered(PayloadBody(k, data), rest, Response(k, "", "", data));
    }
    forall rest ensures Hear(Name(END) + TERMINATOR + rest) == Heard(Response(END, "", "", []), rest) {
      BareRoundTrip(END, rest);
      Delivered(Name(END), rest, Response(END, "", "", []));
    }
  }

  lemma Delivered(body: string, rest: string, r: Response)
    requires Delivers(body, rest, r)
    ensures Hear(body + TERMINATOR + rest) == Heard(r, rest)
  {
    assert (body + TERMINATOR + rest)[|body| + 2..] == rest;
  }

  ghost predicate AllFit(cs: seq<seq<byte>>) {
    forall i :: 0 <= i < |cs| ==> |PayloadBody(CHUNK, cs[i])| + 2 <= MAX_FRAME
  }

  /** The parser takes this frame for this response, whatever follows. */
  ghost predicate Says(hear: string -> Heard, e: Entry, r: Response) {
    forall rest :: hear(FrameOfEntry(e) + rest) == Heard(r, rest)
  }

  /** Entry by entry, the log says: status, or the next chunk, and END at its very end. */
  ghost predicate Conveys(hear: string -> Heard, log: seq<Entry>, cs: seq<seq<byte>>) {
    log != [] &&
    if cs == [] && |log| == 1 then Says(hear, log[0], Response(END, "", "", []))
    else
      || (exists data :: Says(hear, log[0], Response(STATUS, "", "", data)) && Conveys(hear, log[1..], cs))
      || (cs != [] && Says(hear, log[0], Response(CHUNK, "", "", cs[0])) && Conveys(hear, log[1..], cs[1..]))
  }

  lemma PayloadSays(hear: string -> Heard, e: Entry, data: seq<byte>)
    requires Understands(hear) && e.Wrote? && CarriesData(e.kind) && e.body == PayloadBody(e.kind, data)
        && |e.body| + 2 <= MAX_FRAME
    ensures Says(hear, e, Response(e.kind, "", "", data))
  {
  }

  lemma LastEssential(log: seq<Entry>)
    requires log != [] ==> !IsStatus(log[|log| - 1])
    ensures DropStatus(log) == [] ==> log == []
  {
    if log != [] { assert DropStatus(log) == DropStatus(log[..|log| - 1]) + [log[|log| - 1]]; }
  }

  lemma OnlyEnd(log: seq<Entry>)
    requires Interleaved(log, [END_ENTRY]) && log != [] && log[0] == END_ENTRY && log[|log| - 1] == END_ENTRY
    ensures log == [END_ENTRY]
  {
    DropStatusFront(log);
    LastEssential(log[1..]);
  }

  lemma ChunkFront(cs: seq<seq<byte>>)
    requires cs != []
    ensures ChunkEntries(cs) + [END_ENTRY]
        == [Wrote(CHUNK, PayloadBody(CHUNK, cs[0]))] + (ChunkEntries(cs[1..]) + [END_ENTRY])
  {
  }

  /** What SendOutput writes for these chunks: one END at the very end, status frames
      anywhere before it. */
  ghost predicate Answers(log: seq<Entry>, cs: seq<seq<byte>>) {
    && Interleaved(log, ChunkEntries(cs) + [END_ENTRY])
    && log != [] && log[|log| - 1] == END_ENTRY && AllFit(cs)
  }

  /** The first entry of an answer and what remains. */
  lemma AnswerFront(log: seq<Entry>, cs: seq<seq<byte>>)
    requires Answers(log, cs)
    ensures IsStatus(log[0]) ==> FitStatus(log[0]) && Answers(log[1..], cs)
    ensures !IsStatus(log[0]) && cs == [] ==> log == [END_ENTRY]
    ensures !IsStatus(log[0]) && cs != [] ==>
      log[0] == Wrote(CHUNK, PayloadBody(CHUNK, cs[0])) && |log[0].body| + 2 <= MAX_FRAME && Answers(log[1..], cs[1..])
  {
    InterleavedFront(log, ChunkEntries(cs) + [END_ENTRY]);
    if !IsStatus(log[0]) {
      if cs == [] {
        OnlyEnd(log);
      } else {
        ChunkFront(cs);
        assert |log| > 1;
      }
    }
  }

  lemma {:induction false} AnswerConveys(hear: string -> Heard, log: seq<Entry>, cs: seq<seq<byte>>)
    requires Understands(hear) && Answers(log, cs)
    ensures Conveys(hear, log, cs)
    decreases |log|
  {
    AnswerFront(log, cs);
    if IsStatus(log[0]) {
      var data :| log[0].body == PayloadBody(STATUS, data);
      PayloadSays(hear, log[0], data);
      AnswerConveys(hear, log[1..], cs);
    } else if cs != [] {
      PayloadSays(hear, log[0], cs[0]);
      AnswerConveys(hear, log[1..], cs[1..]);
    }
  }

  lemma StatusSkipped(hear: string -> Heard, e: Entry, data: seq<byte>, tail: string, acc: seq<byte>)
    requires WellBehaved(hear) && Says(hear, e, Response(STATUS, "", "", data))
    ensures CollectWith(hear, FrameOfEntry(e) + tail, acc) == CollectWith(hear, tail, acc)
  {
  }

  lemma ChunkAdded(hear: string -> Heard, e: Entry, data: seq<byte>, tail: string, acc: seq<byte>)
    requires WellBehaved(hear) && Says(hear, e, Response(CHUNK, "", "", data))
    ensures CollectWith(hear, FrameOfEntry(e) + tail, acc) == CollectWith(hear, tail, acc + data)
  {
  }

  /** One frame before the last: what is still to come, and what has been collected. */
  lemma StepOver(hear: string -> Heard, log: seq<Entry>, cs: seq<seq<byte>>, acc: seq<byte>, tail: string)
    returns (cs': seq<seq<byte>>, acc': seq<byte>)
    requires WellBehaved(hear) && Conveys(hear, log, cs) && !(cs == [] && |log| == 1)
    ensures Conveys(hear, log[1..], cs') && acc' + Flatten(cs') == acc + Flatten(cs)
    ensures CollectWith(hear, FrameOfEntry(log[0]) + tail, acc) == CollectWith(hear, tail, acc')
  {
    if data :| Says(hear, log[0], Response(STATUS, "", "", data)) && Conveys(hear, log[1..], cs) {
      cs', acc' := cs, acc;
      StatusSkipped(hear, log[0], data, tail, acc);
    } else {
      cs', acc' := cs[1..], acc + cs[0];
      ChunkAdded(hear, log[0], cs[0], tail, acc);
    }
  }

  /** Chunks are collected in order up to END, and nothing after it is consumed. */
  lemma {:induction false} ConveyedCollected(hear: string -> Heard, log: seq<Entry>, cs: seq<seq<byte>>,
                                              rest: string, acc: seq<byte>)
    requires WellBehaved(hear) && Conveys(hear, log, cs)
    ensures CollectWith(hear, Stream(log) + rest, acc) == Collected(Success(acc + Flatten(cs)), rest)
    decreases |log|
  {
    var tail := Stream(log[1..]) + rest;
    assert Stream(log) + rest == FrameOfEntry(log[0]) + tail;
    if cs == [] && |log| == 1 {
      assert tail == rest && acc + Flatten(cs) == acc;
    } else {
      var cs', acc' := StepOver(hear, log, cs, acc, tail);
      ConveyedCollected(hear, log[1..], cs', rest, acc');
    }
  }

  lemma AllCollected(hear: string -> Heard, log: seq<Entry>, cs: seq<seq<byte>>, rest: string)
    requires WellBehaved(hear) && Conveys(hear, log, cs)
    ensures CollectWith(hear, Stream(log) + rest, []) == Collected(Success(Flatten(cs)), rest)
  {
    ConveyedCollected(hear, log, cs, rest, []);
    assert [] + Flatten(cs) == Flatten(cs);
  }

  lemma Transmitted(output: seq<byte>, log: seq<Entry>) returns (cs: seq<seq<byte>>)
    requires Interleaved(log, Answer(output)) && log != [] && log[|log| - 1] == END_ENTRY
    ensures WellBehaved(Hear) && Conveys(Hear, log, cs) && Flatten(cs) == output
  {
    cs := Chunks(output);
    forall i | 0 <= i < |cs| ensures |PayloadBody(CHUNK, cs[i])| + 2 <= MAX_FRAME { ChunkFits(cs[i]); }
    HearUnderstands();
    AnswerConveys(Hear, log, cs);
    ChunksFlatten(output);
  }

  /** What SendOutput writes, for any output and any status frames, arrives as the output,
      and the next request finds its own answer. */
  lemma TransferRoundTrip(output: seq<byte>, log: seq<Entry>, rest: string)
    requires Interleaved(log, Answer(output)) && log != [] && log[|log| - 1] == END_ENTRY
    ensures Collect(Stream(log) + rest, []) == Collected(Success(output), rest)
  {
    var cs := Transmitted(output, log);
    AllCollected(Hear, log, cs, rest);
  }

  // ------------------------------------------------------------ an error instead of the answer

  /** Chunks with status frames between them are collected, and reading goes on behind them. */
  lemma {:induction false} PartCollected(hear: string -> Heard, log: seq<Entry>, cs: seq<seq<byte>>, tail: string,
                                          acc: seq<byte>)
    requires Understands(hear) && Interleaved(log, ChunkEntries(cs)) && AllFit(cs)
    ensures CollectWith(hear, Stream(log) + tail, acc) == CollectWith(hear, tail, acc + Flatten(cs))
    decreases |log|
  {
    if log == [] {
      assert Stream(log) + tail == tail && acc + Flatten(cs) == acc;
    } else {
      var tail' := Stream(log[1..]) + tail;
      assert Stream(log) + tail == FrameOfEntry(log[0]) + tail';
      InterleavedFront(log, ChunkEntries(cs));
      if IsStatus(log[0]) {
        var data :| log[0].body == PayloadBody(STATUS, data);
        PayloadSays(hear, log[0], data);
        StatusSkipped(hear, log[0], data, tail', acc);
        PartCollected(hear, log[1..], cs, tail, acc);
      } else {
        NextChunk(cs);
        PayloadSays(hear, log[0], cs[0]);
        ChunkAdded(hear, log[0], cs[0], tail', acc);
        PartCollected(hear, log[1..], cs[1..], tail, acc + cs[0]);
        FlattenNext(cs, acc);
      }
    }
  }

  lemma FlattenNext(cs: seq<seq<byte>>, acc: seq<byte>)
    requires cs != []
    ensures acc + Flatten(cs) == acc + cs[0] + Flatten(cs[1..])
  {
  }

  lemma NextChunk(cs: seq<seq<byte>>)
    requires ChunkEntries(cs) != []
    ensures cs != [] && ChunkEntries(cs)[1..] == ChunkEntries(cs[1..])
    ensures ChunkEntries(cs)[0] == Wrote(CHUNK, PayloadBody(CHUNK, cs[0]))
  {
  }

  /** An error response, at the start or behind any part of an answer: the client reports its
      code and its message, keeps the connection, and reads nothing behind the error. */
  lemma ErrorArrives(log: seq<Entry>, cs: seq<seq<byte>>, code: string, message: string, rest: string)
    requires Interleaved(log, ChunkEntries(cs)) && AllFit(cs)
    requires Delivers(ErrBody(code, message), rest, Response(ERR, message, code, []))
    ensures
      var c := Collect(Stream(log) + (ErrBody(code, message) + TERMINATOR + rest), []);
      c == Collected(ServerError(code, message), rest) && !Drops(c.outcome)
  {
    var s := ErrBody(code, message) + TERMINATOR + rest;
    HearUnderstands();
    PartCollected(Hear, log, cs, s, []);
    Delivered(ErrBody(code, message), rest, Response(ERR, message, code, []));
  }

  /** A response of a kind that has no place in an answer is reported, and the connection kept. */
  lemma StrangerReported(k: Kind, data: seq<byte>, rest: string)
    requires k == DATA || k == JSON
    requires |PayloadBody(k, data)| + 2 <= MAX_FRAME
    ensures Collect(PayloadBody(k, data) + TERMINATOR + rest, []) == Collected(Unexpected(k), rest)
    ensures !Drops(Unexpected(k))
  {
    HearUnderstands();
  }

  // ------------------------------------------------------------ a stream that ends too soon

  predicate Broken(h: Heard) { h.Silent? && (h.why.EndedEarly? || h.why.ReadFailed?) }

  /** A frame cut short is no frame. */
  ghost predicate PrefixFree(hear: string -> Heard) {
    forall f, p :: hear(f).Heard? && hear(f).rest == "" && p < f ==> Broken(hear(p))
  }

  lemma HearPrefixFree()
    ensures PrefixFree(Hear)
  {
    forall f, p | Hear(f).Heard? && Hear(f).rest == "" && p < f ensures Broken(Hear(p)) { CutFrame(f, p); }
  }

  lemma CutFrame(f: string, p: string)
    requires Hear(f).Heard? && Hear(f).rest == "" && p < f
    ensures Broken(Hear(p))
  {
    assert Index(f, TERMINATOR) + 2 == |f|;
    CutUnterminated(f, p);
  }

  lemma CutUnterminated(f: string, p: string)
    requires Index(f, TERMINATOR) + 2 == |f| && p < f
    ensures Index(p, TERMINATOR) < 0
  {
    NoTerminator(p);
    forall k: nat ensures !TermAt(p, k) {
      TermOccurs(f, k);
      if k < |f| - 2 { EarlierOccurrence(f, k); }
    }
  }

  lemma EarlierOccurrence(f: string, k: nat)
    requires k < Index(f, TERMINATOR)
    ensures !OccursAt(f, TERMINATOR, k)
  {
    if OccursAt(f, TERMINATOR, k) { IndexLeast(f, TERMINATOR, k); }
  }

  lemma PrefixSplit(f: string, tail: string, p: string)
    requires p < f + tail
    ensures |p| < |f| ==> p < f
    ensures |p| >= |f| ==> p == f + p[|f|..] && p[|f|..] < tail
  {
    var s := f + tail;
    assert p == s[..|p|] && s[|f|..] == tail;
    assert forall i :: 0 <= i < |p| ==> p[i] == s[i];
  }

  lemma {:induction false} CutCollected(hear: string -> Heard, log: seq<Entry>, cs: seq<seq<byte>>,
                                         p: string, acc: seq<byte>)
    requires WellBehaved(hear) && PrefixFree(hear) && Conveys(hear, log, cs) && p < Stream(log)
    ensures CollectWith(hear, p, acc).outcome.EndedEarly? || CollectWith(hear, p, acc).outcome.ReadFailed?
    decreases |log|
  {
    var f, tail := FrameOfEntry(log[0]), Stream(log[1..]);
    PrefixSplit(f, tail, p);
    if |p| < |f| {
      assert f + "" == f;
      assert hear(f + "").Heard?;
    } else {
      var p' := p[|f|..];
      assert |log| > 1;
      var cs', acc' := StepOver(hear, log, cs, acc, p');
      CutCollected(hear, log[1..], cs', p', acc');
    }
  }

  /** However the answer is cut short, even inside a frame, the client reports an error and
      drops the connection. */
  lemma CutTransferFails(output: seq<byte>, log: seq<Entry>, p: string)
    requires Interleaved(log, Answer(output)) && log != [] && log[|log| - 1] == END_ENTRY
    requires p < Stream(log)
    ensures Drops(Collect(p, []).outcome)
  {
    HearPrefixFree();
    var cs := Transmitted(output, log);
    CutCollected(Hear, log, cs, p, []);
  }

  /** A transfer during which the connection is closed: what SendOutput did send is the start
      of a full answer, so the client reports an error and drops the connection. */
  lemma ClosedTransferFails(output: seq<byte>, sent: seq<Entry>, n: nat)
    requires n < |Answer(output)| && Interleaved(sent, Answer(output)[..n])
    ensures Drops(Collect(Stream(sent), []).outcome)
  {
    var log := Completed(output, sent, n);
    CutTransferFails(output, log, Stream(sent));
  }

  lemma Completed(output: seq<byte>, sent: seq<Entry>, n: nat) returns (log: seq<Entry>)
    requires n < |Answer(output)| && Interleaved(sent, Answer(output)[..n])
    ensures Interleaved(log, Answer(output)) && log != [] && log[|log| - 1] == END_ENTRY && Stream(sent) < Stream(log)
  {
    var left := Answer(output)[n..];
    assert Answer(output)[..n] + left == Answer(output);
    InterleavedMore(sent, Answer(output)[..n], left);
    StreamGrows(sent, left);
    log := sent + left;
  }

  lemma {:induction false} InterleavedMore(log: seq<Entry>, essential: seq<Entry>, more: seq<Entry>)
    requires Interleaved(log, essential) && forall i :: 0 <= i < |more| ==> !IsStatus(more[i])
    ensures Interleaved(log + more, essential + more)
    decreases |more|
  {
    if more == [] {
      assert log + more == log && essential + more == essential;
    } else {
      var n := |more| - 1;
      InterleavedMore(log, essential, more[..n]);
      InterleavedAppend(log + more[..n], essential + more[..n], more[n]);
      assert log + more == log + more[..n] + [more[n]] && essential + more == essential + more[..n] + [more[n]];
    }
  }

  lemma {:induction false} StreamGrows(log: seq<Entry>, more: seq<Entry>)
    requires more != [] && more[0].Wrote?
    ensures Stream(log) < Stream(log + more)
    decreases |log|
  {
    if log == [] {
      assert log + more == more;
    } else {
      assert (log + more)[1..] == log[1..] + more;
      StreamGrows(log[1..], more);
    }
  }

  lemma HeardBehind(x: string)
    requires Hear(x).Heard?
    ensures HasSuffix(x, Hear(x).rest)
  {
    var n := Advance(x);
    assert Hear(x).rest == x[n..] && |x[n..]| == |x| - n;
  }

  /** On any byte stream at all, success means that an END frame was read, and that it was
      the last thing read. */
  lemma {:induction false} SuccessNeedsEnd(hear: string -> Heard, s: string, acc: seq<byte>) returns (at: nat)
    requires WellBehaved(hear) && (forall x :: hear(x).Heard? ==> HasSuffix(x, hear(x).rest))
    requires CollectWith(hear, s, acc).outcome.Success?
    ensures at <= |s| && hear(s[at..]).Heard? && hear(s[at..]).r.kind == END
    ensures CollectWith(hear, s, acc).left == hear(s[at..]).rest
    decreases |s|
  {
    var Heard(r, rest) := hear(s);
    if r.kind == END {
      at := 0;
      assert s[0..] == s;
    } else {
      var k := SuccessNeedsEnd(hear, rest, if r.kind == CHUNK then acc + r.data else acc);
      at := |s| - |rest| + k;
      assert s[|s| - |rest|..][k..] == s[at..];
    }
  }

  lemma NoSuccessWithoutEnd(s: string) returns (at: nat)
    requires Collect(s, []).outcome.Success?
    ensures at <= |s| && Hear(s[at..]).Heard? && Hear(s[at..]).r.kind == END
    ensures Collect(s, []).left == Hear(s[at..]).rest
  {
    forall x | Hear(x).Heard? ensures HasSuffix(x, Hear(x).rest) { HeardBehind(x); }
    at := SuccessNeedsEnd(Hear, s, []);
  }
}
