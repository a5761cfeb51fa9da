/** Chunked transfer of large output: the hub connection's writers, the loop that cuts the
    output, and the client that collects it. */
module Chunked {
  import opened Text
  import opened Base64
  import opened Frames
  import opened Responses

  const CHUNK_SIZE := 64 * 1024

  // ------------------------------------------------------------ the hub's connection

  /** What happens on a connection: a request is dispatched, or a frame is written. */
  datatype Entry = Began | Wrote(kind: Kind, body: string)

  /** Every kind but CHUNK and STATUS ends a request. */
  predicate IsTerminal(e: Entry) { e.Wrote? && e.kind != CHUNK && e.kind != STATUS }

  /** A terminal frame has been written since the last dispatch. */
  predicate TerminalSince(log: seq<Entry>) {
    log != [] && (IsTerminal(log[|log| - 1]) || (log[|log| - 1] != Began && TerminalSince(log[..|log| - 1])))
  }

  /** No STATUS between a terminal frame and the next dispatch. */
  predicate Orderly(log: seq<Entry>) {
    forall i, k :: 0 <= i < k < |log| && IsTerminal(log[i]) && log[k].Wrote? && log[k].kind == STATUS ==>
      Began in log[i + 1..k]
  }

  /** In an orderly log no status follows an OK, ERR, DATA, JSON, END or PONG before the next
      request is dispatched. */
  lemma NoLateStatus(log: seq<Entry>, i: nat, k: nat)
    requires Orderly(log) && i < k < |log| && log[i].Wrote? && log[k].Wrote? && log[k].kind == STATUS
    requires log[i].kind in {OK, ERR, DATA, JSON, END, PONG}
    ensures exists j :: i < j < k && log[j] == Began
  {
    assert Began in log[i + 1..k];
    var m :| 0 <= m < |log[i + 1..k]| && log[i + 1..k][m] == Began;
    assert log[i + 1 + m] == Began;
  }

  lemma {:induction false} TerminalSinceIff(log: seq<Entry>)
    ensures TerminalSince(log) <==> exists i :: 0 <= i < |log| && IsTerminal(log[i]) && Began !in log[i + 1..]
  {
    if log == [] {
    } else {
      var n := |log| - 1;
      var front := log[..n];
      TerminalSinceIff(front);
      if IsTerminal(log[n]) {
        assert log[n + 1..] == [];
      } else if log[n] == Began {
        forall i | 0 <= i < |log| && IsTerminal(log[i])
          ensures Began in log[i + 1..] { assert log[i + 1..][n - i - 1] == Began; }
      } else {
        assert forall i :: 0 <= i < n ==> front[i] == log[i] && log[i + 1..] == front[i + 1..] + [log[n]];
      }
    }
  }

  lemma OrderlyAppend(log: seq<Entry>, e: Entry)
    requires Orderly(log)
    requires e.Wrote? && e.kind == STATUS ==> !TerminalSince(log)
    ensures Orderly(log + [e])
  {
    TerminalSinceIff(log);
    var log' := log + [e];
    forall i, k | 0 <= i < k < |log'| && IsTerminal(log'[i]) && log'[k].Wrote? && log'[k].kind == STATUS
      ensures Began in log'[i + 1..k]
    {
      if k < |log| {
        assert log'[i + 1..k] == log[i + 1..k];
      } else {
        assert log'[i + 1..k] == log[i + 1..];
      }
    }
  }

  /** One client connection of the hub; each method is one critical section of its lock. */
  class Connection {
    var closed: bool
    var terminalWritten: bool
    var log: seq<Entry>

    constructor ()
      ensures Valid() && !closed && log == []
    {
      closed, terminalWritten, log := false, false, [];
    }

    ghost predicate Valid()
      reads this
    {
      Orderly(log) && (TerminalSince(log) ==> terminalWritten)
    }

    /** dispatchWithStatus resets the flag before it starts the ticker and the handler. */
    method BeginDispatch()
      requires Valid()
      modifies this
      ensures Valid() && !terminalWritten && closed == old(closed) && log == old(log) + [Began]
    {
      OrderlyAppend(log, Began);
      terminalWritten := false;
      log := log + [Began];
    }

    method Close()
      requires Valid()
      modifies this
      ensures Valid() && closed && terminalWritten == old(terminalWritten) && log == old(log)
    {
      closed := true;
    }

    /** Any of the Write methods except TryWriteStatus.  A frame above the limit is refused,
        and a closed transport refuses every frame, after the flag is set. */
    method Write(kind: Kind, body: string) returns (sent: bool)
      requires Valid() && kind != STATUS
      modifies this
      ensures Valid() && closed == old(closed)
      ensures sent == (!closed && |body| + 2 <= MAX_FRAME)
      ensures log == if sent then old(log) + [Wrote(kind, body)] else old(log)
      ensures kind == CHUNK ==> terminalWritten == old(terminalWritten)
      ensures kind != CHUNK ==> terminalWritten
    {
      if kind != CHUNK { terminalWritten := true; }
      sent := !closed && |body| + 2 <= MAX_FRAME;
      if sent {
        OrderlyAppend(log, Wrote(kind, body));
        log := log + [Wrote(kind, body)];
      }
    }

    /** busy: another writer holds the lock, so the status is skipped. */
    method TryWriteStatus(data: seq<byte>, busy: bool) returns (sent: bool)
      requires Valid()
      modifies this
      ensures Valid() && closed == old(closed) && terminalWritten == old(terminalWritten)
      ensures sent == (!busy && !closed && !terminalWritten && |PayloadBody(STATUS, data)| + 2 <= MAX_FRAME)
      ensures log == if sent then old(log) + [Wrote(STATUS, PayloadBody(STATUS, data))] else old(log)
    {
      sent := !busy && !closed && !terminalWritten && |PayloadBody(STATUS, data)| + 2 <= MAX_FRAME;
      if sent {
        OrderlyAppend(log, Wrote(STATUS, PayloadBody(STATUS, data)));
        log := log + [Wrote(STATUS, PayloadBody(STATUS, data))];
      }
    }
  }

  // ------------------------------------------------------------ cutting the output

  function Chunks(output: seq<byte>): (cs: seq<seq<byte>>)
    ensures forall i :: 0 <= i < |cs| ==> |cs[i]| <= CHUNK_SIZE
  {
    if |output| <= CHUNK_SIZE then (if output == [] then [] else [output])
    else [output[..CHUNK_SIZE]] + Chunks(output[CHUNK_SIZE..])
  }

  function Flatten(cs: seq<seq<byte>>): seq<byte> {
    if cs == [] then [] else cs[0] + Flatten(cs[1..])
  }

  lemma {:induction false} ChunksFlatten(output: seq<byte>)
    ensures Flatten(Chunks(output)) == output
  {
    if |output| > CHUNK_SIZE {
      ChunksFlatten(output[CHUNK_SIZE..]);
      assert output == output[..CHUNK_SIZE] + output[CHUNK_SIZE..];
    } else if output != [] {
      assert Flatten([output]) == output + Flatten([]);
    }
  }

  /** Every chunk but the last holds 64 KiB, and the last at least one byte and no more. */
  lemma {:induction false} ChunkSizes(output: seq<byte>, i: nat)
    requires i < |Chunks(output)|
    ensures i < |Chunks(output)| - 1 ==> |Chunks(output)[i]| == 65536
    ensures i == |Chunks(output)| - 1 ==> 1 <= |Chunks(output)[i]| <= 65536
  {
    if |output| <= CHUNK_SIZE {
    } else {
      if i > 0 { ChunkSizes(output[CHUNK_SIZE..], i - 1); }
    }
  }

  function ChunkEntries(cs: seq<seq<byte>>): seq<Entry> {
    seq(|cs|, i requires 0 <= i < |cs| => Wrote(CHUNK, PayloadBody(CHUNK, cs[i])))
  }

  predicate IsStatus(e: Entry) { e.Wrote? && e.kind == STATUS }

  function DropStatus(log: seq<Entry>): seq<Entry> {
    if log == [] then []
    else DropStatus(log[..|log| - 1]) + if IsStatus(log[|log| - 1]) then [] else [log[|log| - 1]]
  }

  /** A status frame that the peer can read back. */
  ghost predicate FitStatus(e: Entry) {
    IsStatus(e) && |e.body| + 2 <= MAX_FRAME && exists data :: e.body == PayloadBody(STATUS, data)
  }

  /** The chunks written so far, with status frames anywhere between them. */
  ghost predicate Interleaved(log: seq<Entry>, essential: seq<Entry>) {
    DropStatus(log) == essential && forall i :: 0 <= i < |log| && IsStatus(log[i]) ==> FitStatus(log[i])
  }

  lemma InterleavedAppend(log: seq<Entry>, essential: seq<Entry>, e: Entry)
    requires Interleaved(log, essential) && (IsStatus(e) ==> FitStatus(e))
    ensures Interleaved(log + [e], essential + if IsStatus(e) then [] else [e])
  {
    assert (log + [e])[..|log|] == log;
  }

  /** What other goroutines do between two writes of the handler: the ticker offers a status,
      or somebody closes the connection. */
  datatype Aside = Tick(status: seq<byte>) | Closing

  lemma StatusSent(start: seq<Entry>, sent: seq<Entry>, essential: seq<Entry>, status: seq<byte>)
    returns (sent': seq<Entry>)
    requires Interleaved(sent, essential) && |PayloadBody(STATUS, status)| + 2 <= MAX_FRAME
    ensures start + sent + [Wrote(STATUS, PayloadBody(STATUS, status))] == start + sent'
    ensures Interleaved(sent', essential)
  {
    var e := Wrote(STATUS, PayloadBody(STATUS, status));
    InterleavedAppend(sent, essential, e);
    assert essential + [] == essential;
    sent' := sent + [e];
  }

  /** sent is everything written since the request began. */
  method Meanwhile(conn: Connection, asides: seq<Aside>, ghost start: seq<Entry>, ghost sent: seq<Entry>,
                   ghost essential: seq<Entry>) returns (ghost sent': seq<Entry>)
    requires conn.Valid() && conn.log == start + sent && Interleaved(sent, essential)
    modifies conn
    ensures conn.Valid() && conn.terminalWritten == old(conn.terminalWritten)
    ensures conn.log == start + sent' && Interleaved(sent', essential)
    ensures old(conn.closed) ==> conn.closed && sent' == sent
    ensures Closing !in asides ==> conn.closed == old(conn.closed)
  {
    sent' := sent;
    for i := 0 to |asides|
      invariant conn.Valid() && conn.terminalWritten == old(conn.terminalWritten)
      invariant conn.log == start + sent' && Interleaved(sent', essential)
      invariant old(conn.closed) ==> conn.closed && sent' == sent
      invariant Closing !in asides ==> conn.closed == old(conn.closed)
    {
      match asides[i]
      case Closing => conn.Close();
      case Tick(status) =>
        var ok := conn.TryWriteStatus(status, false);
        if ok {
          sent' := StatusSent(start, sent', essential, status);
        }
    }
  }

  lemma ChunkFits(c: seq<byte>)
    requires |c| <= CHUNK_SIZE
    ensures |PayloadBody(CHUNK, c)| + 2 <= MAX_FRAME
  {
    DigitsBound(|Encode(c)|);
  }

  lemma {:induction false} DigitsBound(n: nat)
    requires n < 100000000
    ensures |Itoa(n)| <= 8
  {
    assert n / 10 / 10 / 10 / 10 / 10 / 10 / 10 < 10;
    var a := n / 10;
    var b := a / 10;
    var c := b / 10;
    var d := c / 10;
    var e := d / 10;
    var f := e / 10;
    assert |Itoa(f)| <= 2 && |Itoa(e)| <= 3 && |Itoa(d)| <= 4 && |Itoa(c)| <= 5;
    assert |Itoa(b)| <= 6 && |Itoa(a)| <= 7;
  }

  const END_ENTRY := Wrote(END, Name(END))

  /** The full answer: every chunk in order, then END. */
  function Answer(output: seq<byte>): seq<Entry> { ChunkEntries(Chunks(output)) + [END_ENTRY] }

  /** handleProcOutput for output above the chunk size; asides(k) happens before its k-th write.
      A prefix of the full answer is sent, the whole of it exactly when no write fails; that
      needs the connection to stay open up to END, and nothing is sent on a closed one. */
  method SendOutput(conn: Connection, output: seq<byte>, asides: nat -> seq<Aside>)
      returns (ok: bool, ghost sent: seq<Entry>, ghost n: nat)
    requires conn.Valid() && |output| > CHUNK_SIZE
    modifies conn
    ensures conn.Valid() && conn.log == old(conn.log) + sent
    ensures n <= |Answer(output)| && Interleaved(sent, Answer(output)[..n])
    ensures ok <==> n == |Answer(output)|
    ensures ok ==> sent != [] && sent[|sent| - 1] == END_ENTRY
    ensures ok == !conn.closed
    ensures old(conn.closed) ==> sent == []
    ensures !old(conn.closed) && (forall k: nat :: Closing !in asides(k)) ==> ok
  {
    ghost var start := conn.log;
    sent, n := [], 0;
    assert start + sent == start;
    var i, round := 0, 0;
    ghost var done: seq<seq<byte>> := [];
    assert output[0..] == output;
    while i < |output|
      invariant 0 <= i <= |output|
      invariant conn.Valid() && conn.log == start + sent && n == |done|
      invariant old(conn.closed) ==> conn.closed && i == 0 && sent == []
      invariant !old(conn.closed) && (forall k: nat :: Closing !in asides(k)) ==> !conn.closed
      invariant Interleaved(sent, ChunkEntries(done))
      invariant done + Chunks(output[i..]) == Chunks(output)
    {
      sent := Meanwhile(conn, asides(round), start, sent, ChunkEntries(done));
      var end := if i + CHUNK_SIZE > |output| then |output| else i + CHUNK_SIZE;
      var piece := output[i..end];
      ChunkFits(piece);
      ok := conn.Write(CHUNK, PayloadBody(CHUNK, piece));
      if !ok {
        AnswerPrefix(output, done, Chunks(output[i..]));
        return;
      }
      sent := ChunkSent(start, sent, done, piece);
      done := FirstChunk(output, i, end, done);
      i, n := end, n + 1;
      round := round + 1;
    }
    assert done == Chunks(output) by { assert output[|output|..] == []; }
    AnswerPrefix(output, done, []);
    sent := Meanwhile(conn, asides(round), start, sent, ChunkEntries(done));
    ok := conn.Write(END, Name(END));
    if ok {
      sent := EndSent(start, sent, output);
      n := n + 1;
    }
  }

  lemma EndSent(start: seq<Entry>, sent: seq<Entry>, output: seq<byte>) returns (sent': seq<Entry>)
    requires Interleaved(sent, ChunkEntries(Chunks(output)))
    ensures start + sent + [END_ENTRY] == start + sent' && sent' != [] && sent'[|sent'| - 1] == END_ENTRY
    ensures Interleaved(sent', Answer(output)[..|Answer(output)|])
  {
    InterleavedAppend(sent, ChunkEntries(Chunks(output)), END_ENTRY);
    sent' := sent + [END_ENTRY];
    assert Answer(output)[..|Answer(output)|] == Answer(output);
  }

  lemma AnswerPrefix(output: seq<byte>, done: seq<seq<byte>>, left: seq<seq<byte>>)
    requires done + left == Chunks(output)
    ensures |done| < |Answer(output)| && Answer(output)[..|done|] == ChunkEntries(done)
    ensures |Answer(output)| == |done| + |left| + 1
  {
  }

  lemma ChunkSent(start: seq<Entry>, sent: seq<Entry>, done: seq<seq<byte>>, piece: seq<byte>)
    returns (sent': seq<Entry>)
    requires Interleaved(sent, ChunkEntries(done))
    ensures start + sent + [Wrote(CHUNK, PayloadBody(CHUNK, piece))] == start + sent'
    ensures Interleaved(sent', ChunkEntries(done + [piece]))
  {
    var e := Wrote(CHUNK, PayloadBody(CHUNK, piece));
    InterleavedAppend(sent, ChunkEntries(done), e);
    sent' := sent + [e];
    assert ChunkEntries(done + [piece]) == ChunkEntries(done) + [e];
  }

  lemma FirstChunk(output: seq<byte>, i: nat, end: nat, done: seq<seq<byte>>) returns (done': seq<seq<byte>>)
    requires i < end <= |output| && end == if i + CHUNK_SIZE > |output| then |output| else i + CHUNK_SIZE
    requires done + Chunks(output[i..]) == Chunks(output)
    ensures done' == done + [output[i..end]] && done' + Chunks(output[end..]) == Chunks(output)
  {
    var rest := output[i..];
    done' := done + [output[i..end]];
    if |rest| > CHUNK_SIZE {
      assert rest[..CHUNK_SIZE] == output[i..end] && rest[CHUNK_SIZE..] == output[end..];
    } else {
      assert rest == output[i..end] && output[end..] == [];
    }
    assert Chunks(rest) == [output[i..end]] + Chunks(output[end..]);
    assert done' + Chunks(output[end..]) == done + Chunks(rest);
  }
}
