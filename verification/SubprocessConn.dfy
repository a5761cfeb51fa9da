/** Exchanges with a subprocess over one connection: every command gets its own answer, or
    the connection is given up. */
module SubprocessConn {
  import opened Prelude
  import opened Responses

  /** A frame that does not end an answer. */
  predicate Continues(r: Response) { r.kind == STATUS || r.kind == CHUNK }

  /** What a subprocess sends for one command: status and chunk frames, then one other. */
  predicate IsAnswer(frames: seq<Response>) {
    && frames != [] && !Continues(frames[|frames| - 1])
    && forall i :: 0 <= i < |frames| - 1 ==> Continues(frames[i])
  }

  /** How a write ends: the whole frame is sent, or an error after nothing or after a part
      of it. */
  datatype Written = Whole | Nothing | Part

  /** What befalls one exchange: how its write ends, which read fails (deadline or
      transport), and which frame the caller's handler refuses. */
  datatype Fate = Fate(write: Written, readFails: nat -> bool, handleFails: nat -> bool)

  /** Whether a part of a frame is left over after a write. */
  function Residue(before: bool, f: Fate): bool { if f.write == Nothing then before else f.write == Part }

  predicate Smooth(f: Fate, n: nat) {
    f.write == Whole && forall i :: 0 <= i < n ==> !f.readFails(i) && !f.handleFails(i)
  }

  /** The answer to a command that is sent whole, as the n-th frame, after such a left-over. */
  function ReplyTo(answers: nat -> seq<Response>, garbled: nat -> seq<Response>, left: bool, n: nat): seq<Response> {
    if left then garbled(n) else answers(n)
  }

  class SubprocessConn {
    /** The subprocess's answer to the k-th frame it receives, if that is the command as it
        was sent, and if the frame begins with a part of an earlier one. */
    const answers: nat -> seq<Response>
    const garbled: nat -> seq<Response>
    /** The closer has not been called. */
    var open: bool
    /** How many frames the subprocess has received. */
    var received: nat
    /** It has received a part of another. */
    var residue: bool
    /** What it has sent, or will send, and nobody has read. */
    var unread: seq<Response>

    constructor (answers: nat -> seq<Response>, garbled: nat -> seq<Response>)
      requires forall k :: IsAnswer(answers(k)) && IsAnswer(garbled(k))
      ensures Valid() && open && received == 0 && !residue
      ensures this.answers == answers && this.garbled == garbled
    {
      this.answers, this.garbled := answers, garbled;
      open, received, residue, unread := true, 0, false, [];
    }

    /** Between exchanges an open connection owes nothing. */
    ghost predicate Valid()
      reads this
    {
      (forall k :: IsAnswer(answers(k)) && IsAnswer(garbled(k))) && (open ==> unread == [])
    }

    /** The answer to the next command that is sent whole. */
    function Reply(): seq<Response>
      reads this
    {
      ReplyTo(answers, garbled, residue, received)
    }

    /** On a closed connection every write fails, and sends nothing. */
    method WriteCommand(f: Fate) returns (ok: bool)
      modifies this`received, this`residue, this`unread
      ensures ok == (open && f.write == Whole)
      ensures received == old(received) + if ok then 1 else 0
      ensures residue == if open then Residue(old(residue), f) else old(residue)
      ensures unread == old(unread) + if ok then old(Reply()) else []
    {
      ok := open && f.write == Whole;
      if ok {
        unread := unread + Reply();
        received := received + 1;
      }
      if open && f.write != Nothing { residue := f.write == Part; }
    }

    /** handled is what the caller's handler was given, in order.  A failed write leaves the
        connection open. */
    method SendCommandStream(f: Fate) returns (handled: seq<Response>, ok: bool)
      requires Valid()
      modifies this`open, this`received, this`residue, this`unread
      ensures Valid()
      ensures ok <==> old(open) && Smooth(f, |old(Reply())|)
      ensures ok ==> open && handled == old(Reply())
      ensures received == old(received) + if old(open) && f.write == Whole then 1 else 0
      ensures residue == if old(open) then Residue(old(residue), f) else old(residue)
      ensures handled <= old(Reply())
      ensures !ok && open ==> f.write != Whole && handled == []
      ensures !old(open) ==> !open && handled == []
    {
      handled := [];
      ok := WriteCommand(f);
      if !ok { return; }
      handled, ok := ReadAnswer(f, old(Reply()));
    }

    /** The reading loop: it ends at the frame that ends the answer, or closes the
        connection. */
    method ReadAnswer(f: Fate, ghost answer: seq<Response>) returns (handled: seq<Response>, ok: bool)
      requires open && unread == answer && IsAnswer(answer)
      modifies this`open, this`unread
      ensures handled <= answer && ok == open
      ensures ok ==> handled == answer && unread == []
      ensures ok <==> forall i :: 0 <= i < |answer| ==> !f.readFails(i) && !f.handleFails(i)
    {
      handled := [];
      while true
        invariant open && |handled| < |answer| && handled == answer[..|handled|] && unread == answer[|handled|..]
        invariant forall i :: 0 <= i < |handled| ==> !f.readFails(i) && !f.handleFails(i)
        decreases |unread|
      {
        var n := |handled|;
        if unread == [] || f.readFails(n) {
          open := false;
          return handled, false;
        }
        var resp := unread[0];
        unread := unread[1..];
        handled := handled + [resp];
        assert resp == answer[n] && handled == answer[..n + 1];
        if f.handleFails(n) {
          open := false;
          return handled, false;
        }
        if resp.kind == STATUS { continue; }
        if resp.kind != CHUNK { return handled, true; }
      }
    }

    /** The plain form keeps the last frame. */
    method SendCommand(f: Fate) returns (last: Option<Response>, ok: bool)
      requires Valid()
      modifies this`open, this`received, this`residue, this`unread
      ensures Valid()
      ensures ok ==>
        && last.Some? && last.value == old(Reply())[|old(Reply())| - 1]
        && !Continues(last.value)
      ensures ok <==> old(open) && Smooth(f, |old(Reply())|)
      ensures !ok && open ==> f.write != Whole && last == None
      ensures received == old(received) + if old(open) && f.write == Whole then 1 else 0
      ensures residue == if old(open) then Residue(old(residue), f) else old(residue)
      ensures !old(open) ==> !ok && !open && last == None
    {
      var handled, ok' := SendCommandStream(f);
      ok := ok';
      last := if handled == [] then None else Some(handled[|handled| - 1]);
    }

    method Close()
      requires Valid()
      modifies this`open
      ensures Valid() && !open
    {
      open := false;
    }
  }

  /** One exchange as the caller saw it, and whether the connection was closed after it. */
  datatype Exchange = Exchange(handled: seq<Response>, ok: bool, closed: bool)

  /** How many of these exchanges succeeded. */
  function Succeeded(log: seq<Exchange>): nat {
    if log == [] then 0 else Succeeded(log[..|log| - 1]) + if log[|log| - 1].ok then 1 else 0
  }

  /** Whether these exchanges, on a connection that stays open, leave a part of a frame. */
  predicate Leftover(fates: seq<Fate>) {
    fates != [] && Residue(Leftover(fates[..|fates| - 1]), fates[|fates| - 1])
  }

  lemma LeftoverStep(fates: seq<Fate>, i: nat)
    requires i < |fates|
    ensures Leftover(fates[..i + 1]) == Residue(Leftover(fates[..i]), fates[i])
  {
    assert fates[..i + 1][..i] == fates[..i];
  }

  ghost predicate GivenUp(log: seq<Exchange>) { exists k :: 0 <= k < |log| && log[k].closed }

  /** Every successful exchange has the answer to its own command, or to what was left over
      run together with it. */
  predicate Answered(answers: nat -> seq<Response>, garbled: nat -> seq<Response>, fates: seq<Fate>, log: seq<Exchange>)
    requires |log| <= |fates|
  {
    forall k :: 0 <= k < |log| && log[k].ok ==>
      log[k].handled == ReplyTo(answers, garbled, Leftover(fates[..k]), Succeeded(log[..k]))
  }

  /** A failed exchange closes the connection or returned nothing, and nothing comes after a
      connection is closed. */
  predicate Ended(log: seq<Exchange>) {
    && (forall j, k :: 0 <= j < k < |log| && log[j].closed ==> !log[k].ok && log[k].handled == [])
    && (forall k :: 0 <= k < |log| && !log[k].ok && !log[k].closed ==> log[k].handled == [])
  }

  lemma AnsweredAppend(answers: nat -> seq<Response>, garbled: nat -> seq<Response>, fates: seq<Fate>,
                       log: seq<Exchange>, e: Exchange)
    requires |log| < |fates| && Answered(answers, garbled, fates, log)
    requires e.ok ==> e.handled == ReplyTo(answers, garbled, Leftover(fates[..|log|]), Succeeded(log))
    ensures Answered(answers, garbled, fates, log + [e])
    ensures Succeeded(log + [e]) == Succeeded(log) + if e.ok then 1 else 0
  {
    var log' := log + [e];
    assert log'[..|log|] == log;
    forall k | 0 <= k < |log'| && log'[k].ok
      ensures log'[k].handled == ReplyTo(answers, garbled, Leftover(fates[..k]), Succeeded(log'[..k]))
    {
      if k < |log| { assert log'[..k] == log[..k]; }
    }
  }

  lemma EndedAppend(log: seq<Exchange>, e: Exchange)
    requires Ended(log) && (GivenUp(log) ==> !e.ok && e.handled == []) && (!e.ok && !e.closed ==> e.handled == [])
    ensures Ended(log + [e]) && (GivenUp(log + [e]) ==> GivenUp(log) || e.closed)
  {
  }

  method OneExchange(conn: SubprocessConn, f: Fate) returns (e: Exchange)
    requires conn.Valid()
    modifies conn
    ensures conn.Valid() && e.closed == !conn.open
    ensures e.ok ==>
      && old(conn.open) && conn.received == old(conn.received) + 1
      && e.handled == ReplyTo(conn.answers, conn.garbled, old(conn.residue), old(conn.received))
    ensures !e.ok && !e.closed ==> e.handled == [] && conn.received == old(conn.received)
    ensures old(conn.open) ==> conn.residue == Residue(old(conn.residue), f)
    ensures !old(conn.open) ==> !conn.open && !e.ok && e.handled == []
  {
    var handled, ok := conn.SendCommandStream(f);
    e := Exchange(handled, ok, !conn.open);
  }

  /** Between two exchanges: what the connection's state says about those made so far. */
  ghost predicate Between(answers: nat -> seq<Response>, garbled: nat -> seq<Response>, fates: seq<Fate>,
                          log: seq<Exchange>, open: bool, received: nat, residue: bool)
    requires |log| <= |fates|
  {
    && Answered(answers, garbled, fates, log) && Ended(log) && (GivenUp(log) ==> !open)
    && (open ==> received == Succeeded(log) && residue == Leftover(fates[..|log|]))
  }

  lemma NextExchange(answers: nat -> seq<Response>, garbled: nat -> seq<Response>, fates: seq<Fate>,
                     log: seq<Exchange>, open: bool, received: nat, residue: bool, e: Exchange, received': nat,
                     residue': bool)
    requires |log| < |fates| && Between(answers, garbled, fates, log, open, received, residue)
    requires e.ok ==> open && e.handled == ReplyTo(answers, garbled, residue, received) && received' == received + 1
    requires !e.ok && !e.closed ==> e.handled == [] && received' == received
    requires if open then residue' == Residue(residue, fates[|log|]) else e.closed && !e.ok && e.handled == []
    ensures Between(answers, garbled, fates, log + [e], !e.closed, received', residue')
  {
    LeftoverStep(fates, |log|);
    AnsweredAppend(answers, garbled, fates, log, e);
    EndedAppend(log, e);
  }

  /** Over any run of exchanges, each with any fate: the n-th successful exchange gets exactly
      the answer to its own command, unless the last write before it that sent anything sent
      only a part of a frame, and then the answer to that part and the command run together;
      and after an exchange that failed in reading or relaying no later one returns a frame. */
  method Session(answers: nat -> seq<Response>, garbled: nat -> seq<Response>, fates: seq<Fate>)
      returns (log: seq<Exchange>)
    requires forall k :: IsAnswer(answers(k)) && IsAnswer(garbled(k))
    ensures |log| == |fates| && Answered(answers, garbled, fates, log) && Ended(log)
  {
    var conn := new SubprocessConn(answers, garbled);
    log := [];
    for i := 0 to |fates|
      invariant conn.Valid() && fresh(conn) && conn.answers == answers && conn.garbled == garbled && |log| == i
      invariant Between(answers, garbled, fates, log, conn.open, conn.received, conn.residue)
    {
      ghost var open, received, residue := conn.open, conn.received, conn.residue;
      var e := OneExchange(conn, fates[i]);
      NextExchange(answers, garbled, fates, log, open, received, residue, e, conn.received, conn.residue);
      log := log + [e];
    }
  }
}
