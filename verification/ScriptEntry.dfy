/** The history a script keeps: its newest output lines, and its newest state transitions. */
module ScriptEntry {
  import opened RingBuffer

  const MAX_OUTPUT_LINES := 2000
  const MAX_STATE_TRANSITIONS := 100
  const RESTART_MARKER := "--- restart ---"

  datatype State = Idle | Starting | Running | Failed | Stopped | Restarting

  /** len lines from head onwards, going round, are the newest ones. */
  predicate Held(ring: seq<string>, head: nat, len: nat, lines: seq<string>) {
    var kept := Kept(lines, |ring|);
    && head < |ring| && len == |kept| && (len < |ring| ==> head == 0)
    && (ring[head..] + ring[..head])[..len] == kept
  }

  lemma HeldAppend(ring: seq<string>, head: nat, len: nat, lines: seq<string>, line: string)
    requires Held(ring, head, len, lines)
    ensures len < |ring| ==> Held(ring[len := line], head, len + 1, lines + [line])
    ensures len == |ring| ==> Held(ring[head := line], if head + 1 < |ring| then head + 1 else 0, len, lines + [line])
  {
    if len < |ring| { HeldMore(ring, len, lines, line); } else { HeldNewest(ring, head, lines, line); }
  }

  lemma HeldMore(ring: seq<string>, len: nat, lines: seq<string>, line: string)
    requires Held(ring, 0, len, lines) && len < |ring|
    ensures Held(ring[len := line], 0, len + 1, lines + [line])
  {
    var r := ring[len := line];
    assert ring[0..] + ring[..0] == ring && r[0..] + r[..0] == r;
    assert ring[..len] == lines;
    assert r[..len + 1] == ring[..len] + [line];
  }

  /** All slots are in use: the line goes over the oldest one. */
  lemma HeldNewest(ring: seq<string>, head: nat, lines: seq<string>, line: string)
    requires Held(ring, head, |ring|, lines)
    ensures Held(ring[head := line], if head + 1 < |ring| then head + 1 else 0, |ring|, lines + [line])
  {
    var r, old_, new_ := ring[head := line], ring[..head], ring[head + 1..];
    var kept := Kept(lines, |ring|);
    assert kept == ring[head..] + old_ by { assert (ring[head..] + old_)[..|ring|] == ring[head..] + old_; }
    assert ring[head..] == [ring[head]] + new_;
    assert kept[1..] == new_ + old_;
    NewestKept(lines, line, |ring|);
    assert r[head + 1..] == new_ && r[..head + 1] == old_ + [line];
    assert (new_ + (old_ + [line]))[..|ring|] == new_ + old_ + [line];
    if head + 1 == |ring| { assert r[0..] + r[..0] == r == old_ + [line]; }
  }

  lemma NewestKept(lines: seq<string>, line: string, cap: nat)
    requires |lines| >= cap > 0
    ensures Kept(lines + [line], cap) == Kept(lines, cap)[1..] + [line]
  {
  }

  lemma HeldAt(ring: seq<string>, head: nat, len: nat, lines: seq<string>, i: nat)
    requires |ring| == MAX_OUTPUT_LINES && Held(ring, head, len, lines) && i < len
    ensures ring[(head + i) % MAX_OUTPUT_LINES] == Kept(lines, |ring|)[i]
  {
    var rot := ring[head..] + ring[..head];
    assert rot[..len][i] == rot[i];
  }

  /** One half of a transition: the atomic store (or a swap that succeeds), and the recording. */
  datatype Act = Stores(state: State) | Records(state: State)

  function Stored(acts: seq<Act>): seq<State> {
    if acts == [] then []
    else
      var a := acts[|acts| - 1];
      Stored(acts[..|acts| - 1]) + if a.Stores? then [a.state] else []
  }

  function Recorded(acts: seq<Act>): seq<State> {
    if acts == [] then []
    else
      var a := acts[|acts| - 1];
      Recorded(acts[..|acts| - 1]) + if a.Records? then [a.state] else []
  }

  lemma HalfMore(acts: seq<Act>, i: nat)
    requires i < |acts|
    ensures Stored(acts[..i + 1]) == Stored(acts[..i]) + if acts[i].Stores? then [acts[i].state] else []
    ensures Recorded(acts[..i + 1]) == Recorded(acts[..i]) + if acts[i].Records? then [acts[i].state] else []
  {
    assert acts[..i + 1][..i] == acts[..i];
  }

  class Entry {
    var state: State
    const outputLines: array<string>
    var outputHead: nat
    var outputLen: nat
    var stateHistory: seq<State>
    /** Every line ever appended, every state ever stored, and every state ever recorded. */
    ghost var lines: seq<string>
    ghost var stored: seq<State>
    ghost var recorded: seq<State>

    constructor ()
      ensures Valid() && fresh(outputLines) && lines == [] && stored == recorded == [Idle]
    {
      state := Idle;
      outputLines := new string[MAX_OUTPUT_LINES](_ => "");
      outputHead, outputLen := 0, 0;
      stateHistory := [Idle];
      lines, stored, recorded := [], [Idle], [Idle];
    }

    ghost predicate Valid()
      reads this, outputLines
    {
      && outputLines.Length == MAX_OUTPUT_LINES
      && Held(outputLines[..], outputHead, outputLen, lines)
      && ValidStates()
    }

    ghost predicate ValidStates()
      reads this
    {
      && stored != [] && state == stored[|stored| - 1]
      && stateHistory == Kept(recorded, 100)
    }

    method AppendOutput(line: string)
      requires Valid()
      modifies this`outputHead, this`outputLen, this`lines, outputLines
      ensures Valid() && lines == old(lines) + [line]
    {
      HeldAppend(outputLines[..], outputHead, outputLen, lines, line);
      Put(line);
    }

    /** The line goes into the next slot, over the oldest one once all are in use. */
    method Put(line: string)
      requires outputLines.Length == MAX_OUTPUT_LINES && outputHead < MAX_OUTPUT_LINES
      requires if outputLen < MAX_OUTPUT_LINES then outputHead == 0 else outputLen == MAX_OUTPUT_LINES
      modifies this`outputHead, this`outputLen, this`lines, outputLines
      ensures lines == old(lines) + [line]
      ensures old(outputLen) < MAX_OUTPUT_LINES ==>
        && outputLines[..] == old(outputLines[..])[old(outputLen) := line]
        && outputLen == old(outputLen) + 1 && outputHead == old(outputHead)
      ensures old(outputLen) == MAX_OUTPUT_LINES ==>
        && outputLines[..] == old(outputLines[..])[old(outputHead) := line] && outputLen == old(outputLen)
        && outputHead == if old(outputHead) + 1 < MAX_OUTPUT_LINES then old(outputHead) + 1 else 0
    {
      var idx := (outputHead + outputLen) % MAX_OUTPUT_LINES;
      outputLines[idx] := line;
      if outputLen < MAX_OUTPUT_LINES {
        outputLen := outputLen + 1;
      } else {
        outputHead := (outputHead + 1) % MAX_OUTPUT_LINES;
      }
      lines := lines + [line];
    }

    method AddRestartMarker()
      requires Valid()
      modifies this`outputHead, this`outputLen, this`lines, outputLines
      ensures Valid() && lines == old(lines) + [RESTART_MARKER]
    {
      AppendOutput(RESTART_MARKER);
    }

    /** A copy of the output history, oldest line first. */
    method OutputLines() returns (result: seq<string>)
      requires Valid()
      ensures result == Kept(lines, 2000)
    {
      result := [];
      for i := 0 to outputLen
        invariant result == Kept(lines, MAX_OUTPUT_LINES)[..i]
      {
        HeldAt(outputLines[..], outputHead, outputLen, lines, i);
        result := result + [outputLines[(outputHead + i) % MAX_OUTPUT_LINES]];
      }
    }

    /** The history is extended, and cut from the front when it grows too long. */
    method Record(new_: State)
      requires stateHistory == Kept(recorded, MAX_STATE_TRANSITIONS)
      modifies this`stateHistory, this`recorded
      ensures recorded == old(recorded) + [new_] && stateHistory == Kept(recorded, MAX_STATE_TRANSITIONS)
    {
      KeptAppend(recorded, [new_], MAX_STATE_TRANSITIONS);
      stateHistory := stateHistory + [new_];
      if |stateHistory| > MAX_STATE_TRANSITIONS {
        stateHistory := stateHistory[|stateHistory| - MAX_STATE_TRANSITIONS..];
      }
      recorded := recorded + [new_];
    }

    method Half(a: Act)
      requires ValidStates()
      modifies this`state, this`stateHistory, this`stored, this`recorded
      ensures ValidStates()
      ensures stored == old(stored) + (if a.Stores? then [a.state] else [])
      ensures recorded == old(recorded) + (if a.Records? then [a.state] else [])
    {
      match a
      case Stores(s) =>
        state := s;
        stored := stored + [s];
      case Records(s) => Record(s);
    }

    /** The halves of other callers' transitions, in the order in which they happen. */
    method Meanwhile(acts: seq<Act>)
      requires ValidStates()
      modifies this`state, this`stateHistory, this`stored, this`recorded
      ensures ValidStates()
      ensures stored == old(stored) + Stored(acts) && recorded == old(recorded) + Recorded(acts)
    {
      for i := 0 to |acts|
        invariant ValidStates()
        invariant stored == old(stored) + Stored(acts[..i]) && recorded == old(recorded) + Recorded(acts[..i])
      {
        HalfMore(acts, i);
        Half(acts[i]);
      }
      assert acts[..|acts|] == acts;
    }

    /** The state is stored first and recorded later, under the lock; acts happens in between. */
    method SetState(new_: State, acts: seq<Act>)
      requires Valid()
      modifies this`state, this`stateHistory, this`stored, this`recorded
      ensures Valid()
      ensures stored == old(stored) + [new_] + Stored(acts) && recorded == old(recorded) + Recorded(acts) + [new_]
      ensures state == recorded[|recorded| - 1] <==> Stored(acts) == [] || Stored(acts)[|Stored(acts)| - 1] == new_
    {
      state := new_;
      stored := stored + [new_];
      Meanwhile(acts);
      Record(new_);
    }

    method CompareAndSwapState(old_: State, new_: State, acts: seq<Act>) returns (swapped: bool)
      requires Valid()
      modifies this`state, this`stateHistory, this`stored, this`recorded
      ensures Valid() && swapped == (old(state) == old_)
      ensures swapped ==>
        stored == old(stored) + [new_] + Stored(acts) && recorded == old(recorded) + Recorded(acts) + [new_]
      ensures swapped ==>
        (state == recorded[|recorded| - 1] <==> Stored(acts) == [] || Stored(acts)[|Stored(acts)| - 1] == new_)
      ensures !swapped ==> stored == old(stored) && recorded == old(recorded)
    {
      if state != old_ { return false; }
      state := new_;
      stored := stored + [new_];
      Meanwhile(acts);
      Record(new_);
      swapped := true;
    }
  }
}
