/** What becomes of the connections that Connect and the reconnect loop open: which are lost,
    and when all of them are closed in the end. */
module ReconnectClosing {
  import opened Prelude
  import opened Reconnect

  // ------------------------------------------------------------ who has which connection

  /** The connection a thread has dialled and not yet published or dropped, or is to close. */
  function Held(th: Thread): Option<nat> {
    match th.pc
    case Loop(l) =>
      (match l
       case LockPublish(k) => Some(k)
       case CheckLive(k) => Some(k)
       case Publish(k) => Some(k)
       case DropConn(k) => Some(k)
       case _ => None)
    case Connect(n) =>
      (match n
       case CheckVersion(k) => Some(k)
       case PublishFirst(k) => Some(k)
       case CloseReplaced(replaced) => replaced
       case _ => None)
    case _ => None
  }

  /** What it holds it has dialled itself. */
  predicate Dialled(th: Thread) { Held(th).Some? && !(th.pc.Connect? && th.pc.n.CloseReplaced?) }

  predicate Publishing(th: Thread) { th.pc.Loop? && th.pc.l.Publish? }

  predicate PublishingFirst(th: Thread) { th.pc.Connect? && th.pc.n.PublishFirst? }

  /** Every connection is in at most one place, and a dialled one is open. */
  predicate Good(s: State) {
    && (s.g.current.Some? ==> s.g.current.value < |s.g.conns|)
    && (forall i :: 0 <= i < |s.threads| && Held(s.threads[i]).Some? ==>
          Held(s.threads[i]).value < |s.g.conns| && Held(s.threads[i]) != s.g.current)
    && (forall i, j :: 0 <= i < |s.threads| && 0 <= j < |s.threads| && i != j && Held(s.threads[i]).Some? ==>
          Held(s.threads[i]) != Held(s.threads[j]))
    && (forall i :: 0 <= i < |s.threads| && Dialled(s.threads[i]) && Held(s.threads[i]).value < |s.g.conns| ==>
          !s.g.conns[Held(s.threads[i]).value])
  }

  /** A Close that won has set the flag; once one is through its critical section no loop is
      about to publish. */
  predicate Sealed(s: State) {
    && (forall i :: 0 <= i < |s.threads| && s.threads[i].pc.Close? && s.threads[i].pc.p != Swap ==> s.g.shutdown)
    && (forall i, j :: 0 <= i < |s.threads| && 0 <= j < |s.threads| && s.threads[i].pc == Close(Returned) ==>
          !Publishing(s.threads[j]))
  }

  predicate Inv(c: Config, s: State) { Basic(c, s) && Good(s) && Sealed(s) }

  // ------------------------------------------------------------ what a step does to connections

  predicate Idle(g: Shared, th: Thread, e: Effect) {
    && e.g.conns == g.conns && e.g.current == g.current && Held(e.th) == Held(th)
    && (Dialled(e.th) ==> Dialled(th)) && !Publishing(th) && !PublishingFirst(th)
  }

  /** CloseOld and CloseConn close the published connection; only the first withdraws it. */
  predicate Withdraws(th: Thread) { th.pc == Loop(CloseOld) || th.pc == Close(CloseConn) }

  predicate Closes(g: Shared, th: Thread, e: Effect) {
    && Withdraws(th) && e.g.conns == CloseCurrent(g) && Held(e.th) == None
    && e.g.current == if th.pc.Loop? then None else g.current
  }

  predicate Opens(g: Shared, th: Thread, e: Effect) {
    && Held(th) == None && !Withdraws(th)
    && e.g.conns == g.conns + [false] && e.g.current == g.current && Held(e.th) == Some(|g.conns|)
  }

  /** The loop publishes what it has dialled over whatever is published. */
  predicate Overwrites(g: Shared, th: Thread, e: Effect) {
    Publishing(th) && e.g.conns == g.conns && e.g.current == Held(th) && Held(e.th) == None
  }

  /** Connect publishes what it has dialled, and keeps the replaced one to close it. */
  predicate Replaces(g: Shared, th: Thread, e: Effect) {
    && PublishingFirst(th) && e.g.conns == g.conns && e.g.current == Held(th)
    && Held(e.th) == g.current && !Dialled(e.th)
  }

  predicate Drops(g: Shared, th: Thread, e: Effect) {
    && Held(th).Some? && !Publishing(th) && !PublishingFirst(th)
    && e.g.conns == CloseNth(g.conns, Held(th).value) && e.g.current == g.current && Held(e.th) == None
  }

  predicate Hands(g: Shared, th: Thread, e: Effect) {
    && (|| Idle(g, th, e) || Closes(g, th, e) || Opens(g, th, e) || Overwrites(g, th, e) || Replaces(g, th, e)
        || Drops(g, th, e))
    && (e.spawn.Some? ==> e.spawn.value.pc == Loop(Top))
    && (Withdraws(th) ==> Closes(g, th, e))
    && (e.th.pc == Close(Returned) ==> th.pc == Close(Returned) || th.pc == Close(CloseConn))
    && (th.pc == Close(CloseConn) || th.pc == Close(Returned) ==> e.th.pc == Close(Returned))
  }

  lemma EffectHands(c: Config, g: Shared, th: Thread, choice: bool)
    ensures Hands(g, th, EffectOf(c, g, th, choice))
  {
    match th.pc
    case Report(r) =>
    case Loop(l) => LoopHands(c, g, th, l, choice);
    case Close(p) => CloseHands(g, th, p);
    case Connect(n) => ConnectHands(g, th, n, choice);
    case Gone =>
  }

  lemma ConnectHands(g: Shared, th: Thread, n: ConnectPc, choice: bool)
    requires th.pc == Connect(n)
    ensures Hands(g, th, ConnectEffect(g, th, n, choice))
  {
  }

  lemma CloseHands(g: Shared, th: Thread, p: ClosePc)
    requires th.pc == Close(p)
    ensures Hands(g, th, CloseEffect(g, th, p))
  {
  }

  lemma LoopHands(c: Config, g: Shared, th: Thread, l: LoopPc, choice: bool)
    requires th.pc == Loop(l)
    ensures Hands(g, th, LoopEffect(c, g, th, l, choice))
  {
  }

  /** The threads after a step: those that did not move are the same, and a new one holds nothing. */
  lemma Others(s: State, i: nat, e: Effect)
    requires i < |s.threads| && Hands(s.g, s.threads[i], e)
    ensures
      var ts := Perform(s, i, e).threads;
      && |s.threads| <= |ts| && ts[i] == e.th
      && (forall j :: 0 <= j < |s.threads| && j != i ==> ts[j] == s.threads[j])
      && (forall j :: |s.threads| <= j < |ts| ==> ts[j].pc == Loop(Top))
  {
  }

  // ------------------------------------------------------------ the invariant

  lemma MoveGood(s: State, i: nat, e: Effect)
    requires i < |s.threads| && Good(s) && Hands(s.g, s.threads[i], e)
    ensures Good(Perform(s, i, e))
  {
    Others(s, i, e);
    MoveApart(s, i, e);
    MoveFresh(s, i, e);
  }

  lemma MoveApart(s: State, i: nat, e: Effect)
    requires i < |s.threads| && Good(s) && Hands(s.g, s.threads[i], e)
    ensures
      var ts := Perform(s, i, e).threads;
      forall j, k :: 0 <= j < |ts| && 0 <= k < |ts| && j != k && Held(ts[j]).Some? ==> Held(ts[j]) != Held(ts[k])
  {
    Others(s, i, e);
  }

  lemma MoveFresh(s: State, i: nat, e: Effect)
    requires i < |s.threads| && Good(s) && Hands(s.g, s.threads[i], e)
    ensures
      var s' := Perform(s, i, e);
      forall j :: 0 <= j < |s'.threads| && Dialled(s'.threads[j]) && Held(s'.threads[j]).value < |s'.g.conns| ==>
        !s'.g.conns[Held(s'.threads[j]).value]
  {
    Others(s, i, e);
  }

  /** What a step does to the closing protocol. */
  predicate Ends(g: Shared, th: Thread, e: Effect) {
    && (g.shutdown ==> e.g.shutdown)
    && (e.th.pc.Close? && e.th.pc.p != Swap ==> e.g.shutdown)
    && (Publishing(e.th) ==> !g.shutdown && Locked(th))
  }

  lemma EffectEnds(c: Config, g: Shared, th: Thread, choice: bool)
    requires th.pc.Close? && th.pc.p != Swap ==> g.shutdown
    ensures Ends(g, th, EffectOf(c, g, th, choice))
  {
    match th.pc
    case Report(r) =>
    case Loop(l) => LoopEnds(c, g, th, l, choice);
    case Close(p) =>
    case Connect(n) =>
    case Gone =>
  }

  lemma LoopEnds(c: Config, g: Shared, th: Thread, l: LoopPc, choice: bool)
    requires th.pc == Loop(l)
    ensures Ends(g, th, LoopEffect(c, g, th, l, choice))
  {
  }

  lemma MoveSealed(s: State, i: nat, e: Effect)
    requires i < |s.threads| && Flags(s) && Sealed(s) && Hands(s.g, s.threads[i], e) && Ends(s.g, s.threads[i], e)
    ensures Sealed(Perform(s, i, e))
  {
    var s' := Perform(s, i, e);
    Others(s, i, e);
    forall j, k | 0 <= j < |s'.threads| && 0 <= k < |s'.threads| && s'.threads[j].pc == Close(Returned)
      ensures !Publishing(s'.threads[k])
    {
      if k < |s.threads| && k != i { OnlyOne(s, i, k); }
    }
  }

  /** Every step keeps the invariant, whatever Connect does meanwhile. */
  lemma StepInv(c: Config, s: State, e: Step)
    requires Inv(c, s) && Enabled(s, e)
    ensures Inv(c, Apply(c, s, e))
  {
    StepBasic(c, s, e);
    if e.Move? {
      var th := s.threads[e.thread];
      EffectHands(c, s.g, th, e.choice);
      EffectEnds(c, s.g, th, e.choice);
      MoveGood(s, e.thread, EffectOf(c, s.g, th, e.choice));
      MoveSealed(s, e.thread, EffectOf(c, s.g, th, e.choice));
    } else {
      CallGood(s, Called(e));
      CallSealed(s, Called(e));
    }
  }

  /** The thread that a call starts. */
  function Called(e: Step): Thread
    requires !e.Move?
  {
    match e
    case CallConnect => Thread(Connect(CheckShutdown), 0, 0)
    case ReportError => Thread(Report(CheckFlags), 0, 0)
    case CallClose => Thread(Close(Swap), 0, 0)
  }

  lemma CallGood(s: State, th: Thread)
    requires Good(s) && Calls(th)
    ensures Good(s.(threads := s.threads + [th]))
  {
  }

  lemma CallSealed(s: State, th: Thread)
    requires Sealed(s) && Calls(th)
    ensures Sealed(s.(threads := s.threads + [th]))
  {
  }

  lemma InitInv(c: Config, s: State)
    requires Init(s)
    ensures Inv(c, s)
  {
  }

  lemma {:induction false} ExecInv(c: Config, s: State, run: seq<Step>)
    requires Inv(c, s) && Legal(c, s, run)
    ensures Inv(c, Exec(c, s, run))
    decreases |run|
  {
    if run == [] {
    } else {
      StepInv(c, s, run[0]);
      ExecInv(c, Apply(c, s, run[0]), run[1..]);
    }
  }

  // ------------------------------------------------------------ lost connections

  ghost predicate Accounted(s: State, k: nat) {
    s.g.current == Some(k) || exists i :: 0 <= i < |s.threads| && Held(s.threads[i]) == Some(k)
  }

  /** Open, but neither published nor in anyone's hands. */
  ghost predicate Lost(s: State, k: nat) {
    k < |s.g.conns| && !s.g.conns[k] && !Accounted(s, k)
  }

  ghost predicate Loses(s: State) { exists k :: Lost(s, k) }

  /** The published connection is open. */
  predicate Open(s: State) {
    s.g.current.Some? && s.g.current.value < |s.g.conns| && !s.g.conns[s.g.current.value]
  }

  /** A loop publishes over a published connection that is still open: it closed the old one
      before it dialled, and does not look again. */
  predicate Overwriting(s: State, e: Step) {
    e.Move? && e.thread < |s.threads| && Publishing(s.threads[e.thread]) && Open(s)
  }

  lemma LostMove(s: State, i: nat, e: Effect, k: nat)
    requires Lost(s, k) && i < |s.threads| && Hands(s.g, s.threads[i], e)
    ensures Lost(Perform(s, i, e), k)
  {
    Others(s, i, e);
    assert Held(s.threads[i]) != Some(k);
  }

  lemma OverwrittenLost(s: State, i: nat, e: Effect)
    requires i < |s.threads| && Good(s) && Hands(s.g, s.threads[i], e) && Publishing(s.threads[i]) && Open(s)
    ensures Lost(Perform(s, i, e), s.g.current.value)
  {
    Others(s, i, e);
  }

  /** Who accounted for an open connection still does, unless a loop overwrites it. */
  lemma StillAccounted(s: State, i: nat, e: Effect, k: nat)
    requires i < |s.threads| && Good(s) && Hands(s.g, s.threads[i], e) && !(Publishing(s.threads[i]) && Open(s))
    requires k < |s.g.conns| && Accounted(s, k) && k < |e.g.conns| && !e.g.conns[k]
    ensures Accounted(Perform(s, i, e), k)
  {
    var s' := Perform(s, i, e);
    Others(s, i, e);
    if s.g.current == Some(k) {
      assert s'.g.current == Some(k) || Held(s'.threads[i]) == Some(k);
    } else {
      var j :| 0 <= j < |s.threads| && Held(s.threads[j]) == Some(k);
      if j == i {
        assert s'.g.current == Some(k) || Held(s'.threads[i]) == Some(k);
      } else {
        assert s'.threads[j] == s.threads[j];
      }
    }
  }

  lemma LostBefore(s: State, i: nat, e: Effect, k: nat)
    requires i < |s.threads| && Good(s) && Hands(s.g, s.threads[i], e) && Lost(Perform(s, i, e), k)
    ensures Lost(s, k) || (Publishing(s.threads[i]) && Open(s))
  {
    Others(s, i, e);
    assert Held(Perform(s, i, e).threads[i]) != Some(k);
    if Accounted(s, k) && !(Publishing(s.threads[i]) && Open(s)) { StillAccounted(s, i, e, k); }
  }

  lemma CallLost(s: State, th: Thread, k: nat)
    requires Calls(th)
    ensures Lost(s.(threads := s.threads + [th]), k) <==> Lost(s, k)
  {
    var s' := s.(threads := s.threads + [th]);
    assert forall i :: 0 <= i < |s.threads| ==> s'.threads[i] == s.threads[i];
  }

  /** The one step that loses a connection. */
  lemma LossStep(c: Config, s: State, e: Step)
    requires Inv(c, s) && Enabled(s, e)
    ensures Loses(Apply(c, s, e)) <==> Loses(s) || Overwriting(s, e)
  {
    var s' := Apply(c, s, e);
    if e.Move? {
      var effect := EffectOf(c, s.g, s.threads[e.thread], e.choice);
      EffectHands(c, s.g, s.threads[e.thread], e.choice);
      if k :| Lost(s, k) { LostMove(s, e.thread, effect, k); }
      if Overwriting(s, e) { OverwrittenLost(s, e.thread, effect); }
      if k :| Lost(s', k) { LostBefore(s, e.thread, effect, k); }
    } else {
      if k :| Lost(s, k) { CallLost(s, Called(e), k); }
      if k :| Lost(s', k) { CallLost(s, Called(e), k); }
    }
  }

  lemma LostStep(c: Config, s: State, e: Step, k: nat)
    requires Lost(s, k) && Enabled(s, e)
    ensures Lost(Apply(c, s, e), k)
  {
    if e.Move? {
      EffectHands(c, s.g, s.threads[e.thread], e.choice);
      LostMove(s, e.thread, EffectOf(c, s.g, s.threads[e.thread], e.choice), k);
    } else {
      CallLost(s, Called(e), k);
    }
  }

  /** A lost connection is never closed, whatever happens afterwards. */
  lemma {:induction false} LostForever(c: Config, s: State, run: seq<Step>, k: nat)
    requires Lost(s, k) && Legal(c, s, run)
    ensures Lost(Exec(c, s, run), k)
    decreases |run|
  {
    if run == [] {
    } else {
      LostStep(c, s, run[0], k);
      LostForever(c, Apply(c, s, run[0]), run[1..], k);
    }
  }

  ghost predicate NeverOverwrites(c: Config, s: State, run: seq<Step>)
    requires Legal(c, s, run)
    decreases |run|
  {
    run != [] ==> !Overwriting(s, run[0]) && NeverOverwrites(c, Apply(c, s, run[0]), run[1..])
  }

  /** Over a whole run: a connection has been lost exactly when a loop published over an open
      one. */
  lemma {:induction false} LossExact(c: Config, s: State, run: seq<Step>)
    requires Inv(c, s) && Legal(c, s, run)
    ensures Loses(Exec(c, s, run)) <==> Loses(s) || !NeverOverwrites(c, s, run)
    decreases |run|
  {
    if run == [] {
    } else {
      LossStep(c, s, run[0]);
      StepInv(c, s, run[0]);
      LossExact(c, Apply(c, s, run[0]), run[1..]);
    }
  }

  // ------------------------------------------------------------ what stays published

  /** A Close has returned. */
  ghost predicate Shut(s: State) { exists i :: 0 <= i < |s.threads| && s.threads[i].pc == Close(Returned) }

  predicate Withdrawing(s: State, e: Step) { e.Move? && e.thread < |s.threads| && Withdraws(s.threads[e.thread]) }

  /** Connect publishes after a Close has returned. */
  ghost predicate PublishesLate(s: State, e: Step) {
    e.Move? && e.thread < |s.threads| && PublishingFirst(s.threads[e.thread]) && Shut(s)
  }

  lemma OpenMove(s: State, i: nat, e: Effect)
    requires i < |s.threads| && Good(s) && Hands(s.g, s.threads[i], e)
    ensures
      var th := s.threads[i];
      Open(Perform(s, i, e)) <==> Publishing(th) || PublishingFirst(th) || (Open(s) && !Withdraws(th))
  {
  }

  lemma ShutMove(s: State, i: nat, e: Effect)
    requires i < |s.threads| && Hands(s.g, s.threads[i], e)
    ensures Shut(Perform(s, i, e)) <==> Shut(s) || s.threads[i].pc == Close(CloseConn)
  {
    var s' := Perform(s, i, e);
    Others(s, i, e);
    if j :| 0 <= j < |s.threads| && s.threads[j].pc == Close(Returned) { assert s'.threads[j].pc == Close(Returned); }
    if s.threads[i].pc == Close(CloseConn) { assert s'.threads[i].pc == Close(Returned); }
    if j :| 0 <= j < |s'.threads| && s'.threads[j].pc == Close(Returned) { assert j < |s.threads|; }
  }

  /** After a Close, an open connection is published exactly if Connect has just published it,
      or it was and is not withdrawn. */
  lemma LateStep(c: Config, s: State, e: Step)
    requires Inv(c, s) && Enabled(s, e)
    ensures
      var s' := Apply(c, s, e);
      Shut(s') && Open(s') <==> PublishesLate(s, e) || (Shut(s) && Open(s) && !Withdrawing(s, e))
  {
    var s' := Apply(c, s, e);
    if e.Move? {
      var effect := EffectOf(c, s.g, s.threads[e.thread], e.choice);
      EffectHands(c, s.g, s.threads[e.thread], e.choice);
      OpenMove(s, e.thread, effect);
      ShutMove(s, e.thread, effect);
    } else {
      CallShut(s, Called(e));
    }
  }

  lemma CallShut(s: State, th: Thread)
    requires Calls(th)
    ensures Shut(s.(threads := s.threads + [th])) <==> Shut(s)
  {
    var s' := s.(threads := s.threads + [th]);
    if j :| 0 <= j < |s.threads| && s.threads[j].pc == Close(Returned) { assert s'.threads[j] == s.threads[j]; }
  }

  ghost predicate NeverWithdraws(c: Config, s: State, run: seq<Step>)
    requires Legal(c, s, run)
    decreases |run|
  {
    run != [] ==> !Withdrawing(s, run[0]) && NeverWithdraws(c, Apply(c, s, run[0]), run[1..])
  }

  /** A Connect publishes after a Close has returned, and nothing is withdrawn from then on. */
  ghost predicate LeavesOpen(c: Config, s: State, run: seq<Step>)
    requires Legal(c, s, run)
    decreases |run|
  {
    run != [] &&
    var s' := Apply(c, s, run[0]);
    (PublishesLate(s, run[0]) && NeverWithdraws(c, s', run[1..])) || LeavesOpen(c, s', run[1..])
  }

  lemma {:induction false} OpenExact(c: Config, s: State, run: seq<Step>)
    requires Inv(c, s) && Legal(c, s, run) && Shut(Exec(c, s, run))
    ensures Open(Exec(c, s, run)) <==> LeavesOpen(c, s, run) || (Shut(s) && Open(s) && NeverWithdraws(c, s, run))
    decreases |run|
  {
    if run == [] {
    } else {
      LateStep(c, s, run[0]);
      StepInv(c, s, run[0]);
      OpenExact(c, Apply(c, s, run[0]), run[1..]);
    }
  }

  // ------------------------------------------------------------ everything closed

  predicate AllClosed(s: State) { forall k :: 0 <= k < |s.g.conns| ==> s.g.conns[k] }

  /** A Close has returned, and no loop and no Connect is left. */
  ghost predicate Over(s: State) {
    Shut(s) && forall i :: 0 <= i < |s.threads| ==> !s.threads[i].pc.Loop? && !s.threads[i].pc.Connect?
  }

  lemma OverClosed(s: State)
    requires Over(s)
    ensures AllClosed(s) <==> !Loses(s) && !Open(s)
  {
    if k :| 0 <= k < |s.g.conns| && !s.g.conns[k] {
      if s.g.current != Some(k) { assert Lost(s, k); }
    }
  }

  /** For every run: when it is over, every connection ever opened has been closed if and only
      if no loop published over an open connection, and no Connect published after the Close
      without a loop withdrawing that again. */
  lemma ClosedExactly(c: Config, s0: State, run: seq<Step>)
    requires Init(s0) && Legal(c, s0, run) && Over(Exec(c, s0, run))
    ensures AllClosed(Exec(c, s0, run)) <==> NeverOverwrites(c, s0, run) && !LeavesOpen(c, s0, run)
  {
    InitInv(c, s0);
    LossExact(c, s0, run);
    OpenExact(c, s0, run);
    OverClosed(Exec(c, s0, run));
  }

  // ------------------------------------------------------------ a condition on Connect alone

  /** Between closing the old connection and publishing the new one. */
  predicate Unpublished(th: Thread) {
    th.pc.Loop? && (th.pc.l == Dial || th.pc.l.LockPublish? || th.pc.l.CheckLive? || th.pc.l.Publish?)
  }

  /** Connect publishes while a reconnect loop is between closing the old connection and
      publishing its own, or after a Close has returned. */
  ghost predicate Intrudes(s: State, e: Step) {
    && e.Move? && e.thread < |s.threads| && PublishingFirst(s.threads[e.thread])
    && (Shut(s) || exists j :: 0 <= j < |s.threads| && Unpublished(s.threads[j]))
  }

  ghost predicate NoIntrusion(c: Config, s: State, run: seq<Step>)
    requires Legal(c, s, run)
    decreases |run|
  {
    run != [] ==> !Intrudes(s, run[0]) && NoIntrusion(c, Apply(c, s, run[0]), run[1..])
  }

  /** Nothing is published meanwhile. */
  predicate Vacant(s: State) {
    forall i :: 0 <= i < |s.threads| && Unpublished(s.threads[i]) ==> s.g.current == None
  }

  lemma EffectVacant(c: Config, g: Shared, th: Thread, choice: bool)
    ensures
      var e := EffectOf(c, g, th, choice);
      && (Unpublished(e.th) ==> Unpublished(th) || th.pc == Loop(CloseOld))
      && (Unpublished(e.th) && Unpublished(th) ==> e.g.current == g.current)
  {
    match th.pc
    case Loop(l) => LoopVacant(c, g, th, l, choice);
    case _ =>
  }

  lemma LoopVacant(c: Config, g: Shared, th: Thread, l: LoopPc, choice: bool)
    requires th.pc == Loop(l)
    ensures
      var e := LoopEffect(c, g, th, l, choice);
      && (Unpublished(e.th) ==> Unpublished(th) || l == CloseOld)
      && (Unpublished(e.th) && Unpublished(th) ==> e.g.current == g.current)
  {
  }

  lemma VacantStep(c: Config, s: State, e: Step)
    requires Inv(c, s) && Vacant(s) && Enabled(s, e) && !Intrudes(s, e)
    ensures Vacant(Apply(c, s, e))
  {
    if e.Move? {
      var th := s.threads[e.thread];
      EffectHands(c, s.g, th, e.choice);
      EffectVacant(c, s.g, th, e.choice);
      VacantMove(s, e.thread, EffectOf(c, s.g, th, e.choice));
    }
  }

  lemma VacantMove(s: State, i: nat, e: Effect)
    requires i < |s.threads| && Flags(s) && Vacant(s) && Hands(s.g, s.threads[i], e)
    requires Unpublished(e.th) ==> Unpublished(s.threads[i]) || s.threads[i].pc == Loop(CloseOld)
    requires Unpublished(e.th) && Unpublished(s.threads[i]) ==> e.g.current == s.g.current
    requires PublishingFirst(s.threads[i]) ==> forall j :: 0 <= j < |s.threads| ==> !Unpublished(s.threads[j])
    ensures Vacant(Perform(s, i, e))
  {
    var s' := Perform(s, i, e);
    Others(s, i, e);
    forall j | 0 <= j < |s'.threads| && Unpublished(s'.threads[j]) ensures s'.g.current == None {
      if j < |s.threads| && j != i { OnlyOne(s, i, j); }
    }
  }

  lemma {:induction false} QuietRun(c: Config, s: State, run: seq<Step>)
    requires Inv(c, s) && Vacant(s) && Legal(c, s, run) && NoIntrusion(c, s, run)
    ensures NeverOverwrites(c, s, run) && !LeavesOpen(c, s, run)
    decreases |run|
  {
    if run == [] {
    } else {
      VacantStep(c, s, run[0]);
      StepInv(c, s, run[0]);
      QuietRun(c, Apply(c, s, run[0]), run[1..]);
    }
  }

  /** In particular everything is closed as long as no Connect intruded. */
  lemma EverythingClosed(c: Config, s0: State, run: seq<Step>)
    requires Init(s0) && Legal(c, s0, run) && NoIntrusion(c, s0, run) && Over(Exec(c, s0, run))
    ensures AllClosed(Exec(c, s0, run))
  {
    InitInv(c, s0);
    QuietRun(c, s0, run);
    ClosedExactly(c, s0, run);
  }
}
