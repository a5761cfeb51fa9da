/** Which subprocess a command is routed to: patterns, the registry, the rebuilt table and
    the lookup. */
module Routes {
  import opened Prelude
  import opened Text
  import Commands

  // ------------------------------------------------------------ patterns

  datatype Kind = Exact | Prefix

  /** What a pattern lays claim to: one or two upper-case words, exactly or as a prefix. */
  datatype Claim = Claim(kind: Kind, words: seq<string>)

  datatype RouteError = MissingID | EmptyPattern | TooManyWords | HubVerb(verb: string) | Duplicate
    | Taken(owner: string) | AlreadyRegistered

  function TrimSuffix(s: string, c: char): string {
    if s != "" && s[|s| - 1] == c then s[..|s| - 1] else s
  }

  function Normal(raw: string): string { ToUpper(TrimSpace(raw)) }

  predicate IsPrefix(pattern: string) { HasSuffix(pattern, " *") || HasSuffix(pattern, "*") }

  /** The claim of a normalised pattern, as the validator reads it. */
  function ClaimOf(pattern: string): Claim {
    if IsPrefix(pattern) then Claim(Prefix, Fields(TrimSpace(TrimSuffix(pattern, '*'))))
    else Claim(Exact, Fields(pattern))
  }

  function Key(c: Claim): string { Join(c.words) }

  /** The claims of a subprocess: those of its non-blank patterns. */
  ghost function Claims(commands: seq<string>): set<Claim> {
    if commands == [] then {}
    else
      var p := Normal(commands[|commands| - 1]);
      Claims(commands[..|commands| - 1]) + if p == "" then {} else {ClaimOf(p)}
  }

  predicate Routable(c: Claim) { 1 <= |c.words| <= 2 && Words(c.words) }

  // ------------------------------------------------------------ words

  lemma {:induction false} FieldsTrimLeft(s: string)
    ensures Fields(TrimLeft(s)) == Fields(s)
  {
    if s == "" || !IsSpace(s[0]) {
    } else {
      FieldsTrimLeft(s[1..]);
    }
  }

  lemma {:induction false} WordAppendSpace(s: string, c: char)
    requires IsSpace(c)
    ensures Word(s + [c]) == Word(s)
  {
    if s == "" || IsSpace(s[0]) {
    } else {
      assert (s + [c])[1..] == s[1..] + [c];
      WordAppendSpace(s[1..], c);
    }
  }

  lemma {:induction false} FieldsAppendSpace(s: string, c: char)
    requires IsSpace(c)
    ensures Fields(s + [c]) == Fields(s)
    decreases |s|
  {
    var t := s + [c];
    if s == "" {
      assert t == [c] && t[1..] == "";
    } else if IsSpace(s[0]) {
      assert t[1..] == s[1..] + [c];
      FieldsAppendSpace(s[1..], c);
    } else {
      var n := |Word(s)|;
      WordAppendSpace(s, c);
      assert t[n..] == s[n..] + [c];
      FieldsAppendSpace(s[n..], c);
    }
  }

  lemma {:induction false} FieldsTrimRight(s: string)
    ensures Fields(TrimRight(s)) == Fields(s)
  {
    if s == "" || !IsSpace(s[|s| - 1]) {
    } else {
      FieldsTrimRight(s[..|s| - 1]);
      FieldsAppendSpace(s[..|s| - 1], s[|s| - 1]);
      assert s == s[..|s| - 1] + [s[|s| - 1]];
    }
  }

  lemma FieldsTrim(s: string)
    ensures Fields(TrimSpace(s)) == Fields(s)
  {
    FieldsTrimRight(TrimLeft(s));
    FieldsTrimLeft(s);
  }

  predicate Upper(s: string) { forall i :: 0 <= i < |s| ==> UpperChar(s[i]) == s[i] }

  lemma {:induction false} FieldsUpper(s: string)
    requires Upper(s)
    ensures forall i :: 0 <= i < |Fields(s)| ==> Upper(Fields(s)[i])
    decreases |s|
  {
    if s == "" {
    } else {
      if IsSpace(s[0]) {
        FieldsUpper(s[1..]);
      } else {
        FieldsUpper(s[|Word(s)|..]);
      }
    }
  }

  lemma {:induction false} UpperFixed(s: string)
    requires Upper(s)
    ensures ToUpper(s) == s
  {
  }

  /** A claim's words are upper case, so the parser registry stores them as they are. */
  lemma ClaimUpper(raw: string)
    ensures forall i :: 0 <= i < |ClaimOf(Normal(raw)).words| ==>
        ToUpper(ClaimOf(Normal(raw)).words[i]) == ClaimOf(Normal(raw)).words[i]
    ensures Words(ClaimOf(Normal(raw)).words)
  {
    var p := Normal(raw);
    var c := ClaimOf(p);
    var q := if IsPrefix(p) then TrimSuffix(p, '*') else p;
    assert Upper(p);
    FieldsTrim(q);
    FieldsUpper(q);
    forall i | 0 <= i < |c.words| ensures ToUpper(c.words[i]) == c.words[i] { UpperFixed(c.words[i]); }
  }

  /** Different claims of one kind have different keys. */
  lemma KeyInjective(c: Claim, d: Claim)
    requires Words(c.words) && Words(d.words) && c.kind == d.kind && Key(c) == Key(d)
    ensures c == d
  {
    FieldsOfJoin(c.words);
    FieldsOfJoin(d.words);
  }

  // ------------------------------------------------------------ the table

  datatype Subprocess = Subprocess(id: string, commands: seq<string>)

  datatype Table = Table(exact: map<string, string>, prefix: map<string, string>) {
    function Of(kind: Kind): map<string, string> { if kind == Exact then exact else prefix }

    function With(kind: Kind, key: string, id: string): Table {
      if kind == Exact then this.(exact := exact[key := id]) else this.(prefix := prefix[key := id])
    }

    /** Whom the table names for a claim. */
    function Finds(c: Claim): Option<string> {
      if Key(c) in Of(c.kind) then Some(Of(c.kind)[Key(c)]) else None
    }
  }

  /** The claims of each registered subprocess. */
  type Owned = map<string, set<Claim>>

  ghost predicate ClaimedBy(own: Owned, id: string, c: Claim) { id in own && c in own[id] }

  /** All claims are routable, and no two subprocesses claim the same pattern of the same
      kind. */
  ghost predicate NoConflict(own: Owned) {
    && (forall id, c :: ClaimedBy(own, id, c) ==> Routable(c))
    && (forall id, id', c :: ClaimedBy(own, id, c) && ClaimedBy(own, id', c) ==> id == id')
  }

  /** The table sends every claim to its claimant. */
  ghost predicate Covers(t: Table, own: Owned) {
    forall id, c :: ClaimedBy(own, id, c) ==> t.Finds(c) == Some(id)
  }

  /** The table holds nothing but claims of these subprocesses. */
  ghost predicate Only(t: Table, own: Owned) {
    forall kind, key :: key in t.Of(kind) ==> exists c :: ClaimFor(own, t.Of(kind)[key], c, kind, key)
  }

  ghost predicate ClaimFor(own: Owned, id: string, c: Claim, kind: Kind, key: string) {
    ClaimedBy(own, id, c) && c.kind == kind && Key(c) == key
  }

  /** Such a table is unique: it does not depend on the order in which it was built. */
  lemma TableUnique(t: Table, t': Table, own: Owned)
    requires Covers(t, own) && Only(t, own) && Covers(t', own) && Only(t', own)
    ensures t == t'
  {
    HalfUnique(t, t', own, Exact);
    HalfUnique(t, t', own, Prefix);
    HalfUnique(t', t, own, Exact);
    HalfUnique(t', t, own, Prefix);
    assert t.exact == t.Of(Exact) == t'.Of(Exact) == t'.exact;
    assert t.prefix == t.Of(Prefix) == t'.Of(Prefix) == t'.prefix;
  }

  lemma HalfUnique(t: Table, t': Table, own: Owned, kind: Kind)
    requires Only(t, own) && Covers(t', own)
    ensures forall key :: key in t.Of(kind) ==> key in t'.Of(kind) && t'.Of(kind)[key] == t.Of(kind)[key]
  {
    forall key | key in t.Of(kind) ensures key in t'.Of(kind) && t'.Of(kind)[key] == t.Of(kind)[key] {
      var c :| ClaimFor(own, t.Of(kind)[key], c, kind, key);
      assert t'.Finds(c) == Some(t.Of(kind)[key]);
    }
  }

  /** The table finds exactly the claimant. */
  lemma FindsOwner(t: Table, own: Owned, c: Claim)
    requires NoConflict(own) && Covers(t, own) && Only(t, own) && Words(c.words)
    ensures t.Finds(c).Some? ==> ClaimedBy(own, t.Finds(c).value, c)
    ensures t.Finds(c) == None ==> forall id :: !ClaimedBy(own, id, c)
  {
    if t.Finds(c).Some? {
      var id, key := t.Finds(c).value, Key(c);
      var d :| ClaimFor(own, id, d, c.kind, key);
      assert Routable(d);
      KeyInjective(d, c);
    }
  }

  // ------------------------------------------------------------ lookup

  /** The claim covers the command (sub-verb "" when it has none). */
  predicate Matches(c: Claim, verb: string, subVerb: string) {
    if c.kind == Exact then c.words == Full(verb, subVerb)
    else c.words == Full(verb, subVerb) || c.words == [verb]
  }

  function Full(verb: string, subVerb: string): seq<string> { if subVerb == "" then [verb] else [verb, subVerb] }

  /** An exact claim beats a prefix, a longer prefix beats a shorter one. */
  function Rank(c: Claim): nat { if c.kind == Exact then 3 else |c.words| }

  /** Where the router sends a command with an upper-case verb and sub-verb. */
  function Lookup(t: Table, verb: string, subVerb: string): Option<string> {
    var fullCmd := if subVerb != "" then verb + " " + subVerb else verb;
    if fullCmd in t.exact then Some(t.exact[fullCmd])
    else if fullCmd in t.prefix then Some(t.prefix[fullCmd])
    else if verb in t.prefix then Some(t.prefix[verb])
    else None
  }

  /** c is a best matching claim, and this subprocess owns it. */
  ghost predicate Best(own: Owned, id: string, c: Claim, verb: string, subVerb: string) {
    && ClaimedBy(own, id, c) && Matches(c, verb, subVerb)
    && forall id', d :: ClaimedBy(own, id', d) && Matches(d, verb, subVerb) ==> Rank(d) <= Rank(c)
  }

  ghost predicate Unclaimed(own: Owned, verb: string, subVerb: string) {
    forall id, c :: ClaimedBy(own, id, c) ==> !Matches(c, verb, subVerb)
  }

  /** The lookup asks for three claims in turn. */
  lemma LookupAsks(t: Table, verb: string, subVerb: string)
    ensures
      var full := Full(verb, subVerb);
      var e, p, v := t.Finds(Claim(Exact, full)), t.Finds(Claim(Prefix, full)), t.Finds(Claim(Prefix, [verb]));
      Lookup(t, verb, subVerb) == if e.Some? then e else if p.Some? then p else v
  {
    assert Join([verb]) == verb;
    if subVerb != "" {
      assert [verb, subVerb][1..] == [subVerb] && Join([subVerb]) == subVerb;
      assert Join([verb, subVerb]) == verb + " " + subVerb;
    }
  }

  /** The lookup finds the owner of the most specific claim on the command, and finds nobody
      exactly when no registered subprocess claims it. */
  lemma LookupMostSpecific(t: Table, own: Owned, verb: string, subVerb: string)
    requires NoConflict(own) && Covers(t, own) && Only(t, own)
    requires IsWord(verb) && (subVerb == "" || IsWord(subVerb))
    ensures
      match Lookup(t, verb, subVerb)
      case Some(id) => exists c :: Best(own, id, c, verb, subVerb)
      case None => Unclaimed(own, verb, subVerb)
    ensures forall id, c :: Best(own, id, c, verb, subVerb) ==> Lookup(t, verb, subVerb) == Some(id)
  {
    var full := Full(verb, subVerb);
    var e, p, v := Claim(Exact, full), Claim(Prefix, full), Claim(Prefix, [verb]);
    LookupAsks(t, verb, subVerb);
    FindsOwner(t, own, e);
    FindsOwner(t, own, p);
    FindsOwner(t, own, v);
    FirstIsBest(own, t.Finds(e), t.Finds(p), t.Finds(v), verb, subVerb);
  }

  /** Asking for the three possible claims in this order finds the most specific. */
  lemma FirstIsBest(own: Owned, fe: Option<string>, fp: Option<string>, fv: Option<string>,
                    verb: string, subVerb: string)
    requires NoConflict(own)
    requires
      var full := Full(verb, subVerb);
      && Answers(own, fe, Claim(Exact, full)) && Answers(own, fp, Claim(Prefix, full))
      && Answers(own, fv, Claim(Prefix, [verb]))
    ensures
      match if fe.Some? then fe else if fp.Some? then fp else fv
      case Some(id) => exists c :: Best(own, id, c, verb, subVerb)
      case None => Unclaimed(own, verb, subVerb)
    ensures forall id, c :: Best(own, id, c, verb, subVerb) ==>
        (if fe.Some? then fe else if fp.Some? then fp else fv) == Some(id)
  {
    var full := Full(verb, subVerb);
    var e, p, v := Claim(Exact, full), Claim(Prefix, full), Claim(Prefix, [verb]);
    assert forall d :: Matches(d, verb, subVerb) <==> d == e || d == p || d == v;
    if fe.Some? {
      assert Best(own, fe.value, e, verb, subVerb);
    } else if fp.Some? {
      assert Best(own, fp.value, p, verb, subVerb);
    } else if fv.Some? {
      assert Best(own, fv.value, v, verb, subVerb);
    }
  }

  ghost predicate Answers(own: Owned, f: Option<string>, c: Claim) {
    match f case Some(id) => ClaimedBy(own, id, c) case None => forall id :: !ClaimedBy(own, id, c)
  }

  // ------------------------------------------------------------ what the parser must know

  /** The parser accepts the claim's verb and, if it has one, its sub-verb. */
  predicate Known(reg: Commands.Registry, c: Claim) {
    && (|c.words| >= 1 ==> reg.IsValidVerb(c.words[0]))
    && (|c.words| >= 2 ==> reg.IsSubVerbForVerb(c.words[0], c.words[1]))
  }

  ghost predicate AllKnown(reg: Commands.Registry, own: Owned) {
    forall id, c :: ClaimedBy(own, id, c) ==> Known(reg, c)
  }

  /** RegisterVerb and RegisterSubVerbForVerb for the words of a pattern. */
  function Learn(reg: Commands.Registry, words: seq<string>): Commands.Registry {
    var r := if |words| > 0 then reg.(verbs := reg.verbs + {ToUpper(words[0])}) else reg;
    if |words| > 1 then r.(subVerbs := r.subVerbs + {(ToUpper(words[0]), ToUpper(words[1]))}) else r
  }

  lemma LearnKnows(reg: Commands.Registry, c: Claim)
    ensures Known(Learn(reg, c.words), c) && forall d :: Known(reg, d) ==> Known(Learn(reg, c.words), d)
  {
  }

  // ------------------------------------------------------------ building the table

  /** One more claim of one subprocess. */
  lemma AddClaim(own: Owned, id: string, c: Claim, t: Table)
    requires id in own && Words(c.words) && NoConflict(own[id := own[id] + {c}]) && Covers(t, own) && Only(t, own)
    ensures
      var t', own' := t.With(c.kind, Key(c), id), own[id := own[id] + {c}];
      Covers(t', own') && Only(t', own')
  {
    var t', own' := t.With(c.kind, Key(c), id), own[id := own[id] + {c}];
    forall i, d | ClaimedBy(own', i, d) ensures t'.Finds(d) == Some(i) {
      assert ClaimedBy(own', id, c);
      if d.kind == c.kind && Key(d) == Key(c) {
        KeyInjective(d, c);
      } else {
        assert ClaimedBy(own, i, d);
      }
    }
    forall kind, key | key in t'.Of(kind) ensures exists d :: ClaimFor(own', t'.Of(kind)[key], d, kind, key) {
      if kind == c.kind && key == Key(c) {
        assert ClaimFor(own', id, c, kind, key);
      } else {
        assert key in t.Of(kind) && t'.Of(kind)[key] == t.Of(kind)[key];
        var d :| ClaimFor(own, t.Of(kind)[key], d, kind, key);
        assert ClaimFor(own', t.Of(kind)[key], d, kind, key);
      }
    }
  }

  /** Fewer claims conflict no more. */
  lemma FewerClaims(own: Owned, own': Owned)
    requires NoConflict(own) && forall id, c :: ClaimedBy(own', id, c) ==> ClaimedBy(own, id, c)
    ensures NoConflict(own')
  {
  }

  lemma {:induction false} ClaimsGrow(commands: seq<string>, n: nat)
    requires n <= |commands|
    ensures Claims(commands[..n]) <= Claims(commands)
    decreases |commands| - n
  {
    if n == |commands| {
      assert commands[..n] == commands;
    } else {
      assert commands[..n + 1][..n] == commands[..n];
      ClaimsGrow(commands, n + 1);
    }
  }

  lemma ClaimsStep(commands: seq<string>, n: nat)
    requires n < |commands|
    ensures
      var p := Normal(commands[n]);
      Claims(commands[..n + 1]) == Claims(commands[..n]) + if p == "" then {} else {ClaimOf(p)}
  {
    assert commands[..n + 1][..n] == commands[..n];
  }

  lemma SomeClaims(own: Owned, sp: Subprocess, n: nat)
    requires n <= |sp.commands| && NoConflict(own[sp.id := Claims(sp.commands)])
    ensures NoConflict(own[sp.id := Claims(sp.commands[..n])])
  {
    ClaimsGrow(sp.commands, n);
    FewerClaims(own[sp.id := Claims(sp.commands)], own[sp.id := Claims(sp.commands[..n])]);
  }

  /** The inner loop of the rebuild: one subprocess's patterns. */
  method AddClaims(t: Table, reg: Commands.Registry, ghost own: Owned, sp: Subprocess)
    returns (t': Table, reg': Commands.Registry)
    requires sp.id !in own && NoConflict(own[sp.id := Claims(sp.commands)])
    requires Covers(t, own) && Only(t, own) && AllKnown(reg, own)
    ensures
      var now := own[sp.id := Claims(sp.commands)];
      Covers(t', now) && Only(t', now) && AllKnown(reg', now)
  {
    t', reg' := t, reg;
    NothingYet(own, sp.id, t, reg);
    ghost var now := own[sp.id := {}];
    for i := 0 to |sp.commands|
      invariant now == own[sp.id := Claims(sp.commands[..i])] && Served(t', reg', now)
    {
      ghost var next := NextClaims(own, sp, i);
      t', reg' := TakePattern(t', reg', now, next, sp, i);
      now := next;
    }
    assert sp.commands[..|sp.commands|] == sp.commands;
  }

  /** The claims after one more pattern. */
  lemma NextClaims(own: Owned, sp: Subprocess, n: nat) returns (next: Owned)
    requires n < |sp.commands| && NoConflict(own[sp.id := Claims(sp.commands)])
    ensures next == own[sp.id := Claims(sp.commands[..n + 1])] && NoConflict(next)
    ensures NextOwned(own[sp.id := Claims(sp.commands[..n])], next, sp.id, Normal(sp.commands[n]))
  {
    next := own[sp.id := Claims(sp.commands[..n + 1])];
    ClaimsStep(sp.commands, n);
    SomeClaims(own, sp, n + 1);
    OverwriteClaims(own, sp.id, Claims(sp.commands[..n]), Claims(sp.commands[..n + 1]), Normal(sp.commands[n]));
  }

  ghost predicate NextOwned(now: Owned, next: Owned, id: string, pattern: string) {
    id in now && next == if pattern == "" then now else now[id := now[id] + {ClaimOf(pattern)}]
  }

  lemma OverwriteClaims(own: Owned, id: string, a: set<Claim>, b: set<Claim>, pattern: string)
    requires b == a + if pattern == "" then {} else {ClaimOf(pattern)}
    ensures NextOwned(own[id := a], own[id := b], id, pattern)
  {
    if pattern == "" {
      assert a + {} == a;
    } else {
      assert own[id := a][id := b] == own[id := b];
    }
  }

  /** The table and the parser serve exactly these claims. */
  ghost predicate Served(t: Table, reg: Commands.Registry, own: Owned) {
    Covers(t, own) && Only(t, own) && AllKnown(reg, own)
  }

  method TakePattern(t: Table, reg: Commands.Registry, ghost now: Owned, ghost next: Owned, sp: Subprocess, i: nat)
    returns (t': Table, reg': Commands.Registry)
    requires i < |sp.commands| && Served(t, reg, now) && NoConflict(next)
    requires NextOwned(now, next, sp.id, Normal(sp.commands[i]))
    ensures Served(t', reg', next)
  {
    var pattern := ToUpper(TrimSpace(sp.commands[i]));
    if pattern == "" { return t, reg; }
    t', reg' := AddPattern(t, reg, now, sp, i, pattern);
  }

  lemma NothingYet(own: Owned, id: string, t: Table, reg: Commands.Registry)
    requires id !in own && Covers(t, own) && Only(t, own) && AllKnown(reg, own)
    ensures var now := own[id := {}]; Covers(t, now) && Only(t, now) && AllKnown(reg, now)
  {
    var now := own[id := {}];
    assert forall i, d :: ClaimedBy(now, i, d) <==> ClaimedBy(own, i, d);
    forall kind, key | key in t.Of(kind) ensures exists d :: ClaimFor(now, t.Of(kind)[key], d, kind, key) {
      var d :| ClaimFor(own, t.Of(kind)[key], d, kind, key);
      assert ClaimFor(now, t.Of(kind)[key], d, kind, key);
    }
  }

  /** What the rebuild stores for a pattern, and what it tells the parser, is its claim. */
  method AddPattern(t: Table, reg: Commands.Registry, ghost now: Owned, sp: Subprocess, i: nat, pattern: string)
    returns (t': Table, reg': Commands.Registry)
    requires i < |sp.commands| && pattern == Normal(sp.commands[i]) && sp.id in now
    requires NoConflict(now[sp.id := now[sp.id] + {ClaimOf(pattern)}]) && Covers(t, now) && Only(t, now)
        && AllKnown(reg, now)
    ensures
      var then_ := now[sp.id := now[sp.id] + {ClaimOf(pattern)}];
      Covers(t', then_) && Only(t', then_) && AllKnown(reg', then_)
  {
    ghost var c := ClaimOf(pattern);
    ClaimUpper(sp.commands[i]);
    FieldsOfJoin(c.words);
    LearnKnows(reg, c);
    AddClaim(now, sp.id, c, t);
    var p: string;
    if HasSuffix(pattern, " *") || HasSuffix(pattern, "*") {
      FieldsTrim(TrimSuffix(pattern, '*'));
      p := Join(Fields(TrimSuffix(pattern, '*')));
      t' := t.(prefix := t.prefix[p := sp.id]);
    } else {
      p := Join(Fields(pattern));
      t' := t.(exact := t.exact[p := sp.id]);
    }
    assert p == Key(c) && t' == t.With(c.kind, Key(c), sp.id);
    reg' := Learn(reg, Fields(p));
    AddKnown(now, sp.id, c, reg, reg');
  }

  lemma AddKnown(now: Owned, id: string, c: Claim, reg: Commands.Registry, reg': Commands.Registry)
    requires id in now && AllKnown(reg, now) && Known(reg', c) && forall d :: Known(reg, d) ==> Known(reg', d)
    ensures AllKnown(reg', now[id := now[id] + {c}])
  {
    var then_ := now[id := now[id] + {c}];
    forall i, d | ClaimedBy(then_, i, d) ensures Known(reg', d) {
      if d != c { assert ClaimedBy(now, i, d); }
    }
  }

  // ------------------------------------------------------------ the router

  /** Why a claim is refused, given the earlier ones, the table and the hub's own verbs. */
  function ClaimError(c: Claim, seen: set<Claim>, id: string, t: Table, hubVerbs: set<string>): Option<RouteError> {
    if |c.words| == 0 then Some(EmptyPattern)
    else if |c.words| > 2 then Some(TooManyWords)
    else if c.words[0] in hubVerbs then Some(HubVerb(c.words[0]))
    else if c in seen then Some(Duplicate)
    else if t.Finds(c).Some? && t.Finds(c).value != id then Some(Taken(t.Finds(c).value))
    else None
  }

  /** The error of the first pattern that has one. */
  ghost function FirstError(commands: seq<string>, id: string, t: Table, hubVerbs: set<string>): Option<RouteError> {
    if commands == [] then None
    else
      var front, p := commands[..|commands| - 1], Normal(commands[|commands| - 1]);
      var e := FirstError(front, id, t, hubVerbs);
      if e.Some? || p == "" then e else ClaimError(ClaimOf(p), Claims(front), id, t, hubVerbs)
  }

  lemma FirstErrorStep(commands: seq<string>, n: nat, id: string, t: Table, hubVerbs: set<string>)
    requires n < |commands| && FirstError(commands[..n], id, t, hubVerbs) == None
    ensures
      var p := Normal(commands[n]);
      FirstError(commands[..n + 1], id, t, hubVerbs) ==
      if p == "" then None else ClaimError(ClaimOf(p), Claims(commands[..n]), id, t, hubVerbs)
  {
    assert commands[..n + 1][..n] == commands[..n];
  }

  lemma {:induction false} ErrorStays(commands: seq<string>, n: nat, id: string, t: Table, hubVerbs: set<string>)
    requires n <= |commands| && FirstError(commands[..n], id, t, hubVerbs).Some?
    ensures FirstError(commands, id, t, hubVerbs) == FirstError(commands[..n], id, t, hubVerbs)
    decreases |commands| - n
  {
    if n == |commands| {
      assert commands[..n] == commands;
    } else {
      assert commands[..n + 1][..n] == commands[..n];
      ErrorStays(commands, n + 1, id, t, hubVerbs);
    }
  }

  /** What the validator accepts can be routed, is not the hub's, and is nobody else's. */
  lemma {:induction false} Accepted(commands: seq<string>, id: string, t: Table, hubVerbs: set<string>)
    requires FirstError(commands, id, t, hubVerbs) == None
    ensures forall c :: c in Claims(commands) ==>
      Routable(c) && c.words[0] !in hubVerbs && (t.Finds(c).Some? ==> t.Finds(c).value == id)
  {
    if commands == [] {
    } else {
      Accepted(commands[..|commands| - 1], id, t, hubVerbs);
      ClaimUpper(commands[|commands| - 1]);
    }
  }

  function NormalClaim(pattern: string): (c: Claim)
    ensures c == ClaimOf(pattern)
  {
    var kind := if HasSuffix(pattern, " *") || HasSuffix(pattern, "*") then Prefix else Exact;
    var key := if kind == Prefix then TrimSpace(TrimSuffix(pattern, '*')) else pattern;
    Claim(kind, Fields(key))
  }

  type Registered = map<string, Subprocess>

  ghost function Ownership(subs: Registered): Owned { map id | id in subs :: Claims(subs[id].commands) }

  class SubprocessRouter {
    var subprocesses: Registered
    var routes: Table
    var parser: Commands.Registry

    constructor (parser: Commands.Registry)
      ensures Valid() && Exactly() && subprocesses == map[] && this.parser == parser
    {
      subprocesses := map[];
      routes := Table(map[], map[]);
      this.parser := parser;
    }

    ghost function Own(): Owned
      reads this
    {
      Ownership(subprocesses)
    }

    ghost predicate Valid()
      reads this
    {
      && (forall id :: id in subprocesses ==> subprocesses[id].id == id)
      && NoConflict(Own()) && Covers(routes, Own()) && AllKnown(parser, Own())
    }

    /** No entry of a removed subprocess is left in the table. */
    ghost predicate Exactly()
      reads this
    {
      Only(routes, Own())
    }

    method ValidateRoutePatterns(sp: Subprocess, hubVerbs: set<string>) returns (r: Option<RouteError>)
      ensures r == FirstError(sp.commands, sp.id, routes, hubVerbs)
    {
      var seen: set<Claim> := {};
      for i := 0 to |sp.commands|
        invariant FirstError(sp.commands[..i], sp.id, routes, hubVerbs) == None && seen == Claims(sp.commands[..i])
      {
        var pattern := ToUpper(TrimSpace(sp.commands[i]));
        FirstErrorStep(sp.commands, i, sp.id, routes, hubVerbs);
        ClaimsStep(sp.commands, i);
        if pattern != "" {
          var claim := NormalClaim(pattern);
          r := CheckClaim(claim, seen, sp.id, hubVerbs);
          if r != None {
            ErrorStays(sp.commands, i + 1, sp.id, routes, hubVerbs);
            return;
          }
          seen := seen + {claim};
        }
      }
      assert sp.commands[..|sp.commands|] == sp.commands;
      r := None;
    }

    method CheckClaim(claim: Claim, seen: set<Claim>, id: string, hubVerbs: set<string>) returns (r: Option<RouteError>)
      ensures r == ClaimError(claim, seen, id, routes, hubVerbs)
    {
      var fields := claim.words;
      if |fields| == 0 { return Some(EmptyPattern); }
      if |fields| > 2 { return Some(TooManyWords); }
      if fields[0] in hubVerbs { return Some(HubVerb(fields[0])); }
      if claim in seen { return Some(Duplicate); }
      var normalized := Join(fields);
      var owners := if claim.kind == Exact then routes.exact else routes.prefix;
      if normalized in owners && owners[normalized] != id { return Some(Taken(owners[normalized])); }
      r := None;
    }

    /** Register, which holds the rebuild lock throughout. */
    method Register(sp: Subprocess, hubVerbs: set<string>) returns (r: Option<RouteError>)
      requires Valid()
      modifies this
      ensures Valid()
      ensures r == None <==>
        sp.id != "" && FirstError(sp.commands, sp.id, old(routes), hubVerbs) == None && sp.id !in old(subprocesses)
      ensures r == None ==> subprocesses == old(subprocesses)[sp.id := sp] && Exactly()
      ensures r != None ==> subprocesses == old(subprocesses) && routes == old(routes) && parser == old(parser)
    {
      if sp.id == "" { return Some(MissingID); }
      r := ValidateRoutePatterns(sp, hubVerbs);
      if r != None { return; }
      if sp.id in subprocesses { return Some(AlreadyRegistered); }
      Joined(subprocesses, routes, sp, hubVerbs);
      subprocesses := subprocesses[sp.id := sp];
      RebuildRoutes();
    }

    /** The first half of Unregister: the entry goes, the table still names it. */
    method Delete(id: string)
      requires Valid()
      modifies this`subprocesses
      ensures Valid() && subprocesses == old(subprocesses) - {id}
    {
      ghost var own := Own();
      subprocesses := subprocesses - {id};
      assert forall i, c :: ClaimedBy(Own(), i, c) ==> ClaimedBy(own, i, c);
    }

    /** The second half of Unregister, and the end of Register: a fresh table from the live
        map, taken in any order. */
    method RebuildRoutes()
      requires NoConflict(Own()) && forall id :: id in subprocesses ==> subprocesses[id].id == id
      modifies this`routes, this`parser
      ensures Valid() && Exactly()
    {
      var t := Table(map[], map[]);
      var reg := parser;
      var todo := subprocesses.Keys;
      ghost var own, done := Own(), map[];
      while todo != {}
        invariant todo <= subprocesses.Keys
        invariant done.Keys == subprocesses.Keys - todo && forall id :: id in done ==> done[id] == own[id]
        invariant Covers(t, done) && Only(t, done) && AllKnown(reg, done)
        decreases |todo|
      {
        HasMember(todo);
        var id :| id in todo;
        var sp := subprocesses[id];
        OneMore(own, done, id);
        t, reg := AddClaims(t, reg, done, sp);
        todo := todo - {id};
        done := done[id := own[id]];
      }
      assert done == own;
      routes, parser := t, reg;
    }

    /** Routing: the table first, then the live map. */
    method Route(verb: string, subVerb: string) returns (r: Option<Subprocess>)
      requires Valid() && IsWord(verb) && (subVerb == "" || IsWord(subVerb))
      ensures r.Some? ==> r.value.id in subprocesses && subprocesses[r.value.id] == r.value
      ensures Exactly() ==>
        match r
        case Some(sp) => exists c :: Best(Own(), sp.id, c, ToUpper(verb), ToUpper(subVerb))
        case None => Unclaimed(Own(), ToUpper(verb), ToUpper(subVerb))
    {
      var v, s := ToUpper(verb), ToUpper(subVerb);
      UpperTwice(verb);
      UpperTwice(subVerb);
      var id := Lookup(routes, v, s);
      if Exactly() { LookupMostSpecific(routes, Own(), v, s); }
      if id == None || id.value !in subprocesses { return None; }
      r := Some(subprocesses[id.value]);
    }
  }

  lemma OneMore(own: Owned, done: Owned, id: string)
    requires NoConflict(own) && id in own && forall i :: i in done ==> i in own && done[i] == own[i]
    ensures NoConflict(done[id := own[id]])
  {
    FewerClaims(own, done[id := own[id]]);
  }

  /** A newcomer the validator accepted conflicts with nobody. */
  lemma Joined(subs: Registered, t: Table, sp: Subprocess, hubVerbs: set<string>)
    requires NoConflict(Ownership(subs)) && Covers(t, Ownership(subs)) && sp.id !in subs
    requires FirstError(sp.commands, sp.id, t, hubVerbs) == None
    ensures NoConflict(Ownership(subs[sp.id := sp]))
  {
    Accepted(sp.commands, sp.id, t, hubVerbs);
    var own, own' := Ownership(subs), Ownership(subs[sp.id := sp]);
    forall id, c | ClaimedBy(own', id, c) ensures Routable(c) && (id != sp.id ==> t.Finds(c) == Some(id)) {
      if id != sp.id { assert ClaimedBy(own, id, c); }
    }
  }
}
