/** Header compounding as section 7.6.1.5 of IEEE 488.2 defines it, and when the
    hooks of a grammar make the feedback loop follow it. */
module StandardPath {
  import opened HeaderGrammar
  import opened ParserLoop
  import opened Compounding

  predicate Common(g: Grammar, u: Unit) { |u.header| == 1 && g.common(u.header[0]) }

  /** The standard's reading of a unit: below the header path of the unit before it,
      unless it starts with ':' or is a common command. */
  function StandardFull(g: Grammar, path: seq<Key>, first: bool, u: Unit): seq<Key> {
    if first || u.absolute || Common(g, u) then u.header else path + u.header
  }

  function Parent(full: seq<Key>): seq<Key>
    requires full != []
  {
    full[..|full| - 1]
  }

  /** All mnemonics but the last become the header path; common commands leave it alone. */
  function StandardNext(g: Grammar, path: seq<Key>, first: bool, u: Unit): seq<Key>
    requires u.header != []
  {
    if Common(g, u) && !u.absolute && !first then path else Parent(StandardFull(g, path, first, u))
  }

  function StandardResolve(g: Grammar, path: seq<Key>, first: bool, us: seq<Unit>): seq<Command>
    requires AllWellFormed(us)
    decreases |us|
  {
    [Command(StandardFull(g, path, first, us[0]), us[0].args)]
    + if |us| == 1 then [] else StandardResolve(g, StandardNext(g, path, first, us[0]), false, us[1..])
  }

  /** Every mnemonic of the header but the last is hooked. */
  predicate Compliant(g: Grammar, full: seq<Key>) {
    (forall n :: 0 < n < |full| ==> g.hooked(full[..n])) && !g.hooked(full)
  }

  /** The standard gives the message a meaning: every unit resolves to a command. */
  predicate Meaningful(g: Grammar, path: seq<Key>, first: bool, us: seq<Unit>)
    requires AllWellFormed(us)
    decreases |us|
  {
    g.header(StandardFull(g, path, first, us[0]))
    && (|us| > 1 ==> Meaningful(g, StandardNext(g, path, first, us[0]), false, us[1..]))
  }

  /** No command repeats a mnemonic. */
  ghost predicate NoRepeats(g: Grammar) { forall p :: g.header(p) ==> Distinct(p) }

  /** A unit that needs no path, or has one to use that is the standard's (`agree`). */
  predicate Placed(g: Grammar, path: seq<Key>, agree: bool, first: bool, u: Unit) {
    first || u.absolute || (agree && !Common(g, u) && path != [])
  }

  /** After the first unit, a unit without ':' is not a common command, and the unit
      before it is a compliant command that left a header path. */
  predicate Portable(g: Grammar, path: seq<Key>, agree: bool, first: bool, us: seq<Unit>)
    requires AllWellFormed(us)
    decreases |us|
  {
    Placed(g, path, agree, first, us[0])
    && (|us| > 1 ==>
          Portable(g, StandardNext(g, path, first, us[0]), Compliant(g, StandardFull(g, path, first, us[0])), false, us[1..]))
  }

  lemma {:induction false} HooksOfCompliant(g: Grammar, path: seq<Key>, header: seq<Key>)
    requires header != [] && Compliant(g, path + header)
    ensures Hooks(g, path, header) == Parent(header)
    decreases |header|
  {
    var full, path' := path + header, path + [header[0]];
    assert full[..|path'|] == path' && path' + header[1..] == full;
    if |header| > 1 {
      HooksOfCompliant(g, path', header[1..]);
      assert [header[0]] + Parent(header[1..]) == Parent(header);
    } else {
      assert full == path';
    }
  }

  predicate Distinct(header: seq<Key>) {
    forall i, j :: 0 <= i < j < |header| ==> header[i] != header[j]
  }

  lemma {:induction false} HooksAreMnemonics(g: Grammar, path: seq<Key>, header: seq<Key>, k: Key)
    requires k in Hooks(g, path, header)
    ensures k in header
    decreases |header|
  {
    if k != header[0] {
      HooksAreMnemonics(g, path + [header[0]], header[1..], k);
    }
  }

  lemma {:induction false} HookedMnemonic(g: Grammar, path: seq<Key>, header: seq<Key>, i: nat)
    requires Distinct(header) && i < |header|
    ensures header[i] in Hooks(g, path, header) <==> g.hooked(path + header[..i + 1])
    decreases |header|
  {
    var path' := path + [header[0]];
    if i == 0 {
      assert header[..1] == [header[0]];
      if header[0] in Hooks(g, path', header[1..]) {
        HooksAreMnemonics(g, path', header[1..], header[0]);
      }
    } else {
      HookedMnemonic(g, path', header[1..], i - 1);
      assert path' + header[1..][..i] == path + header[..i + 1];
    }
  }

  /** Every header above this path, and the path itself, is hooked. */
  predicate AllHooked(g: Grammar, path: seq<Key>) { forall n :: 0 < n <= |path| ==> g.hooked(path[..n]) }

  /** Reading a header below a hooked path leaves the standard's header path in force
      exactly when the whole command is compliant. */
  lemma HooksIffCompliant(g: Grammar, path: seq<Key>, header: seq<Key>)
    requires header != [] && Distinct(header) && AllHooked(g, path)
    ensures Hooks(g, path, header) == Parent(header) <==> Compliant(g, path + header)
  {
    var full, m := path + header, |path|;
    if Compliant(g, full) {
      HooksOfCompliant(g, path, header);
    } else if Hooks(g, path, header) == Parent(header) {
      HookedMnemonic(g, path, header, |header| - 1);
      assert header[..|header|] == header;
      forall n | 0 < n < |full| ensures g.hooked(full[..n]) {
        if n <= m {
          assert full[..n] == path[..n];
        } else {
          HookedMnemonic(g, path, header, n - m - 1);
          assert Parent(header)[n - m - 1] == header[n - m - 1] && path + header[..n - m] == full[..n];
        }
      }
    }
  }

  /** From the root. */
  lemma StandardIffCompliant(g: Grammar, header: seq<Key>)
    requires header != [] && Distinct(header)
    ensures Hooks(g, [], header) == Parent(header) <==> Compliant(g, header)
  {
    assert [] + header == header;
    HooksIffCompliant(g, [], header);
  }

  /** A common command is not a header below any path. */
  lemma CommonNotBelow(g: Grammar, path: seq<Key>, u: Unit)
    requires g.Valid() && WellFormed(u) && Common(g, u) && path != []
    ensures !g.header(path + u.header)
  {
    var full := path + u.header;
    assert full[|full| - 1] == u.header[|u.header| - 1];
    assert g.header(full) ==> g.Viable(full);
  }

  /** `agree` says whether the path in force is the standard's, which then is hooked. */
  predicate Agreeing(g: Grammar, h: seq<Key>, path: seq<Key>, agree: bool, first: bool) {
    && (first ==> h == path == []) && (agree <==> h == path) && (agree ==> AllHooked(g, path))
  }

  lemma DistinctTail(a: seq<Key>, b: seq<Key>)
    requires Distinct(a + b)
    ensures Distinct(b)
  {
    forall i, j | 0 <= i < j < |b| ensures b[i] != b[j] {
      assert (a + b)[|a| + i] == b[i] && (a + b)[|a| + j] == b[j];
    }
  }

  /** A placed unit: the command the standard says, and then agreement exactly when the
      command is compliant. */
  lemma PlacedUnit(g: Grammar, h: seq<Key>, path: seq<Key>, agree: bool, first: bool, u: Unit)
    requires WellFormed(u) && Agreeing(g, h, path, agree, first) && Placed(g, path, agree, first, u)
    requires Distinct(StandardFull(g, path, first, u))
    ensures !Pathless(h, first, u) && Full(h, first, u) == StandardFull(g, path, first, u)
    ensures var full := StandardFull(g, path, first, u);
            Agreeing(g, InForce(g, h, first, u), StandardNext(g, path, first, u), Compliant(g, full), false)
  {
    hide Hooks;
    var base, full := Base(h, first, u), StandardFull(g, path, first, u);
    assert [] + u.header == u.header;
    assert full == base + u.header && StandardNext(g, path, first, u) == Parent(full) == base + Parent(u.header);
    DistinctTail(base, u.header);
    HooksIffCompliant(g, base, u.header);
    SameTail(base, Hooks(g, base, u.header), Parent(u.header));
    if Compliant(g, full) {
      forall n | 0 < n <= |Parent(full)| ensures g.hooked(Parent(full)[..n]) {
        assert Parent(full)[..n] == full[..n];
      }
    }
  }

  lemma SameTail(a: seq<Key>, b: seq<Key>, c: seq<Key>)
    ensures a + b == a + c <==> b == c
  {
    assert (a + b)[|a|..] == b && (a + c)[|a|..] == c;
  }

  /** Any other unit does not run the command the standard says. */
  lemma UnplacedUnit(g: Grammar, h: seq<Key>, path: seq<Key>, agree: bool, first: bool, u: Unit)
    requires g.Valid() && WellFormed(u) && Agreeing(g, h, path, agree, first) && !Placed(g, path, agree, first, u)
    ensures Pathless(h, first, u) || !g.header(Full(h, first, u)) || Full(h, first, u) != StandardFull(g, path, first, u)
  {
    if h != [] {
      if Common(g, u) {
        CommonNotBelow(g, h, u);
      } else if h != path {
        SameFront(h, path, u.header);
      }
    }
  }

  lemma SameFront(a: seq<Key>, b: seq<Key>, c: seq<Key>)
    ensures a + c == b + c <==> a == b
  {
    if a + c == b + c {
      assert |a| == |b| && (a + c)[..|a|] == a && (b + c)[..|b|] == b;
    }
  }

  /** The loop runs every command the standard says. */
  predicate RunsStandard(g: Grammar, h: seq<Key>, path: seq<Key>, first: bool, us: seq<Unit>)
    requires AllWellFormed(us)
  {
    Runs(g, h, first, us) && Resolve(g, h, first, us) == StandardResolve(g, path, first, us)
  }

  /** One unit at a time. */
  lemma RunsStandardStep(g: Grammar, h: seq<Key>, path: seq<Key>, first: bool, us: seq<Unit>)
    requires AllWellFormed(us)
    ensures var u := us[0];
            RunsStandard(g, h, path, first, us) <==>
              && !Pathless(h, first, u) && g.header(Full(h, first, u)) && Full(h, first, u) == StandardFull(g, path, first, u)
              && (|us| > 1 ==> RunsStandard(g, InForce(g, h, first, u), StandardNext(g, path, first, u), false, us[1..]))
  {
    hide Full, StandardFull, InForce, StandardNext, Pathless;
    var u := us[0];
    var x, y := Command(Full(h, first, u), u.args), Command(StandardFull(g, path, first, u), u.args);
    if |us| > 1 {
      var r, q := Resolve(g, InForce(g, h, first, u), false, us[1..]), StandardResolve(g, StandardNext(g, path, first, u), false, us[1..]);
      assert ([x] + r)[0] == x && ([x] + r)[1..] == r && ([y] + q)[0] == y && ([y] + q)[1..] == q;
    } else {
      assert [x] + [] == [x] && [y] + [] == [y] && [x][0] == x && [y][0] == y;
    }
  }

  /** The loop's resolution is the standard's exactly on portable messages. */
  lemma {:induction false} ResolveIsStandard(g: Grammar, h: seq<Key>, path: seq<Key>, agree: bool, first: bool, us: seq<Unit>)
    requires g.Valid() && NoRepeats(g) && AllWellFormed(us) && Meaningful(g, path, first, us)
    requires Agreeing(g, h, path, agree, first)
    ensures RunsStandard(g, h, path, first, us) <==> Portable(g, path, agree, first, us)
    decreases |us|
  {
    hide Hooks, Compliant, Full, InForce, StandardFull, StandardNext, Pathless, Placed, Agreeing, RunsStandard, Grammar.Valid;
    var u := us[0];
    RunsStandardStep(g, h, path, first, us);
    if Placed(g, path, agree, first, u) {
      PlacedUnit(g, h, path, agree, first, u);
      if |us| > 1 {
        ResolveIsStandard(g, InForce(g, h, first, u), StandardNext(g, path, first, u),
                          Compliant(g, StandardFull(g, path, first, u)), false, us[1..]);
      }
    } else {
      UnplacedUnit(g, h, path, agree, first, u);
    }
  }

  /** For every message of commands, the feedback loop runs exactly the commands the
      standard says if and only if the message is portable. */
  lemma CompoundingIsStandard(g: Grammar, us: seq<Unit>)
    requires g.Valid() && NoRepeats(g) && AllWellFormed(us) && Meaningful(g, [], true, us)
    ensures var r := Meaning(g, START, [], false, Spell(us));
            (!r.crashed && r.last == Parser(Accepted, StandardResolve(g, [], true, us))) <==> Portable(g, [], true, true, us)
  {
    hide Spell, Meaning, Resolve, StandardResolve, Runs, Portable;
    Message(g, START, [], true, us);
    ResolveIsStandard(g, [], [], true, true, us);
    assert [] + Resolve(g, [], true, us) == Resolve(g, [], true, us);
  }

  /** The same message with every header spelled from the root. */
  function Absolute(g: Grammar, path: seq<Key>, first: bool, us: seq<Unit>): (vs: seq<Unit>)
    requires AllWellFormed(us)
    ensures |vs| == |us| && AllWellFormed(vs)
    decreases |us|
  {
    [Unit(true, StandardFull(g, path, first, us[0]), us[0].args)]
    + if |us| == 1 then [] else Absolute(g, StandardNext(g, path, first, us[0]), false, us[1..])
  }

  lemma {:induction false} AbsoluteResolves(g: Grammar, path: seq<Key>, first: bool, h: seq<Key>, first': bool, us: seq<Unit>)
    requires AllWellFormed(us) && Meaningful(g, path, first, us)
    ensures var vs := Absolute(g, path, first, us);
            Runs(g, h, first', vs) && Resolve(g, h, first', vs) == StandardResolve(g, path, first, us)
    decreases |us|
  {
    var vs := Absolute(g, path, first, us);
    var full := StandardFull(g, path, first, us[0]);
    assert [] + full == full;
    if |us| > 1 {
      AbsoluteResolves(g, StandardNext(g, path, first, us[0]), false, InForce(g, h, first', vs[0]), false, us[1..]);
      assert vs[1..] == Absolute(g, StandardNext(g, path, first, us[0]), false, us[1..]);
    }
  }

  /** Spelled from the root a message always runs as the standard says; so the relative
      spelling runs the same commands exactly on portable messages. */
  lemma SpellingsAgree(g: Grammar, us: seq<Unit>)
    requires g.Valid() && NoRepeats(g) && AllWellFormed(us) && Meaningful(g, [], true, us)
    ensures var r := Meaning(g, START, [], false, Spell(us));
            var a := Meaning(g, START, [], false, Spell(Absolute(g, [], true, us)));
            && !a.crashed && a.last == Parser(Accepted, StandardResolve(g, [], true, us))
            && (!r.crashed && r.last == a.last <==> Portable(g, [], true, true, us))
  {
    hide Spell, Meaning, Resolve, StandardResolve, Runs, Portable;
    var vs := Absolute(g, [], true, us);
    CompoundingIsStandard(g, us);
    AbsoluteResolves(g, [], true, [], true, us);
    Message(g, START, [], true, vs);
    assert [] + Resolve(g, [], true, vs) == Resolve(g, [], true, vs);
  }
}
