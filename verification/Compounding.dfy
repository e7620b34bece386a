/** Header compounding on whole messages: what the feedback loop does to a list of
    commands separated by ';', written without any parser. */
module Compounding {
  import opened HeaderGrammar
  import opened ParserLoop

  /** One program message unit as the user writes it. */
  datatype Unit = Unit(absolute: bool, header: seq<Key>, args: seq<Token>)

  predicate WellFormed(u: Unit) {
    && u.header != []
    && (forall a :: a in u.args ==> !a.Semi? && !a.End?)
    && (u.args != [] ==> !u.args[0].Colon?)
  }

  predicate AllWellFormed(us: seq<Unit>) {
    us != [] && forall i :: 0 <= i < |us| ==> WellFormed(us[i])
  }

  /** The mnemonics of a header with ':' between them. */
  function Join(header: seq<Key>): seq<Token>
    requires header != []
  {
    if |header| == 1 then [Word(header[0])] else [Word(header[0]), Colon] + Join(header[1..])
  }

  function Mark(u: Unit): seq<Token> { if u.absolute then [Colon] else [] }

  /** The tokens of a message, with the end of the line. */
  function Spell(us: seq<Unit>): seq<Token>
    requires AllWellFormed(us)
    decreases |us|, 1
  {
    Spelled(us[0], Rest(us))
  }

  /** One unit and what follows it. */
  function Spelled(u: Unit, rest: seq<Token>): seq<Token>
    requires WellFormed(u)
  {
    Mark(u) + (Join(u.header) + (u.args + rest))
  }

  function Rest(us: seq<Unit>): seq<Token>
    requires AllWellFormed(us)
    decreases |us|, 0
  {
    if |us| == 1 then [End] else [Semi] + Spell(us[1..])
  }

  /** The hooked mnemonics met when a header is read below a path. */
  function Hooks(g: Grammar, path: seq<Key>, header: seq<Key>): seq<Key>
    decreases |header|
  {
    if header == [] then [] else
      var path' := path + [header[0]];
      (if g.hooked(path') then [header[0]] else []) + Hooks(g, path', header[1..])
  }

  /** The path a unit is read below: the root for the first unit and after a leading
      ':', else the path in force. */
  function Base(h: seq<Key>, first: bool, u: Unit): seq<Key> {
    if first || u.absolute then [] else h
  }

  function Full(h: seq<Key>, first: bool, u: Unit): seq<Key> { Base(h, first, u) + u.header }

  function InForce(g: Grammar, h: seq<Key>, first: bool, u: Unit): seq<Key> {
    Base(h, first, u) + Hooks(g, Base(h, first, u), u.header)
  }

  /** A unit with its path spelled out. */
  function Own(h: seq<Key>, first: bool, u: Unit): seq<Token>
    requires WellFormed(u)
  {
    (if u.absolute then [Colon] else Flat(Base(h, first, u))) + (Join(u.header) + u.args)
  }

  /** The message with every relative unit after ';' preceded by the path in force. */
  function Expand(g: Grammar, h: seq<Key>, first: bool, us: seq<Unit>): seq<Token>
    requires AllWellFormed(us)
    decreases |us|
  {
    Own(h, first, us[0])
    + if |us| == 1 then [End] else [Semi] + Expand(g, InForce(g, h, first, us[0]), false, us[1..])
  }

  /** The commands a message stands for. */
  function Resolve(g: Grammar, h: seq<Key>, first: bool, us: seq<Unit>): seq<Command>
    requires AllWellFormed(us)
    decreases |us|
  {
    [Command(Full(h, first, us[0]), us[0].args)]
    + if |us| == 1 then [] else Resolve(g, InForce(g, h, first, us[0]), false, us[1..])
  }

  /** A relative unit after ';' with no path to replay. */
  predicate Pathless(h: seq<Key>, first: bool, u: Unit) { !first && !u.absolute && h == [] }

  /** Every unit resolves to a command and none is pathless. */
  predicate Runs(g: Grammar, h: seq<Key>, first: bool, us: seq<Unit>)
    requires AllWellFormed(us)
    decreases |us|
  {
    !Pathless(h, first, us[0]) && g.header(Full(h, first, us[0]))
    && (|us| > 1 ==> Runs(g, InForce(g, h, first, us[0]), false, us[1..]))
  }

  /** A pathless unit comes before any unit that does not resolve. */
  predicate Stuck(g: Grammar, h: seq<Key>, first: bool, us: seq<Unit>)
    requires AllWellFormed(us)
    decreases |us|
  {
    Pathless(h, first, us[0])
    || (g.header(Full(h, first, us[0])) && |us| > 1 && Stuck(g, InForce(g, h, first, us[0]), false, us[1..]))
  }

  /** Can the parser read this header below this path? */
  predicate Readable(g: Grammar, path: seq<Key>, header: seq<Key>)
    requires header != []
    decreases |header|
  {
    var path' := path + [header[0]];
    if |header| == 1 then g.Viable(path') else g.branch(path') && Readable(g, path', header[1..])
  }

  predicate Reading(pos: Position, path: seq<Key>) {
    pos == Under(path) || (path == [] && (pos.Fresh? || pos.Next? || pos.Lead?))
  }

  lemma {:induction false} PrefixIsBranch(g: Grammar, path: seq<Key>, n: nat)
    requires g.Valid() && g.Viable(path) && 0 < n < |path|
    ensures g.branch(path[..n])
    decreases |path|
  {
    var parent := path[..|path| - 1];
    if n < |parent| {
      PrefixIsBranch(g, parent, n);
      assert parent[..n] == path[..n];
    }
  }

  lemma HeadMoves(a: seq<Key>, b: seq<Key>, c: seq<Key>)
    requires b != []
    ensures a + [b[0]] + b[1..] + c == a + b + c && (a + b + c)[..|a + [b[0]]|] == a + [b[0]]
  {
    assert [b[0]] + b[1..] == b;
    assert a + [b[0]] + b[1..] == a + b;
  }

  lemma {:induction false} ViableIsReadable(g: Grammar, path: seq<Key>, header: seq<Key>)
    requires g.Valid() && header != [] && g.Viable(path + header)
    ensures Readable(g, path, header)
    decreases header
  {
    hide Grammar.Valid, Grammar.Viable;
    var path' := path + [header[0]];
    HeadMoves(path, header, []);
    assert path + header + [] == path + header && path' + header[1..] + [] == path' + header[1..];
    if |header| > 1 {
      PrefixIsBranch(g, path + header, |path'|);
      ViableIsReadable(g, path', header[1..]);
    } else {
      assert path' == path + header;
    }
  }

  lemma DirectWord(g: Grammar, p: Parser, path: seq<Key>, h: seq<Key>, k: Key, rest: seq<Token>)
    requires Reading(p.pos, path) && rest != []
    ensures var r := Direct(g, p, h, [Word(k)] + rest);
            var path' := path + [k];
            if g.Viable(path') then
              r == Prepend([Word(k)], Meaning(g, p.(pos := At(path')),
                                              h + if g.hooked(path') then [k] else [], false, rest))
            else r.last == p.(pos := Rejected) && !r.crashed
  {
    assert ([Word(k)] + rest)[1..] == rest;
    assert h + [] == h;
  }

  lemma HeaderColon(g: Grammar, p: Parser, path: seq<Key>, h: seq<Key>, rest: seq<Token>)
    requires p.pos == At(path) && rest != []
    ensures var r := Meaning(g, p, h, false, [Colon] + rest);
            if g.branch(path) then r == Prepend([Colon], Direct(g, p.(pos := Under(path)), h, rest))
            else r.last == p.(pos := Rejected) && !r.crashed
  {
    var line := [Colon] + rest;
    assert line[1..] == rest && !p.Stopped();
    assert Meaning(g, p, h, false, line) == Direct(g, p, h, line);
    var q := Push(g, p, Colon).0;
    assert Meaning(g, q, h, false, rest) == if q.Stopped() then Trace([], q, false) else Direct(g, q, h, rest);
  }

  lemma JoinStep(header: seq<Key>, rest: seq<Token>)
    requires |header| > 1
    ensures Join(header) + rest == [Word(header[0])] + ([Colon] + (Join(header[1..]) + rest))
    ensures Join(header) == [Word(header[0]), Colon] + Join(header[1..])
  {
    PairApart(Word(header[0]), Colon, Join(header[1..]), rest);
  }

  lemma PairApart<T>(a: T, b: T, mid: seq<T>, rest: seq<T>)
    ensures [a, b] + mid + rest == [a] + ([b] + (mid + rest))
  {
  }

  lemma PrependThrice(a: Token, b: Token, c: seq<Token>, r: Trace)
    ensures Prepend([a], Prepend([b], Prepend(c, r))) == Prepend([a, b] + c, r)
  {
    PrependTwice([b], c, r);
    PrependTwice([a], [b] + c, r);
    assert [a] + ([b] + c) == [a, b] + c;
  }

  lemma HooksStep(g: Grammar, path: seq<Key>, h: seq<Key>, header: seq<Key>)
    requires header != []
    ensures var path' := path + [header[0]];
            var h' := h + if g.hooked(path') then [header[0]] else [];
            h' + Hooks(g, path', header[1..]) == h + Hooks(g, path, header)
            && path' + header[1..] == path + header
  {
  }

  /** Reading a header, hooks on. */
  lemma {:induction false} ReadHeader(g: Grammar, p: Parser, path: seq<Key>, h: seq<Key>, header: seq<Key>, rest: seq<Token>)
    requires Reading(p.pos, path) && header != [] && rest != []
    ensures var r := Direct(g, p, h, Join(header) + rest);
            if Readable(g, path, header) then
              r == Prepend(Join(header),
                           Meaning(g, p.(pos := At(path + header)), h + Hooks(g, path, header), false, rest))
            else r.last == p.(pos := Rejected) && !r.crashed
    decreases |header|
  {
    hide Push, Meaning, Direct, Join;
    var k, path' := header[0], path + [header[0]];
    HooksStep(g, path, h, header);
    if |header| == 1 {
      ReadLast(g, p, path, h, k, rest);
      assert header == [k];
    } else {
      var tail := Join(header[1..]) + rest;
      JoinStep(header, rest);
      ReadBranch(g, p, path, h, k, tail);
      if g.branch(path') {
        ReadHeader(g, p.(pos := Under(path')), path', h + if g.hooked(path') then [k] else [], header[1..], rest);
        PrependThrice(Word(k), Colon, Join(header[1..]),
                      Meaning(g, p.(pos := At(path + header)), h + Hooks(g, path, header), false, rest));
      }
    }
  }

  /** The last mnemonic of a header. */
  lemma ReadLast(g: Grammar, p: Parser, path: seq<Key>, h: seq<Key>, k: Key, rest: seq<Token>)
    requires Reading(p.pos, path) && rest != []
    ensures var r := Direct(g, p, h, Join([k]) + rest);
            if g.Viable(path + [k]) then
              r == Prepend(Join([k]), Meaning(g, p.(pos := At(path + [k])), h + Hooks(g, path, [k]), false, rest))
            else r.last == p.(pos := Rejected) && !r.crashed
  {
    hide Push, Meaning, Direct;
    DirectWord(g, p, path, h, k, rest);
    assert Hooks(g, path, [k]) == if g.hooked(path + [k]) then [k] else [];
  }

  /** A mnemonic that another follows. */
  lemma ReadBranch(g: Grammar, p: Parser, path: seq<Key>, h: seq<Key>, k: Key, tail: seq<Token>)
    requires Reading(p.pos, path) && tail != []
    ensures var r := Direct(g, p, h, [Word(k)] + ([Colon] + tail));
            var path' := path + [k];
            if g.branch(path') then
              r == Prepend([Word(k)], Prepend([Colon], Direct(g, p.(pos := Under(path')),
                                                              h + if g.hooked(path') then [k] else [], tail)))
            else r.last == p.(pos := Rejected) && !r.crashed
  {
    hide Push, Meaning, Direct;
    DirectWord(g, p, path, h, k, [Colon] + tail);
    HeaderColon(g, p.(pos := At(path + [k])), path + [k], h + if g.hooked(path + [k]) then [k] else [], tail);
  }

  /** A header that does not resolve is refused by whatever follows it. */
  lemma HeaderRefused(g: Grammar, p: Parser, path: seq<Key>, h: seq<Key>, rest: seq<Token>)
    requires p.pos == At(path) && rest != [] && !rest[0].Colon? && !g.header(path)
    ensures var r := Meaning(g, p, h, false, rest); r.last == p.(pos := Rejected) && !r.crashed
  {
    var q := p.(pos := Rejected);
    assert Push(g, p, rest[0]) == (q, NoHook);
    assert Meaning(g, p, h, false, rest) == Direct(g, p, h, rest);
    assert Meaning(g, q, h, false, rest[1..]).last == q;
  }

  lemma Unroll(g: Grammar, p: Parser, h: seq<Key>, line: seq<Token>)
    requires line != [] && !p.Stopped()
    ensures var (q, hook) := Push(g, p, line[0]);
            Meaning(g, p, h, false, line)
            == Prepend([line[0]], Meaning(g, q, PathAfter(h, hook), hook == Separator(true), line[1..]))
  {
    assert Meaning(g, p, h, false, line) == Direct(g, p, h, line);
  }

  /** Reading parameters up to the token that ends the unit. */
  lemma {:induction false} ReadArgs(g: Grammar, p: Parser, path: seq<Key>, h: seq<Key>, got: seq<Token>, args: seq<Token>, rest: seq<Token>)
    requires g.header(path) && p.pos == (if got == [] then At(path) else Args(path, got))
    requires (forall i :: 0 <= i < |args| ==> !args[i].Semi? && !args[i].End?)
    requires got == [] && args != [] ==> !args[0].Colon?
    ensures Meaning(g, p, h, false, args + rest)
         == Prepend(args, Meaning(g, p.(pos := if got + args == [] then At(path) else Args(path, got + args)), h, false, rest))
    decreases |args|
  {
    if args == [] {
      assert args + rest == rest && got + args == got;
      var m := Meaning(g, p, h, false, rest);
      assert [] + m.pushed == m.pushed;
    } else {
      var line, got' := args + rest, got + [args[0]];
      assert line[1..] == args[1..] + rest && got' + args[1..] == got + args;
      assert got == [] ==> got' == [args[0]];
      assert Push(g, p, line[0]) == (p.(pos := Args(path, got')), NoHook);
      Unroll(g, p, h, line);
      ReadArgs(g, p.(pos := Args(path, got')), path, h, got', args[1..], rest);
      PrependTwice([args[0]], args[1..], Meaning(g, p.(pos := Args(path, got + args)), h, false, rest));
      assert [args[0]] + args[1..] == args;
    }
  }

  /** The end of a unit runs its command. */
  lemma EndUnit(g: Grammar, p: Parser, path: seq<Key>, args: seq<Token>, h: seq<Key>, t: Token, rest: seq<Token>)
    requires g.header(path) && p.pos == (if args == [] then At(path) else Args(path, args))
    requires t.Semi? || (t.End? && rest == [])
    ensures Meaning(g, p, h, false, [t] + rest)
         == if t.Semi? then Prepend([t], Meaning(g, Parser(Next, p.ran + [Command(path, args)]), h, true, rest))
            else Trace([t], Parser(Accepted, p.ran + [Command(path, args)]), false)
  {
    var line := [t] + rest;
    assert line[1..] == rest;
    Unroll(g, p, h, line);
  }

  /** One unit below a known path, up to the next. */
  lemma ReadUnit(g: Grammar, p: Parser, path: seq<Key>, h: seq<Key>, u: Unit, t: Token, rest: seq<Token>)
    requires g.Valid() && WellFormed(u) && Reading(p.pos, path) && (t.Semi? || (t.End? && rest == []))
    ensures var full, h' := path + u.header, h + Hooks(g, path, u.header);
            var r := Direct(g, p, h, Join(u.header) + (u.args + ([t] + rest)));
            var ran := p.ran + [Command(full, u.args)];
            if g.header(full) then
              r == Prepend(Join(u.header) + u.args,
                           if t.Semi? then Prepend([t], Meaning(g, Parser(Next, ran), h', true, rest))
                           else Trace([t], Parser(Accepted, ran), false))
            else r.last.pos.Rejected? && !r.crashed
  {
    var full, h' := path + u.header, h + Hooks(g, path, u.header);
    var tail := u.args + ([t] + rest);
    ReadHeader(g, p, path, h, u.header, tail);
    if g.header(full) {
      ViableIsReadable(g, path, u.header);
      var q := p.(pos := if u.args == [] then At(full) else Args(full, u.args));
      assert [] + u.args == u.args;
      ReadArgs(g, p.(pos := At(full)), full, h', [], u.args, [t] + rest);
      EndUnit(g, q, full, u.args, h', t, rest);
      PrependTwice(Join(u.header), u.args, Meaning(g, q, h', false, [t] + rest));
    } else if Readable(g, path, u.header) {
      HeaderRefused(g, p.(pos := At(full)), full, h', tail);
    }
  }

  /** Every mnemonic of the tail may be followed by ':'. */
  predicate Open(g: Grammar, path: seq<Key>, tail: seq<Key>)
    decreases |tail|
  {
    tail == [] || (g.branch(path + [tail[0]]) && Open(g, path + [tail[0]], tail[1..]))
  }

  lemma {:induction false} ViableIsOpen(g: Grammar, path: seq<Key>, tail: seq<Key>, header: seq<Key>)
    requires g.Valid() && header != [] && g.Viable(path + tail + header)
    ensures Open(g, path, tail)
    decreases |tail|
  {
    hide Grammar.Valid, Grammar.Viable;
    if tail != [] {
      var path' := path + [tail[0]];
      HeadMoves(path, tail, header);
      PrefixIsBranch(g, path + tail + header, |path'|);
      ViableIsOpen(g, path', tail[1..], header);
    }
  }

  lemma FeedPair(g: Grammar, p: Parser, path: seq<Key>, k: Key, ts: seq<Token>)
    requires Reading(p.pos, path)
    ensures var r := Feed(g, p, [Word(k), Colon] + ts);
            if g.branch(path + [k]) then
              r == Prepend([Word(k)], Prepend([Colon], Feed(g, p.(pos := Under(path + [k])), ts)))
            else r.last == p.(pos := Rejected) && !r.crashed
  {
    var line := [Word(k), Colon] + ts;
    assert line[1..] == [Colon] + ts && line[1..][1..] == ts;
    assert Feed(g, p, line) == Prepend([Word(k)], Feed(g, Push(g, p, Word(k)).0, line[1..]));
  }

  /** Replaying a path whose mnemonics all take ':', hooks off. */
  lemma {:induction false} FeedOpen(g: Grammar, p: Parser, path: seq<Key>, tail: seq<Key>)
    requires Reading(p.pos, path) && tail != [] && Open(g, path, tail)
    ensures Feed(g, p, Flat(tail)) == Trace(Flat(tail), p.(pos := Under(path + tail)), false)
    decreases |tail|
  {
    hide Push;
    var a, rest, q := tail[0], tail[1..], p.(pos := Under(path + [tail[0]]));
    FeedPair(g, p, path, a, Flat(rest));
    assert path + [a] + rest == path + tail;
    if rest == [] {
      assert path + [a] == path + tail;
    } else {
      FeedOpen(g, q, path + [a], rest);
    }
    assert [Word(a)] + ([Colon] + Flat(rest)) == Flat(tail);
  }

  /** Replaying any other path is refused. */
  lemma {:induction false} FeedShut(g: Grammar, p: Parser, path: seq<Key>, tail: seq<Key>)
    requires Reading(p.pos, path) && !Open(g, path, tail)
    ensures var r := Feed(g, p, Flat(tail)); r.last == p.(pos := Rejected) && !r.crashed
    decreases |tail|
  {
    hide Push, Feed;
    var path' := path + [tail[0]];
    FeedPair(g, p, path, tail[0], Flat(tail[1..]));
    if g.branch(path') {
      FeedShut(g, p.(pos := Under(path')), path', tail[1..]);
    }
  }

  /** How one unit is introduced: nothing, a leading ':', or the replayed path. */
  lemma LeadIn(g: Grammar, p: Parser, h: seq<Key>, first: bool, u: Unit, line: seq<Token>)
    requires g.Valid() && WellFormed(u) && p.pos == (if first then Fresh else Next) && (first ==> h == [])
    requires line != [] && line[0].Word? && !Pathless(h, first, u)
    ensures var r := Meaning(g, p, h, !first, Mark(u) + line);
            var base := Base(h, first, u);
            var lead := if u.absolute then [Colon] else Flat(base);
            var q := p.(pos := if u.absolute then Lead else if base == [] then p.pos else Under(base));
            if Open(g, [], base) then r == Prepend(lead, Direct(g, q, base, line))
            else r.last.pos.Rejected? && !r.crashed
  {
    var whole := Mark(u) + line;
    if u.absolute {
      var q := p.(pos := Lead);
      assert whole[1..] == line;
      assert Meaning(g, p, h, !first, whole) == Direct(g, p, h, whole);
      assert Meaning(g, q, [], false, line) == Direct(g, q, [], line);
    } else {
      assert whole == line;
      LeadRelative(g, p, h, first, line);
    }
  }

  /** A unit without ':': the path in force is replayed, or the first unit has none. */
  lemma LeadRelative(g: Grammar, p: Parser, h: seq<Key>, first: bool, line: seq<Token>)
    requires g.Valid() && p.pos == (if first then Fresh else Next) && (if first then h == [] else h != [])
    requires line != [] && line[0].Word?
    ensures var r := Meaning(g, p, h, !first, line);
            if Open(g, [], h) then r == Prepend(Flat(h), Direct(g, p.(pos := if h == [] then p.pos else Under(h)), h, line))
            else r.last.pos.Rejected? && !r.crashed
  {
    hide Push, Direct, Grammar.Valid;
    if first {
      assert Flat([]) == [];
      var d := Direct(g, p, [], line);
      assert [] + d.pushed == d.pushed;
    } else {
      if Open(g, [], h) {
        FeedOpen(g, p, [], h);
      } else {
        FeedShut(g, p, [], h);
      }
      assert [] + h == h;
      assert Meaning(g, p, h, true, line) == Expanded(g, p, h, Flat(h), line);
    }
  }

  /** One unit up to the token that ends it: what it pushes and where it leaves the loop. */
  lemma OneUnit(g: Grammar, p: Parser, h: seq<Key>, first: bool, u: Unit, t: Token, more: seq<Token>)
    requires g.Valid() && WellFormed(u) && p.pos == (if first then Fresh else Next) && (first ==> h == [])
    requires !Pathless(h, first, u) && (t.Semi? || (t.End? && more == []))
    ensures var r := Meaning(g, p, h, !first, Spelled(u, [t] + more));
            var ran := p.ran + [Command(Full(h, first, u), u.args)];
            var tokens := Own(h, first, u);
            if !g.header(Full(h, first, u)) then r.last.pos.Rejected? && !r.crashed
            else if t.End? then r == Prepend(tokens, Trace([End], Parser(Accepted, ran), false))
            else r == Prepend(tokens, Prepend([Semi], Meaning(g, Parser(Next, ran), InForce(g, h, first, u), true, more)))
  {
    hide Push, Meaning, Direct;
    var base := Base(h, first, u);
    LeadIn(g, p, h, first, u, Join(u.header) + (u.args + ([t] + more)));
    var q := p.(pos := if u.absolute then Lead else if base == [] then p.pos else Under(base));
    ReadUnit(g, q, base, base, u, t, more);
    assert [] + base == base;
    if g.header(base + u.header) {
      ViableIsOpen(g, [], base, u.header);
      PrependTwice(if u.absolute then [Colon] else Flat(base), Join(u.header) + u.args,
                   if t.Semi? then Prepend([t], Meaning(g, Parser(Next, p.ran + [Command(base + u.header, u.args)]),
                                                        InForce(g, h, first, u), true, more))
                   else Trace([t], Parser(Accepted, p.ran + [Command(base + u.header, u.args)]), false));
    }
  }

  lemma SpellStep(us: seq<Unit>)
    requires AllWellFormed(us)
    ensures Spell(us) == Spelled(us[0], if |us| == 1 then [End] + [] else [Semi] + Spell(us[1..]))
  {
    assert [End] + [] == [End];
  }

  /** The whole message: the loop pushes the expansion and runs the resolved commands
      when they all resolve; it fails its assertion exactly on a pathless unit reached
      before a unit that does not resolve; otherwise the message is refused. */
  lemma {:induction false} Message(g: Grammar, p: Parser, h: seq<Key>, first: bool, us: seq<Unit>)
    requires g.Valid() && AllWellFormed(us) && p.pos == (if first then Fresh else Next) && (first ==> h == [])
    ensures var r := Meaning(g, p, h, !first, Spell(us));
            && (Runs(g, h, first, us) ==>
                  r == Trace(Expand(g, h, first, us), Parser(Accepted, p.ran + Resolve(g, h, first, us)), false))
            && (r.crashed <==> Stuck(g, h, first, us))
            && (!Runs(g, h, first, us) && !r.crashed ==> r.last.pos.Rejected?)
    decreases |us|
  {
    hide Push, Meaning, Full, InForce, Own, Spell, Spelled, Pathless;
    var u, t, more := us[0], if |us| == 1 then End else Semi, if |us| == 1 then [] else Spell(us[1..]);
    SpellStep(us);
    if Pathless(h, first, u) {
      PathlessIs(h, first, u);
      PathlessCrashes(g, p, u, [t] + more);
    } else {
      OneUnit(g, p, h, first, u, t, more);
      if g.header(Full(h, first, u)) {
        var ran := p.ran + [Command(Full(h, first, u), u.args)];
        if |us| > 1 {
          Message(g, Parser(Next, ran), InForce(g, h, first, u), false, us[1..]);
        }
        Assemble(g, h, first, us, p.ran);
      }
    }
  }

  /** A line that starts with ';' is legal and leaves no path: its message runs as one
      that follows a unit without a path, so a first unit without ':' fails the assertion. */
  lemma LeadingSeparator(g: Grammar, us: seq<Unit>)
    requires g.Valid() && AllWellFormed(us)
    ensures var r := Meaning(g, START, [], false, [Semi] + Spell(us));
            && (Runs(g, [], false, us) ==>
                  r == Trace([Semi] + Expand(g, [], false, us), Parser(Accepted, Resolve(g, [], false, us)), false))
            && (r.crashed <==> Stuck(g, [], false, us))
            && (!us[0].absolute ==> r.crashed)
            && (!Runs(g, [], false, us) && !r.crashed ==> r.last.pos.Rejected?)
  {
    hide Spell, Expand, Resolve;
    var p := Parser(Next, []);
    Unroll(g, START, [], [Semi] + Spell(us));
    assert ([Semi] + Spell(us))[1..] == Spell(us);
    Message(g, p, [], false, us);
    assert [] + Resolve(g, [], false, us) == Resolve(g, [], false, us);
  }

  lemma Assemble(g: Grammar, h: seq<Key>, first: bool, us: seq<Unit>, ran: seq<Command>)
    requires AllWellFormed(us)
    ensures var u, h' := us[0], InForce(g, h, first, us[0]);
            var tokens := Own(h, first, u);
            var ran' := ran + [Command(Full(h, first, u), u.args)];
            if |us| == 1 then
              tokens + [End] == Expand(g, h, first, us) && ran' == ran + Resolve(g, h, first, us)
            else
              && tokens + ([Semi] + Expand(g, h', false, us[1..])) == Expand(g, h, first, us)
              && ran' + Resolve(g, h', false, us[1..]) == ran + Resolve(g, h, first, us)
  {
    hide Own, InForce, Full;
    var u, h' := us[0], InForce(g, h, first, us[0]);
    assert [Command(Full(h, first, u), u.args)] + [] == [Command(Full(h, first, u), u.args)];
    if |us| > 1 {
      var one, rest := [Command(Full(h, first, u), u.args)], Resolve(g, h', false, us[1..]);
      assert ran + (one + rest) == ran + one + rest;
    }
  }

  lemma PathlessCrashes(g: Grammar, p: Parser, u: Unit, rest: seq<Token>)
    requires WellFormed(u) && p.pos.Next? && !u.absolute
    ensures Meaning(g, p, [], true, Spelled(u, rest)) == Trace([], p, true)
  {
    assert Spelled(u, rest)[0] == Word(u.header[0]);
  }

  /** Every unit followed by ';', and then `rest`. */
  function SpellOpen(us: seq<Unit>, rest: seq<Token>): seq<Token>
    requires AllWellFormed(us)
    decreases |us|
  {
    Spelled(us[0], [Semi] + if |us| == 1 then rest else SpellOpen(us[1..], rest))
  }

  lemma SpellOpenStep(us: seq<Unit>, rest: seq<Token>)
    requires AllWellFormed(us)
    ensures SpellOpen(us, rest) == Spelled(us[0], [Semi] + if |us| == 1 then rest else SpellOpen(us[1..], rest))
  {
  }

  /** The path in force after the whole message. */
  function LastPath(g: Grammar, h: seq<Key>, first: bool, us: seq<Unit>): seq<Key>
    requires AllWellFormed(us)
    decreases |us|
  {
    var h' := InForce(g, h, first, us[0]);
    if |us| == 1 then h' else LastPath(g, h', false, us[1..])
  }

  lemma RefusedDirect(g: Grammar, p: Parser, h: seq<Key>, rest: seq<Token>)
    requires p.pos.Under? && rest != [] && !rest[0].Word?
    ensures var r := Direct(g, p, h, rest); r.last == p.(pos := Rejected) && !r.crashed
  {
    var q := p.(pos := Rejected);
    assert Push(g, p, rest[0]) == (q, NoHook);
    assert Meaning(g, q, h, false, rest[1..]) == Trace([], q, false);
  }

  /** After ';', a token that cannot begin a unit: the path is replayed before it is
      refused, and with no path the assertion fails. */
  lemma NoUnit(g: Grammar, p: Parser, h: seq<Key>, rest: seq<Token>)
    requires p.pos.Next? && rest != [] && !rest[0].Word? && !rest[0].Colon?
    ensures var r := Meaning(g, p, h, true, rest);
            && (r.crashed <==> h == [])
            && (!r.crashed ==> r.last == p.(pos := Rejected)) && (r.crashed ==> r.last == p)
  {
    if h != [] {
      assert Meaning(g, p, h, true, rest) == Expanded(g, p, h, Flat(h), rest);
      hide Push, Meaning, Direct, Feed;
      if Open(g, [], h) {
        FeedOpen(g, p, [], h);
        assert [] + h == h;
        RefusedDirect(g, p.(pos := Under(h)), h, rest);
      } else {
        FeedShut(g, p, [], h);
      }
    }
  }

  /** A message whose last ';' is followed by no unit, as by the end of the line: it fails
      the assertion exactly when it gets stuck, or when all its commands run and the last
      leaves no path; else it is refused.  Its commands have run by then. */
  lemma {:induction false} OpenMessage(g: Grammar, p: Parser, h: seq<Key>, first: bool, us: seq<Unit>, rest: seq<Token>)
    requires g.Valid() && AllWellFormed(us) && p.pos == (if first then Fresh else Next) && (first ==> h == [])
    requires rest != [] && !rest[0].Word? && !rest[0].Colon?
    ensures var r := Meaning(g, p, h, !first, SpellOpen(us, rest));
            && (r.crashed <==> Stuck(g, h, first, us) || (Runs(g, h, first, us) && LastPath(g, h, first, us) == []))
            && (!r.crashed ==> r.last.pos.Rejected?)
            && (Runs(g, h, first, us) ==> r.last.ran == p.ran + Resolve(g, h, first, us))
    decreases |us|
  {
    hide Push, Meaning, Full, InForce, Own, Spelled, SpellOpen, Expand, Resolve, Pathless;
    SpellOpenStep(us, rest);
    Assemble(g, h, first, us, p.ran);
    var u, more := us[0], if |us| == 1 then rest else SpellOpen(us[1..], rest);
    if Pathless(h, first, u) {
      PathlessIs(h, first, u);
      PathlessCrashes(g, p, u, [Semi] + more);
    } else {
      OneUnit(g, p, h, first, u, Semi, more);
      if g.header(Full(h, first, u)) {
        var h', q := InForce(g, h, first, u), Parser(Next, p.ran + [Command(Full(h, first, u), u.args)]);
        if |us| == 1 {
          NoUnit(g, q, h', rest);
        } else {
          OpenMessage(g, q, h', false, us[1..], rest);
        }
      }
    }
  }

  lemma PathlessIs(h: seq<Key>, first: bool, u: Unit)
    ensures Pathless(h, first, u) <==> !first && !u.absolute && h == []
  {
  }

  /** The same after a leading ';'; and a line of ';' alone fails at once. */
  lemma LeadingOpenMessage(g: Grammar, us: seq<Unit>, rest: seq<Token>)
    requires g.Valid() && AllWellFormed(us) && rest != [] && !rest[0].Word? && !rest[0].Colon?
    ensures var r := Meaning(g, START, [], false, [Semi] + SpellOpen(us, rest));
            && (r.crashed <==> Stuck(g, [], false, us) || (Runs(g, [], false, us) && LastPath(g, [], false, us) == []))
            && (!r.crashed ==> r.last.pos.Rejected?)
            && (Runs(g, [], false, us) ==> r.last.ran == Resolve(g, [], false, us))
    ensures Meaning(g, START, [], false, [Semi] + rest).crashed
  {
    hide SpellOpen, Resolve, Runs, Stuck, LastPath, Grammar.Valid;
    var p := Parser(Next, []);
    Unroll(g, START, [], [Semi] + SpellOpen(us, rest));
    Unroll(g, START, [], [Semi] + rest);
    assert ([Semi] + SpellOpen(us, rest))[1..] == SpellOpen(us, rest) && ([Semi] + rest)[1..] == rest;
    hide Meaning;
    OpenMessage(g, p, [], false, us, rest);
    NoUnit(g, p, [], rest);
    assert [] + Resolve(g, [], false, us) == Resolve(g, [], false, us);
  }
}
