/** The lexer/parser feedback loop that implements header compounding
    (section 7.6.1.5 of IEEE 488.2), and the simple meaning it refines. */
module ParserLoop {
  import opened HeaderGrammar

  /** Tokens pushed, the parser they lead to, and whether the loop's
      `assert(token)` failed because there was no prefix to replay. */
  datatype Trace = Trace(pushed: seq<Token>, last: Parser, crashed: bool)

  function Prepend(ts: seq<Token>, r: Trace): Trace { r.(pushed := ts + r.pushed) }

  lemma PrependTwice(a: seq<Token>, b: seq<Token>, r: Trace)
    ensures Prepend(a, Prepend(b, r)) == Prepend(a + b, r)
  {
    assert a + (b + r.pushed) == a + b + r.pushed;
  }

  /** The path in force after a hook ran. */
  function PathAfter(h: seq<Key>, hook: Hook): seq<Key> {
    match hook
    case NoHook => h
    case AddPrefix(k) => h + [k]
    case Separator(v) => if v then h else []
  }

  /** Push tokens with the hooks off until the parser stops. */
  function Feed(g: Grammar, p: Parser, ts: seq<Token>): Trace
    decreases |ts|
  {
    if ts == [] || p.Stopped() then Trace([], p, false)
    else Prepend([ts[0]], Feed(g, Push(g, p, ts[0]).0, ts[1..]))
  }

  /** The meaning of a token line, one lexer token at a time: after ';' a token other
      than ':' is preceded by the whole path in force, in one go. */
  function Meaning(g: Grammar, p: Parser, h: seq<Key>, separator: bool, line: seq<Token>): Trace
    decreases |line|, 2
  {
    if line == [] || p.Stopped() then Trace([], p, false)
    else if separator && !line[0].Colon? then
      if h == [] then Trace([], p, true) else Expanded(g, p, h, Flat(h), line)
    else Direct(g, p, h, line)
  }

  /** Push what is left of the path, then the line. */
  function Expanded(g: Grammar, p: Parser, h: seq<Key>, lead: seq<Token>, line: seq<Token>): Trace
    requires line != []
    decreases |line|, 1
  {
    var r := Feed(g, p, lead);
    if r.last.Stopped() then r else Prepend(r.pushed, Direct(g, r.last, h, line))
  }

  /** Push the first token of the line itself, with its hook. */
  function Direct(g: Grammar, p: Parser, h: seq<Key>, line: seq<Token>): Trace
    requires line != []
    decreases |line|, 0
  {
    var (q, hook) := Push(g, p, line[0]);
    Prepend([line[0]], Meaning(g, q, PathAfter(h, hook), hook == Separator(true), line[1..]))
  }

  lemma ExpandedStep(g: Grammar, p: Parser, h: seq<Key>, lead: seq<Token>, line: seq<Token>)
    requires line != [] && lead != [] && !p.Stopped()
    ensures Expanded(g, p, h, lead, line)
         == Prepend([lead[0]], Expanded(g, Push(g, p, lead[0]).0, h, lead[1..], line))
  {
    var q := Push(g, p, lead[0]).0;
    var r := Feed(g, q, lead[1..]);
    if !r.last.Stopped() {
      PrependTwice([lead[0]], r.pushed, Direct(g, r.last, h, line));
    }
  }

  lemma ExpandedDone(g: Grammar, p: Parser, h: seq<Key>, line: seq<Token>)
    requires line != [] && !p.Stopped()
    ensures Expanded(g, p, h, [], line) == Direct(g, p, h, line)
  {
    assert [] + Direct(g, p, h, line).pushed == Direct(g, p, h, line).pushed;
  }

  lemma EndStops(g: Grammar, p: Parser)
    ensures Push(g, p, End).0.Stopped()
  {
  }

  /** What is still to be pushed, for each of the loop's states. */
  ghost function Pending(g: Grammar, p: Parser, h: seq<Key>, separator: bool, state: LoopState,
                         active: bool, idx: nat, line: seq<Token>): Trace
  {
    if p.Stopped() then Trace([], p, false)
    else if state == Lex then Meaning(g, p, h, separator, line)
    else if line == [] || idx > 2 * |h| then Trace([], p, true)
    else if active then Expanded(g, p, h, Flat(h)[idx..], line)
    else Direct(g, p, h, line)
  }

  datatype LoopState = Lex | Prefix

  /** Where the parser stands after i > 0 tokens of a replayed path. */
  predicate MidReplay(pos: Position, h: seq<Key>, i: nat)
    requires 0 < i <= 2 * |h|
  {
    if i % 2 == 1 then pos == At(h[..(i + 1) / 2]) else pos == Under(h[..i / 2])
  }

  lemma ReplayPush(g: Grammar, p: Parser, h: seq<Key>, i: nat, c: Token)
    requires i < 2 * |h| && c == if i % 2 == 0 then Word(h[i / 2]) else Colon
    requires if i == 0 then p.pos.Next? else MidReplay(p.pos, h, i)
    ensures var (q, hook) := Push(g, p, c);
            (q.Stopped() || MidReplay(q.pos, h, i + 1))
            && !hook.Separator? && (i == 2 * |h| - 1 ==> hook == NoHook)
  {
    var n := i / 2;
    if i % 2 == 0 {
      assert (if i == 0 then [] else h[..n]) + [h[n]] == h[..n + 1];
      assert (i + 1) % 2 == 1 && (i + 1 + 1) / 2 == n + 1;
    } else {
      assert (i + 1) / 2 == n + 1 && (i + 1) % 2 == 0;
    }
  }

  lemma ReplayStep(g: Grammar, p: Parser, h: seq<Key>, i: nat)
    requires i < 2 * |h|
    requires if i == 0 then p.pos.Next? else MidReplay(p.pos, h, i)
    ensures var (q, hook) := Push(g, p, Flat(h)[i]);
            (q.Stopped() || MidReplay(q.pos, h, i + 1))
            && !hook.Separator? && (i == 2 * |h| - 1 ==> hook == NoHook)
  {
    FlatAt(h, i);
    ReplayPush(g, p, h, i, Flat(h)[i]);
  }

  /** The meaning of one replayed token, and where it leaves the parser. */
  lemma ReplayMeaning(g: Grammar, p: Parser, h: seq<Key>, i: nat, line: seq<Token>)
    requires line != [] && i < 2 * |h| && !p.Stopped()
    requires if i == 0 then p.pos.Next? else MidReplay(p.pos, h, i)
    ensures var c := Flat(h)[i]; var (q, hook) := Push(g, p, c); var last := i + 1 == 2 * |h|;
            && !hook.Separator? && (last ==> hook == NoHook)
            && (q.Stopped() || (if last then q.pos == Under(h) else MidReplay(q.pos, h, i + 1)))
            && Expanded(g, p, h, Flat(h)[i..], line)
            == Prepend([c], Pending(g, q, h, !last, Prefix, !last, if last then 0 else i + 1, line))
  {
    ReplayStep(g, p, h, i);
    ExpandedStep(g, p, h, Flat(h)[i..], line);
    assert Flat(h)[i..][1..] == Flat(h)[i + 1..];
    var q := Push(g, p, Flat(h)[i]).0;
    if i + 1 == 2 * |h| && !q.Stopped() {
      assert (i + 1) / 2 == |h| && (i + 1) % 2 == 0 && h[..|h|] == h && Flat(h)[i + 1..] == [];
      ExpandedDone(g, q, h, line);
    }
  }

  /** The meaning of one token of the line itself. */
  lemma DirectMeaning(g: Grammar, p: Parser, h: seq<Key>, line: seq<Token>)
    requires line != [] && line[|line| - 1] == End
    ensures var (q, hook) := Push(g, p, line[0]);
            && (q.Stopped() || |line| > 1)
            && Direct(g, p, h, line)
            == Prepend([line[0]], Pending(g, q, PathAfter(h, hook), hook == Separator(true), Lex, false, 0, line[1..]))
  {
    EndStops(g, p);
  }

  /** Number of mnemonics of the command the parser is inside. */
  function Depth(pos: Position): nat {
    match pos
    case At(path) => |path|
    case Under(path) => |path|
    case Args(path, _) => |path|
    case _ => 0
  }

  /** The hooked path fits: never more hooked mnemonics than the header is deep. */
  predicate Fits(pos: Position, h: seq<Key>) {
    |h| <= MAX_PATH && match pos
                       case Next => true
                       case Accepted => true
                       case Rejected => true
                       case _ => |h| <= Depth(pos)
  }

  lemma EnteredDepth(g: Grammar, p: Parser, t: Token)
    requires g.Valid()
    ensures Push(g, p, t).0.pos.At? ==> |Push(g, p, t).0.pos.path| <= MAX_PATH
  {
    var q := Push(g, p, t).0;
    if q.pos.At? { assert g.Viable(q.pos.path); }
  }

  lemma FitsStep(g: Grammar, p: Parser, h: seq<Key>, t: Token)
    requires g.Valid() && Fits(p.pos, h) && (p.pos.Next? ==> t.Colon? || h == [])
    ensures var (q, hook) := Push(g, p, t); Fits(q.pos, PathAfter(h, hook))
  {
    EnteredDepth(g, p, t);
    FitsPush(g, p, h, t);
  }

  lemma FitsPush(g: Grammar, p: Parser, h: seq<Key>, t: Token)
    requires Fits(p.pos, h) && (p.pos.Next? ==> t.Colon? || h == [])
    requires Push(g, p, t).0.pos.At? ==> |Push(g, p, t).0.pos.path| <= MAX_PATH
    ensures var (q, hook) := Push(g, p, t); Fits(q.pos, PathAfter(h, hook))
  {
  }

  /** The parser is just after ';' exactly when it has run the separator hook. */
  lemma NextIffSeparator(g: Grammar, p: Parser, t: Token)
    requires !p.Stopped() && (p.pos.Next? ==> t.Colon?)
    ensures var (q, hook) := Push(g, p, t); q.pos.Next? <==> hook == Separator(true)
  {
  }

  /** struct parser's feedback fields and the push parser they drive. */
  class Loop {
    var separator: bool
    var prefixLength: nat
    const prefix: array<Token>
    var replayActive: bool
    var replayIdx: nat
    var ps: Parser

    constructor ()
      ensures fresh(prefix) && prefix.Length == 2 * MAX_PATH
    {
      separator, prefixLength, replayActive, replayIdx, ps := false, 0, false, 0, START;
      prefix := new Token[2 * MAX_PATH](_ => End);
    }

    /** The prefix array is the path h, every unused slot zero. */
    ghost predicate Holds(h: seq<Key>)
      reads this, prefix
    {
      && prefix.Length == 2 * MAX_PATH && |h| <= MAX_PATH
      && prefixLength == 2 * |h| && prefix[..prefixLength] == Flat(h)
      && forall i :: prefixLength <= i < prefix.Length ==> prefix[i] == End
    }

    method ReplayReset()
      modifies this
      ensures !replayActive && replayIdx == 0 && !separator
      ensures prefixLength == old(prefixLength) && ps == old(ps)
    {
      replayActive, replayIdx, separator := false, 0, false;
    }

    method ReplayPrefix() returns (token: Token)
      requires replayIdx < prefix.Length
      modifies this
      ensures token == old(prefix[replayIdx])
      ensures if old(replayIdx) + 1 == prefixLength then !replayActive && replayIdx == 0 && !separator
              else replayActive == old(replayActive) && replayIdx == old(replayIdx) + 1 && separator == old(separator)
      ensures prefixLength == old(prefixLength) && ps == old(ps)
    {
      token := prefix[replayIdx];
      replayIdx := replayIdx + 1;
      if replayIdx == prefixLength {
        ReplayReset();
      }
    }

    method ReplayActive() returns (active: bool)
      modifies this
      ensures active == replayActive == (old(replayActive) || separator)
      ensures separator == old(separator) && prefixLength == old(prefixLength)
      ensures replayIdx == old(replayIdx) && ps == old(ps)
    {
      if !replayActive && separator {
        replayActive := true;
      }
      active := replayActive;
    }

    /** parser_separator: a leading ':' also drops the path. */
    method SetSeparator(value: bool, ghost h: seq<Key>)
      requires Holds(h)
      modifies this, prefix
      ensures separator == value && ps == old(ps) && replayIdx == old(replayIdx)
      ensures Holds(if value then h else [])
      ensures replayActive == (value && old(replayActive))
    {
      separator := value;
      if !value {
        replayActive, prefixLength := false, 0;
        forall i | 0 <= i < prefix.Length { prefix[i] := End; }
      }
    }

    /** parser_add_prefix: records the mnemonic unless a path is being replayed. */
    method AddKey(key: Key, ghost h: seq<Key>)
      requires Holds(h) && (!replayActive ==> |h| < MAX_PATH)
      modifies this, prefix
      ensures Holds(if replayActive then h else h + [key])
      ensures separator == old(separator) && replayActive == old(replayActive)
      ensures replayIdx == old(replayIdx) && ps == old(ps)
    {
      if !replayActive {
        assert prefix[..prefixLength] == Flat(h);
        prefix[prefixLength] := Word(key);
        prefix[prefixLength + 1] := Colon;
        prefixLength := prefixLength + 2;
        FlatAppend(h, key);
        assert prefix[..prefixLength] == Flat(h) + [Word(key), Colon];
      }
    }

    /** yypush_parse with its grammar actions. */
    method PushParse(g: Grammar, c: Token, ghost h: seq<Key>)
      requires g.Valid() && Holds(h)
      requires var hook := Push(g, ps, c).1;
               !hook.NoHook? ==> if replayActive then hook != Separator(true) else Fits(Push(g, ps, c).0.pos, PathAfter(h, hook))
      modifies this, prefix
      ensures var (q, hook) := Push(g, old(ps), c);
              && ps == q && replayIdx == old(replayIdx)
              && Holds(if old(replayActive) && hook.AddPrefix? then h else PathAfter(h, hook))
              && separator == (if hook.Separator? then hook.value else old(separator))
              && replayActive == (old(replayActive) && hook != Separator(false))
    {
      var (q, hook) := Push(g, ps, c);
      ps := q;
      match hook
      case NoHook =>
      case AddPrefix(key) =>
        assert !replayActive ==> |h + [key]| <= MAX_PATH;
        AddKey(key, h);
      case Separator(value) => SetSeparator(value, h);
    }

    /** The loop's control state, between two pushes. */
    ghost predicate Ready(h: seq<Key>, state: LoopState, suffix: Token, tokens: seq<Token>, next: nat)
      reads this, prefix
    {
      && Holds(h) && next <= |tokens| && !ps.Stopped()
      && match state
         case Lex =>
           next < |tokens| && !replayActive && replayIdx == 0 && separator == ps.pos.Next? && Fits(ps.pos, h)
         case Prefix =>
           && 0 < next && tokens[next - 1] == suffix
           && if replayActive then 0 < replayIdx < prefixLength && separator && MidReplay(ps.pos, h, replayIdx)
              else replayIdx == 0 && !separator && ps.pos == Under(h)
    }

    ghost function Rest(g: Grammar, h: seq<Key>, state: LoopState, tokens: seq<Token>, next: nat): Trace
      requires next <= |tokens| && (state == Prefix ==> 0 < next)
      reads this
    {
      Pending(g, ps, h, separator, state, replayActive, replayIdx, tokens[if state == Lex then next else next - 1..])
    }

    /** The LEX state: read a token; after ';' hold it back and start the replay. */
    method PassLex(g: Grammar, tokens: seq<Token>, next: nat, ghost h: seq<Key>)
      returns (c: Token, ok: bool, state: LoopState, suffix: Token, ghost h': seq<Key>)
      requires g.Valid() && Ready(h, Lex, End, tokens, next) && tokens[|tokens| - 1] == End
      modifies this, prefix
      ensures !ok ==> Trace([], ps, true) == old(Rest(g, h, Lex, tokens, next))
      ensures ok ==> old(Rest(g, h, Lex, tokens, next)) == Prepend([c], Rest(g, h', state, tokens, next + 1))
      ensures ok ==> ps.Stopped() || Ready(h', state, suffix, tokens, next + 1)
    {
      hide Push, Feed, Expanded, Direct;
      c, ok, state, suffix, h' := tokens[next], true, Lex, End, h;
      var active := ReplayActive();
      if active && c != Colon {
        suffix, state := c, Prefix;
        assert h != [] ==> prefix[..prefixLength][0] == Flat(h)[0];
        ok := prefix[0] != End;
        if ok {
          ReplayMeaning(g, ps, h, 0, tokens[next..]);
          assert Flat(h)[0..] == Flat(h);
          c := Replay(g, h);
        }
      } else {
        DirectMeaning(g, ps, h, tokens[next..]);
        h' := PathAfter(h, Push(g, ps, c).1);
        PushDirect(g, c, h);
      }
    }

    /** The PREFIX state: the rest of the path, then the token held back. */
    method PassPrefix(g: Grammar, suffix: Token, tokens: seq<Token>, next: nat, ghost h: seq<Key>)
      returns (c: Token, state: LoopState, ghost h': seq<Key>)
      requires g.Valid() && Ready(h, Prefix, suffix, tokens, next) && tokens[|tokens| - 1] == End
      modifies this, prefix
      ensures old(Rest(g, h, Prefix, tokens, next)) == Prepend([c], Rest(g, h', state, tokens, next))
      ensures ps.Stopped() || Ready(h', state, suffix, tokens, next)
      ensures state == if old(replayActive) then Prefix else Lex
      ensures old(replayActive) && !ps.Stopped() && replayActive ==>
                prefixLength == old(prefixLength) && replayIdx > old(replayIdx)
    {
      hide Push, Feed, Meaning, Expanded, Direct;
      var active := ReplayActive();
      if active {
        state, h' := Prefix, h;
        ReplayMeaning(g, ps, h, replayIdx, tokens[next - 1..]);
        c := Replay(g, h);
      } else {
        c, state := suffix, Lex;
        DirectMeaning(g, ps, h, tokens[next - 1..]);
        h' := PathAfter(h, Push(g, ps, c).1);
        PushDirect(g, c, h);
      }
    }

    /** A token of the line itself, pushed with its hook. */
    method PushDirect(g: Grammar, c: Token, ghost h: seq<Key>)
      requires g.Valid() && Holds(h) && !ps.Stopped() && Fits(ps.pos, h)
      requires replayIdx == 0 && separator == replayActive == ps.pos.Next? && (separator ==> c == Colon)
      modifies this, prefix
      ensures var (q, hook) := Push(g, old(ps), c);
              && ps == q && Holds(PathAfter(h, hook)) && separator == (hook == Separator(true)) && replayIdx == 0
              && (!q.Stopped() ==> !replayActive && separator == q.pos.Next? && Fits(q.pos, PathAfter(h, hook)))
    {
      FitsStep(g, ps, h, c);
      NextIffSeparator(g, ps, c);
      hide Push, Fits;
      PushParse(g, c, h);
    }

    /** A token of the recorded path, pushed with the hooks off. */
    method Replay(g: Grammar, ghost h: seq<Key>) returns (c: Token)
      requires g.Valid() && Holds(h) && replayActive && separator && replayIdx < prefixLength
      requires var hook := Push(g, ps, Flat(h)[replayIdx]).1;
               !hook.Separator? && (replayIdx + 1 == prefixLength ==> hook == NoHook)
      modifies this, prefix
      ensures c == Flat(h)[old(replayIdx)] && ps == Push(g, old(ps), c).0 && Holds(h) && prefixLength == old(prefixLength)
      ensures if old(replayIdx) + 1 == prefixLength then !replayActive && replayIdx == 0 && !separator
              else replayActive && replayIdx == old(replayIdx) + 1 && separator
    {
      assert prefix[replayIdx] == prefix[..prefixLength][replayIdx];
      c := ReplayPrefix();
      PushParse(g, c, h);
    }

    /** parser_send_line's reset, up to the loop. */
    method Begin(g: Grammar, tokens: seq<Token>)
      requires prefix.Length == 2 * MAX_PATH && tokens != []
      modifies this, prefix
      ensures Ready([], Lex, End, tokens, 0)
      ensures Rest(g, [], Lex, tokens, 0) == Meaning(g, START, [], false, tokens)
    {
      hide Push, Meaning, Feed, Expanded, Direct;
      ps := START;
      separator, replayActive, prefixLength := false, false, 0;
      forall i | 0 <= i < prefix.Length { prefix[i] := End; }
      ReplayReset();
      assert Flat([]) == [] && prefix[..0] == [] && tokens[0..] == tokens;
    }

    /** Nothing is pending once the parser has stopped. */
    lemma Halted(g: Grammar, h: seq<Key>, state: LoopState, tokens: seq<Token>, next: nat)
      requires next <= |tokens| && (state == Prefix ==> 0 < next) && ps.Stopped()
      ensures Rest(g, h, state, tokens, next) == Trace([], ps, false)
    {
    }

    /** parser_send_line and parser_loop for one line: `ok` is false when
        `assert(token)` fails.  No other assertion of the loop can fail. */
    method SendLine(g: Grammar, line: seq<Token>) returns (pushed: seq<Token>, ok: bool)
      requires g.Valid() && prefix.Length == 2 * MAX_PATH
      modifies this, prefix
      ensures Trace(pushed, ps, !ok) == Meaning(g, START, [], false, line + [End])
    {
      hide Push, Meaning, Feed, Expanded, Direct, Pending, Flat, MidReplay, Fits, Grammar.Valid, Rest;
      var tokens := line + [End];
      Begin(g, tokens);
      ghost var h: seq<Key> := [];
      var state, suffix, next: nat := Lex, End, 0;
      pushed, ok := [], true;
      ghost var whole := Rest(g, h, state, tokens, next);
      assert [] + whole.pushed == whole.pushed;
      while !ps.Stopped()
        invariant prefix.Length == 2 * MAX_PATH && next <= |tokens| && (state == Prefix ==> 0 < next)
        invariant !ps.Stopped() ==> Ready(h, state, suffix, tokens, next)
        invariant whole == Prepend(pushed, Rest(g, h, state, tokens, next))
        decreases !ps.Stopped(), |tokens| - next, state == Prefix, if replayActive && replayIdx <= prefixLength then 1 + prefixLength - replayIdx else 0
      {
        var c: Token;
        match state {
          case Lex =>
            c, ok, state, suffix, h := PassLex(g, tokens, next, h);
            if !ok {
              return;
            }
            next := next + 1;
          case Prefix =>
            c, state, h := PassPrefix(g, suffix, tokens, next, h);
        }
        PrependTwice(pushed, [c], Rest(g, h, state, tokens, next));
        pushed := pushed + [c];
      }
      Halted(g, h, state, tokens, next);
    }
  }
}
