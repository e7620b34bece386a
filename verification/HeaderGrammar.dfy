/** The program-header grammar as the push parser sees it: tokens, header tree, hooks.

    A header is a path of mnemonics.  The grammar says which paths are complete
    commands, which paths may be followed by ':' and which paths run the
    add-prefix hook.  Hook reductions happen in consistent parser states, so they
    fire as soon as the mnemonic is pushed. */
module HeaderGrammar {

  /** A mnemonic token; the parser generator numbers them. */
  type Key = nat

  datatype Token =
    | Word(key: Key)
    | Data(text: string)
    | Colon
    | Semi
    | End

  /** Deepest header path of the grammar: half of MAX_CMD_DEPTH. */
  const MAX_PATH := 5

  datatype Grammar = Grammar(
    header: seq<Key> -> bool,
    branch: seq<Key> -> bool,
    hooked: seq<Key> -> bool,
    common: Key -> bool)
  {
    predicate Viable(path: seq<Key>) { header(path) || branch(path) }

    /** Paths are non-empty, no deeper than the prefix array allows, every parent of
        a path is a branch, and common ('*') mnemonics are commands of their own. */
    ghost predicate Valid() {
      && (forall p :: Viable(p) ==> 0 < |p| <= MAX_PATH)
      && (forall p :: Viable(p) && |p| > 1 ==> branch(p[..|p| - 1]))
      && (forall p :: Viable(p) && |p| > 1 ==> !common(p[|p| - 1]))
    }
  }

  datatype Command = Command(path: seq<Key>, args: seq<Token>)

  datatype Position =
    | Fresh                                    // nothing pushed yet
    | Next                                     // just after ';', which may also come first
    | Lead                                     // after a leading ':'
    | At(path: seq<Key>)                       // a mnemonic was the last token
    | Under(path: seq<Key>)                    // a ':' inside the header was the last token
    | Args(path: seq<Key>, args: seq<Token>)   // reading parameters
    | Accepted
    | Rejected

  datatype Parser = Parser(pos: Position, ran: seq<Command>)
  {
    predicate Stopped() { pos.Accepted? || pos.Rejected? }
  }

  datatype Hook = NoHook | Separator(value: bool) | AddPrefix(key: Key)

  function Reject(p: Parser): (Parser, Hook) { (p.(pos := Rejected), NoHook) }

  function Enter(g: Grammar, p: Parser, path: seq<Key>, k: Key): (Parser, Hook) {
    var path' := path + [k];
    if g.Viable(path') then
      (p.(pos := At(path')), if g.hooked(path') then AddPrefix(k) else NoHook)
    else
      Reject(p)
  }

  function Finish(g: Grammar, p: Parser, path: seq<Key>, args: seq<Token>, t: Token): (Parser, Hook)
    requires t.Semi? || t.End?
  {
    if !g.header(path) then Reject(p)
    else
      var ran' := p.ran + [Command(path, args)];
      if t.Semi? then (Parser(Next, ran'), Separator(true)) else (Parser(Accepted, ran'), NoHook)
  }

  /** One yypush_parse call: the new parser state and the hook its reductions run. */
  function Push(g: Grammar, p: Parser, t: Token): (Parser, Hook) {
    match p.pos
    case Accepted => (p, NoHook)
    case Rejected => (p, NoHook)
    case Fresh =>
      if t.Colon? then (p.(pos := Lead), Separator(false))
      else if t.Word? then Enter(g, p, [], t.key)
      else if t.Semi? then (p.(pos := Next), Separator(true))
      else if t.End? then (p.(pos := Accepted), NoHook)
      else Reject(p)
    case Next =>
      if t.Colon? then (p.(pos := Lead), Separator(false))
      else if t.Word? then Enter(g, p, [], t.key)
      else Reject(p)
    case Lead =>
      if t.Word? then Enter(g, p, [], t.key) else Reject(p)
    case At(path) =>
      if t.Colon? then (if g.branch(path) then (p.(pos := Under(path)), NoHook) else Reject(p))
      else if t.Semi? || t.End? then Finish(g, p, path, [], t)
      else if g.header(path) then (p.(pos := Args(path, [t])), NoHook)
      else Reject(p)
    case Under(path) =>
      if t.Word? then Enter(g, p, path, t.key) else Reject(p)
    case Args(path, args) =>
      if t.Semi? || t.End? then Finish(g, p, path, args, t)
      else (p.(pos := Args(path, args + [t])), NoHook)
  }

  const START := Parser(Fresh, [])

  /** What the prefix array holds for a path: every mnemonic followed by ':'. */
  function Flat(h: seq<Key>): (ts: seq<Token>)
    ensures |ts| == 2 * |h|
  {
    if h == [] then [] else [Word(h[0]), Colon] + Flat(h[1..])
  }

  lemma {:induction false} FlatAt(h: seq<Key>, i: nat)
    requires i < 2 * |h|
    ensures Flat(h)[i] == if i % 2 == 0 then Word(h[i / 2]) else Colon
  {
    if i >= 2 { FlatAt(h[1..], i - 2); }
  }

  lemma {:induction false} FlatAppend(h: seq<Key>, k: Key)
    ensures Flat(h + [k]) == Flat(h) + [Word(k), Colon]
  {
    if h == [] {
      assert [k][1..] == [];
    } else {
      FlatAppend(h[1..], k);
      assert (h + [k])[1..] == h[1..] + [k];
    }
  }
}
