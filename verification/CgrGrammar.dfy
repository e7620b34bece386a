/** The header tree of the CGR-101 grammar: commands, branches and add-prefix hooks. */
module CgrGrammar {
  import opened HeaderGrammar
  import opened ParserLoop
  import opened Compounding
  import opened StandardPath

  const CLS: Key := 0
  const ESE: Key := 1
  const ESEQ: Key := 2
  const ESRQ: Key := 3
  const IDNQ: Key := 4
  const OPC: Key := 5
  const OPCQ: Key := 6
  const RST: Key := 7
  const SRE: Key := 8
  const SREQ: Key := 9
  const STBQ: Key := 10
  const TSTQ: Key := 11
  const WAI: Key := 12
  const ABOR: Key := 13
  const ALL: Key := 14
  const CAL: Key := 15
  const CAPQ: Key := 16
  const COMM: Key := 17
  const CONC: Key := 18
  const CONDQ: Key := 19
  const CONF: Key := 20
  const CONFQ: Key := 21
  const CONTQ: Key := 22
  const COUNQ: Key := 23
  const COUP: Key := 24
  const DAT: Key := 25
  const DATQ: Key := 26
  const DC: Key := 27
  const DCYC: Key := 28
  const DCYCQ: Key := 29
  const DIG: Key := 30
  const ECHO: Key := 31
  const ENAB: Key := 32
  const ENABQ: Key := 33
  const ERR: Key := 34
  const ERRQ: Key := 35
  const EVEN: Key := 36
  const EVENQ: Key := 37
  const FETC: Key := 38
  const FORM: Key := 39
  const FORMQ: Key := 40
  const FREQ: Key := 41
  const FREQQ: Key := 42
  const FUNC: Key := 43
  const FUNCQ: Key := 44
  const IMM: Key := 45
  const INCL: Key := 46
  const INIT: Key := 47
  const INP: Key := 48
  const INT: Key := 49
  const INTERNAL: Key := 50
  const LEV: Key := 51
  const LEVQ: Key := 52
  const LOC: Key := 53
  const LOCQ: Key := 54
  const LOW: Key := 55
  const LOWQ: Key := 56
  const MEAS: Key := 57
  const NEXTQ: Key := 58
  const OFF: Key := 59
  const OFFS: Key := 60
  const OFFSQ: Key := 61
  const ON: Key := 62
  const OPER: Key := 63
  const OPERQ: Key := 64
  const OREF: Key := 65
  const POIN: Key := 66
  const POINQ: Key := 67
  const PRES: Key := 68
  const PTP: Key := 69
  const PTPQ: Key := 70
  const PULS: Key := 71
  const QUES: Key := 72
  const QUESQ: Key := 73
  const QUIT: Key := 74
  const RANG: Key := 75
  const RANGQ: Key := 76
  const READ: Key := 77
  const RES: Key := 78
  const SENS: Key := 79
  const SETUQ: Key := 80
  const SHOWQ: Key := 81
  const SLE: Key := 82
  const SLOP: Key := 83
  const SLOPQ: Key := 84
  const SOUR: Key := 85
  const SOURQ: Key := 86
  const STAT: Key := 87
  const STATEQ: Key := 88
  const STATQ: Key := 89
  const STATUS: Key := 90
  const STOR: Key := 91
  const SWE: Key := 92
  const SYST: Key := 93
  const TCP: Key := 94
  const TIME: Key := 95
  const TIMEQ: Key := 96
  const TINT: Key := 97
  const TINTQ: Key := 98
  const TRIG: Key := 99
  const UPP: Key := 100
  const UPPQ: Key := 101
  const USER: Key := 102
  const USERQ: Key := 103
  const VERSQ: Key := 104
  const VOLT: Key := 105

  /** Common commands: the mnemonics that start with '*'. */
  predicate Star(k: Key) { k <= WAI }

  /** Commands of one mnemonic. */
  predicate Command1(a: Key) {
    Star(a) || a in {ABOR, CONFQ, FORM, FORMQ, INIT, SLE, ECHO, INCL}
  }

  predicate Command2(a: Key, b: Key) {
    if a == SYST then b in {ERRQ, VERSQ, CAPQ}
    else if a == STAT || a == STATUS then b in {OPERQ, PRES, QUESQ}
    else if a == FORM then b in {DAT, DATQ}
    else if a == INIT then b == IMM
    else if a == INP then b == COUP
    else if a == SENS then b in {DATQ, STATQ, RES}
    else if a == SOUR then b in {FREQ, FREQQ, FUNC, FUNCQ}
    else a == TRIG && b in {COUP, LEV, LEVQ, SLOP, SLOPQ, SOUR, SOURQ}
  }

  predicate Command3(a: Key, b: Key, c: Key) {
    if a == SYST then
      (b == ERR && c in {NEXTQ, COUNQ}) || (b in {INT, INTERNAL} && c in {QUIT, CAL, CONF, SHOWQ, SETUQ, OFFS, OFFSQ})
    else if a == STAT || a == STATUS then
      (b == OPER && c in {EVENQ, CONDQ, ENAB, ENABQ}) || (b == QUES && c in {ENAB, ENABQ})
    else if a == CONF then b == DIG && c in {DAT, EVEN}
    else if a in {FETC, MEAS, READ} then b == DIG && c in {DATQ, EVENQ}
    else if a == INIT then b == IMM && c == ALL
    else if a == SENS then
      if b == FUNC then c in {CONC, OFF, STATEQ, STATQ, ON}
      else if b == SWE then c in {POINQ, TIME, TIMEQ, TINT, TINTQ}
      else b == VOLT && Level(c)
    else if a == SOUR then
      if b == DIG then c in {DAT, DATQ}
      else if b == FUNC then c in {USER, USERQ, LEV, LEVQ}
      else b == PULS && c in {DCYC, DCYCQ, FREQ, FREQQ}
    else false
  }

  predicate Command4(a: Key, b: Key, c: Key, d: Key) {
    if a == SYST then (b == COMM && c == TCP && d == CONTQ) || (b in {INT, INTERNAL} && c == OFFS && d == STOR)
    else if a == SENS then
      if b == SWE then (c == OFFS && d in {POIN, POINQ, TIME, TIMEQ}) || (c == OREF && d in {LOC, LOCQ, POIN, POINQ})
      else b == VOLT && c == DC && Level(d)
    else false
  }

  /** The voltage settings and queries below VOLTage and VOLTage:DC. */
  predicate Level(k: Key) { k in {LOW, OFFS, PTP, RANG, UPP, LOWQ, OFFSQ, PTPQ, RANGQ, UPPQ} }

  predicate Branch1(a: Key) {
    a in {SYST, STAT, STATUS, CONF, FETC, FORM, INIT, INP, MEAS, READ, SENS, SOUR, TRIG}
  }

  predicate Branch2(a: Key, b: Key) { (Hooked2(a, b) && a != TRIG) || (a == SYST && b == COMM) }

  predicate Branch3(a: Key, b: Key, c: Key) {
    Hooked3(a, b, c) || (a == SYST && ((b == COMM && c == TCP) || (b in {INT, INTERNAL} && c == OFFS)))
  }

  predicate Hooked1(a: Key) { a in {SYST, STAT, CONF, FORM, INIT, MEAS, READ, SENS, SOUR, TRIG} }

  predicate Hooked2(a: Key, b: Key) {
    if a == SYST then b in {ERR, INT, INTERNAL}
    else if a == STAT || a == STATUS then b in {OPER, QUES}
    else if a == SENS then b in {FUNC, SWE, VOLT}
    else if a == SOUR then b in {DIG, FUNC, PULS}
    else if a == INIT then b == IMM
    else if a == TRIG then b == SOUR
    else a in {CONF, FETC, MEAS, READ} && b == DIG
  }

  predicate Hooked3(a: Key, b: Key, c: Key) {
    a == SENS && ((b == SWE && c in {OFFS, OREF}) || (b == VOLT && c == DC))
  }

  predicate Header(p: seq<Key>) {
    if |p| == 1 then Command1(p[0])
    else if |p| == 2 then Command2(p[0], p[1])
    else if |p| == 3 then Command3(p[0], p[1], p[2])
    else |p| == 4 && Command4(p[0], p[1], p[2], p[3])
  }

  predicate Branch(p: seq<Key>) {
    if |p| == 1 then Branch1(p[0])
    else if |p| == 2 then Branch2(p[0], p[1])
    else |p| == 3 && Branch3(p[0], p[1], p[2])
  }

  predicate Hooked(p: seq<Key>) {
    if |p| == 1 then Hooked1(p[0])
    else if |p| == 2 then Hooked2(p[0], p[1])
    else |p| == 3 && Hooked3(p[0], p[1], p[2])
  }

  const CGR101 := Grammar((p: seq<Key>) => Header(p), (p: seq<Key>) => Branch(p),
                          (p: seq<Key>) => Hooked(p), (k: Key) => Star(k))

  lemma PathIsValid(p: seq<Key>)
    requires Header(p) || Branch(p)
    ensures 0 < |p| <= MAX_PATH && (|p| > 1 ==> Branch(p[..|p| - 1]) && !Star(p[|p| - 1]))
  {
  }

  /** The tree meets what the feedback loop needs; its depth fits the prefix array. */
  lemma GrammarIsValid()
    ensures CGR101.Valid()
  {
    forall p | CGR101.Viable(p)
      ensures 0 < |p| <= MAX_PATH && (|p| > 1 ==> CGR101.branch(p[..|p| - 1]) && !CGR101.common(p[|p| - 1]))
    {
      PathIsValid(p);
      hide Header, Branch;
    }
  }

  /** Commands whose hooks do not leave the standard's header path: an unhooked
      mnemonic above the last, or a hooked last mnemonic. */
  predicate Irregular(p: seq<Key>) {
    || (|p| > 1 && p[0] in {STATUS, FETC, INP})
    || (|p| == 1 && p[0] in {FORM, INIT})
    || (|p| == 2 && (p[0], p[1]) in {(INIT, IMM), (SOUR, FUNC), (TRIG, SOUR)})
    || (|p| == 4 && p[0] == SYST)
  }

  /** Exactly the other commands hand the standard's path on; no command repeats a mnemonic
      (so `NoRepeats` holds of the tree). */
  lemma Regularity(p: seq<Key>)
    requires Header(p)
    ensures Compliant(CGR101, p) <==> !Irregular(p)
    ensures Distinct(p)
  {
    if |p| == 4 {
      assert Hooked(p[..1]) == Hooked1(p[0]) && Hooked(p[..2]) == Hooked2(p[0], p[1]);
      assert Hooked(p[..3]) == Hooked3(p[0], p[1], p[2]);
    } else if |p| == 3 {
      assert Hooked(p[..1]) == Hooked1(p[0]) && Hooked(p[..2]) == Hooked2(p[0], p[1]);
    } else if |p| == 2 {
      assert Hooked(p[..1]) == Hooked1(p[0]);
    }
  }

  /** The tokens of one command without parameters, and of two common commands. */
  lemma SpellsOut()
    ensures Spell([Unit(false, [CLS], []), Unit(false, [RST], [])]) == [Word(CLS), Semi, Word(RST), End]
    ensures SpellOpen([Unit(false, [IDNQ], [])], [End]) == [Word(IDNQ), Semi, End]
    ensures [Semi] + Spell([Unit(false, [RST], [])]) == [Semi, Word(RST), End]
    ensures [Semi] + Spell([Unit(true, [SYST, ERRQ], [])]) == [Semi, Colon, Word(SYST), Colon, Word(ERRQ), End]
  {
    var us := [Unit(false, [CLS], []), Unit(false, [RST], [])];
    assert us[1..] == [us[1]] && Join([CLS]) == [Word(CLS)] && Join([RST]) == [Word(RST)];
    assert Spell([us[1]]) == [Word(RST), End];
    assert Join([IDNQ]) == [Word(IDNQ)];
    assert [SYST, ERRQ][1..] == [ERRQ] && Join([ERRQ]) == [Word(ERRQ)];
  }

  /** Two common commands on one line: the replay finds no path and its assertion fails. */
  lemma CommonAfterCommonFails()
    ensures Meaning(CGR101, START, [], false, [Word(CLS), Semi, Word(RST), End]).crashed
  {
    hide Meaning, Spell, Expand, Grammar.Valid;
    var us := [Unit(false, [CLS], []), Unit(false, [RST], [])];
    GrammarIsValid();
    SpellsOut();
    Message(CGR101, START, [], true, us);
    assert us[1..] == [us[1]] && [] + [CLS] == [CLS] && Hooks(CGR101, [], [CLS]) == [];
  }

  /** A ';' at the end of a line does the same: `*IDN?;`. */
  lemma TrailingSeparatorFails()
    ensures Meaning(CGR101, START, [], false, [Word(IDNQ), Semi, End]).crashed
  {
    hide Meaning, SpellOpen, Spell, Resolve, Stuck, Grammar.Valid;
    GrammarIsValid();
    SpellsOut();
    var us := [Unit(false, [IDNQ], [])];
    OpenMessage(CGR101, START, [], true, us, [End]);
    assert [] + [IDNQ] == [IDNQ] && Hooks(CGR101, [], [IDNQ]) == [];
  }

  /** `;*RST` fails the same way. */
  lemma LeadingCommonFails()
    ensures Meaning(CGR101, START, [], false, [Semi, Word(RST), End]).crashed
  {
    hide Meaning, Spell, Expand, Resolve, Runs, Stuck, Grammar.Valid;
    GrammarIsValid();
    SpellsOut();
    LeadingSeparator(CGR101, [Unit(false, [RST], [])]);
  }

  /** `;:SYST:ERR?` runs. */
  lemma LeadingColonRuns()
    ensures Meaning(CGR101, START, [], false, [Semi, Colon, Word(SYST), Colon, Word(ERRQ), End]).last
         == Parser(Accepted, [Command([SYST, ERRQ], [])])
  {
    hide Meaning, Spell, Expand, Stuck, Grammar.Valid;
    GrammarIsValid();
    SpellsOut();
    LeadingSeparator(CGR101, [Unit(true, [SYST, ERRQ], [])]);
    assert [] + [SYST, ERRQ] == [SYST, ERRQ];
  }

  lemma NoCommandRepeats()
    ensures NoRepeats(CGR101)
  {
    forall p | CGR101.header(p) ensures Distinct(p) {
      Regularity(p);
    }
  }

  const FETCHES := [Unit(false, [FETC, DIG, DATQ], []), Unit(false, [EVENQ], [])]

  /** `FETC:DIG:DAT?;EVEN?` means FETC:DIG:EVEN? to the standard; FETC has no hook, so
      DIG:EVEN? is read and refused. */
  lemma IrregularFails()
    ensures Meaningful(CGR101, [], true, FETCHES)
    ensures StandardResolve(CGR101, [], true, FETCHES) == [Command([FETC, DIG, DATQ], []), Command([FETC, DIG, EVENQ], [])]
    ensures var r := Meaning(CGR101, START, [], false, Spell(FETCHES)); !r.crashed && r.last.pos.Rejected?
  {
    hide Meaning, Spell, Expand, Resolve, Grammar.Valid, Runs, Stuck, Meaningful, StandardResolve;
    GrammarIsValid();
    FetchMeans();
    FetchRefused();
    Message(CGR101, START, [], true, FETCHES);
  }

  lemma FetchMeans()
    ensures Meaningful(CGR101, [], true, FETCHES)
    ensures StandardResolve(CGR101, [], true, FETCHES) == [Command([FETC, DIG, DATQ], []), Command([FETC, DIG, EVENQ], [])]
  {
    var rest := [FETCHES[1]];
    assert FETCHES[1..] == rest;
    assert StandardNext(CGR101, [], true, FETCHES[0]) == [FETC, DIG];
    assert StandardFull(CGR101, [FETC, DIG], false, rest[0]) == [FETC, DIG, EVENQ];
    assert StandardResolve(CGR101, [FETC, DIG], false, rest) == [Command([FETC, DIG, EVENQ], [])];
    assert Meaningful(CGR101, [FETC, DIG], false, rest);
  }

  lemma FetchRefused()
    ensures !Stuck(CGR101, [], true, FETCHES) && !Runs(CGR101, [], true, FETCHES)
  {
    FetchHooks();
    hide Hooks;
    var rest := [FETCHES[1]];
    assert FETCHES[1..] == rest && [] + [DIG] == [DIG] && [DIG] + [EVENQ] == [DIG, EVENQ];
    assert InForce(CGR101, [], true, FETCHES[0]) == [DIG];
    assert Full([DIG], false, rest[0]) == [DIG, EVENQ] && !Header([DIG, EVENQ]);
    assert !Stuck(CGR101, [DIG], false, rest) && !Runs(CGR101, [DIG], false, rest);
  }

  lemma FetchHooks()
    ensures Hooks(CGR101, [], [FETC, DIG, DATQ]) == [DIG]
  {
    var header := [FETC, DIG, DATQ];
    assert header[1..] == [DIG, DATQ] && header[1..][1..] == [DATQ] && header[1..][1..][1..] == [];
    assert [] + [FETC] == [FETC] && [FETC] + [DIG] == [FETC, DIG] && [FETC, DIG] + [DATQ] == header;
    assert Hooks(CGR101, [FETC, DIG], [DATQ]) == [];
    assert Hooks(CGR101, [FETC], [DIG, DATQ]) == [DIG];
  }
}
