/** Device frames: their encoding, what each one means, and the round trip through the
    byte machine. */
module Framing {
  import opened Conversion
  import opened Receive

  /** One index of a capture as the device sends it. */
  datatype Quad = Quad(aHigh: Byte, aLow: Byte, bHigh: Byte, bLow: Byte)

  datatype Frame =
    | Identity(text: seq<Byte>)
    | Input(value: Byte)
    | OffsetsOf(aHigh: Byte, aLow: Byte, bHigh: Byte, bLow: Byte)
    | StatusOf(words: seq<Byte>, digit: Byte)
    | Address(high: Byte, low: Byte)
    | Capture(quads: seq<Quad>)
    | Failure(text: seq<Byte>)
    | Pin(fill: seq<Byte>)
    | Noise(value: Byte)

  const HEADERS: set<Byte> := {STAR, CH_I, CH_O, CH_S, CH_A, CH_D, CH_E, BANG}

  /** The shapes the device sends: text ends at its first line feed, a status is words
      up to a digit from 1 to 6, an address has 10 bits, a capture fills the ring. */
  predicate Shaped(f: Frame) {
    match f
    case Identity(text) => LF !in text
    case Failure(text) => LF !in text
    case StatusOf(words, digit) => CH_1 <= digit <= CH_6 && forall i :: 0 <= i < |words| ==> !(CH_1 <= words[i] <= CH_6)
    case Address(high, _) => high <= 3
    case Capture(quads) => |quads| == SAMPLES
    case Pin(fill) => forall i :: 0 <= i < |fill| ==> fill[i] == CR || fill[i] == BANG
    case Noise(c) => c !in HEADERS
    case _ => true
  }

  function EncodeQuads(quads: seq<Quad>): seq<Byte> {
    if quads == [] then []
    else [quads[0].aHigh, quads[0].aLow, quads[0].bHigh, quads[0].bLow] + EncodeQuads(quads[1..])
  }

  function Encode(f: Frame): seq<Byte> {
    match f
    case Identity(text) => [STAR] + (text + [LF])
    case Input(v) => [CH_I, v]
    case OffsetsOf(ah, al, bh, bl) => [CH_O, ah, al, bh, bl]
    case StatusOf(words, digit) => [CH_S] + (words + [digit])
    case Address(high, low) => [CH_A, high, low]
    case Capture(quads) => [CH_D] + EncodeQuads(quads)
    case Failure(text) => [CH_E] + (text + [LF])
    case Pin(fill) => [BANG] + (fill + [LF])
    case Noise(c) => [c]
  }

  /** Text as it is kept: carriage returns dropped. */
  function Kept(text: seq<Byte>): (s: seq<Byte>)
    ensures |s| <= |text|
  {
    if text == [] then [] else (if text[0] == CR then [] else [text[0]]) + Kept(text[1..])
  }

  function SampleA(q: Quad): int { 256 * q.aHigh + q.aLow }
  function SampleB(q: Quad): int { 256 * q.bHigh + q.bLow }

  function SamplesA(quads: seq<Quad>): seq<int> { seq(|quads|, i requires 0 <= i < |quads| => SampleA(quads[i])) }
  function SamplesB(quads: seq<Quad>): seq<int> { seq(|quads|, i requires 0 <= i < |quads| => SampleB(quads[i])) }

  /** What one whole frame does; None when it does not fit its buffer, the recorder or
      the sweep. */
  function Apply(d: Dev, f: Frame): (r: Option<Dev>)
    requires Sized(d) && Shaped(f)
    ensures r.Some? ==> Sized(r.value)
  {
    match f
    case Identity(text) =>
      if |d.id| + |Kept(text)| > ID_MAX then None
      else Some(Emit(d.(ident := IdentifyPending, id := d.id + Kept(text)), IdentifyDone))
    case Input(v) =>
      (match Notice(d.(digital := v), DIGITAL_DATA_CHANNEL, v)
       case None => None
       case Some(d1) => Some(Emit(d1, DigitalReadDone)))
    case OffsetsOf(ah, al, bh, bl) =>
      Some(d.(scope := d.scope.(offset := OffsetComplete,
                                offsets := Offsets(OffsetVolts(ah, STEP_HIGH), OffsetVolts(al, STEP_LOW),
                                                   OffsetVolts(bh, STEP_HIGH), OffsetVolts(bl, STEP_LOW))),
              flags := d.flags.(offset := false)))
    case StatusOf(_, digit) =>
      Some(Emit(d.(scope := d.scope.(status := StatusComplete, statusValue := digit - 48)), StatusDone))
    case Address(high, low) =>
      Some(Send(d.(scope := d.scope.(addr := AddrComplete, addrValue := 256 * high + low)), GetBuffer))
    case Capture(quads) =>
      if !d.scope.addr.AddrComplete? then None else
        var d1 := d.(a := SamplesA(quads), b := SamplesB(quads), flags := d.flags.(overlapped := false, sweep := false),
                     scope := d.scope.(count := SAMPLES, data := DataComplete, pending := false));
        var items := if d.scope.pending then Readout(d1, d.scope.mask) else [];
        Some(Emit(Print(d1, items), Unblock))
    case Failure(text) =>
      var kept := [CH_E] + Kept(text);
      if |kept| + 1 > E_MAX then None
      else Some(d.(error := kept + [0], log := d.log.(errors := d.log.errors + [kept])))
    case Pin(_) => Notice(d, INTERRUPT_CHANNEL, DIGITAL_EVENT_INTERRUPT)
    case Noise(_) => Some(d)
  }

  lemma FeedOne(d: Dev, c: Byte, rest: seq<Byte>)
    requires Sized(d)
    ensures Feed(d, [c] + rest) == match Step(d, c) case None => None case Some(d1) => Feed(d1, rest)
  {
    assert ([c] + rest)[1..] == rest;
  }

  lemma FeedNone(d: Dev)
    requires Sized(d)
    ensures Feed(d, []) == Some(d)
  {
  }

  lemma {:induction false} FeedIdent(d: Dev, text: seq<Byte>)
    requires Sized(d) && d.rcv.IdentifyText? && LF !in text && |d.id| <= ID_MAX
    ensures Feed(d, text + [LF]) == if |d.id| + |Kept(text)| > ID_MAX then None
                                    else Some(ToIdle(Emit(d.(id := d.id + Kept(text)), IdentifyDone)))
    decreases |text|
  {
    hide Feed;
    if text == [] {
      assert text + [LF] == [LF] + [] && d.id + Kept([]) == d.id;
      FeedOne(d, LF, []);
      FeedNone(ToIdle(Emit(d, IdentifyDone)));
    } else {
      assert text + [LF] == [text[0]] + (text[1..] + [LF]);
      FeedOne(d, text[0], text[1..] + [LF]);
      var r := Step(d, text[0]);
      if r.Some? {
        FeedIdent(r.value, text[1..]);
        assert r.value.id + Kept(text[1..]) == d.id + Kept(text);
      }
    }
  }

  lemma {:induction false} FeedError(d: Dev, text: seq<Byte>)
    requires Sized(d) && d.rcv.ErrorText? && LF !in text
    ensures var kept := d.error + Kept(text);
            Feed(d, text + [LF]) == if |kept| + 1 > E_MAX then None
                                    else Some(ToIdle(d.(error := kept + [0], log := d.log.(errors := d.log.errors + [kept]))))
    decreases |text|
  {
    hide Feed;
    if text == [] {
      assert text + [LF] == [LF] + [] && d.error + Kept([]) == d.error;
      FeedOne(d, LF, []);
      FeedNone(ToIdle(d.(error := d.error + [0], log := d.log.(errors := d.log.errors + [d.error]))));
    } else {
      assert text + [LF] == [text[0]] + (text[1..] + [LF]);
      FeedOne(d, text[0], text[1..] + [LF]);
      var r := Step(d, text[0]);
      if r.Some? {
        FeedError(r.value, text[1..]);
        assert r.value.error + Kept(text[1..]) == d.error + Kept(text);
      }
    }
  }

  lemma {:induction false} FeedStatus(d: Dev, words: seq<Byte>, digit: Byte)
    requires Sized(d) && d.rcv.ScopeStatus? && d.scope.status.StatusPending? && Shaped(StatusOf(words, digit))
    ensures Feed(d, words + [digit])
         == Some(ToIdle(Emit(d.(scope := d.scope.(status := StatusComplete, statusValue := digit - 48)), StatusDone)))
    decreases |words|
  {
    hide Feed;
    if words == [] {
      assert words + [digit] == [digit] + [];
      FeedOne(d, digit, []);
      FeedNone(Step(d, digit).value);
    } else {
      assert words + [digit] == [words[0]] + (words[1..] + [digit]);
      FeedOne(d, words[0], words[1..] + [digit]);
      FeedStatus(d, words[1..], digit);
    }
  }

  lemma {:induction false} FeedPin(d: Dev, fill: seq<Byte>)
    requires Sized(d) && d.rcv.InterruptText? && Shaped(Pin(fill))
    ensures Feed(d, fill + [LF]) == match Notice(d, INTERRUPT_CHANNEL, DIGITAL_EVENT_INTERRUPT)
                                    case None => None case Some(d1) => Some(ToIdle(d1))
    decreases |fill|
  {
    hide Feed;
    if fill == [] {
      assert fill + [LF] == [LF] + [];
      FeedOne(d, LF, []);
      var r := Step(d, LF);
      if r.Some? { FeedNone(r.value); }
    } else {
      assert fill + [LF] == [fill[0]] + (fill[1..] + [LF]);
      FeedOne(d, fill[0], fill[1..] + [LF]);
      FeedPin(d, fill[1..]);
    }
  }

  /** One index of a capture: both samples stored, then the next index or the end. */
  function Stored(d: Dev, q: Quad): Dev
    requires Sized(d) && d.scope.count < SAMPLES
  {
    var i := d.scope.count;
    d.(a := d.a[i := SampleA(q)], b := d.b[i := SampleB(q)],
       scope := d.scope.(count := i + 1, data := if i + 1 == SAMPLES then DataBLow else DataAHigh))
  }

  lemma FeedQuad(d: Dev, q: Quad, rest: seq<Byte>)
    requires Sized(d) && d.rcv.ScopeData? && d.scope.data.DataAHigh? && d.scope.count < SAMPLES
    ensures var d1 := Stored(d, q);
            Feed(d, [q.aHigh, q.aLow, q.bHigh, q.bLow] + rest)
            == if d1.scope.count < SAMPLES then Feed(d1, rest)
               else match FinishCapture(d1) case None => None case Some(d2) => Feed(d2, rest)
  {
    hide Feed, Step;
    var d2 := d.(a := d.a[d.scope.count := SampleA(q)], scope := d.scope.(data := DataBHigh));
    assert [q.aHigh, q.aLow, q.bHigh, q.bLow] + rest == [q.aHigh] + ([q.aLow] + ([q.bHigh] + ([q.bLow] + rest)));
    FeedA(d, q, [q.bHigh] + ([q.bLow] + rest));
    FeedB(d2, q, rest);
  }

  lemma FeedA(d: Dev, q: Quad, rest: seq<Byte>)
    requires Sized(d) && d.rcv.ScopeData? && d.scope.data.DataAHigh? && d.scope.count < SAMPLES
    ensures Feed(d, [q.aHigh] + ([q.aLow] + rest))
         == Feed(d.(a := d.a[d.scope.count := SampleA(q)], scope := d.scope.(data := DataBHigh)), rest)
  {
    hide Feed;
    var i := d.scope.count;
    var d1 := d.(a := d.a[i := 256 * q.aHigh], scope := d.scope.(data := DataALow));
    assert Step(d, q.aHigh) == Some(d1);
    FeedOne(d, q.aHigh, [q.aLow] + rest);
    FeedOne(d1, q.aLow, rest);
    assert d.a[i := 256 * q.aHigh][i := SampleA(q)] == d.a[i := SampleA(q)];
  }

  lemma FeedB(d: Dev, q: Quad, rest: seq<Byte>)
    requires Sized(d) && d.rcv.ScopeData? && d.scope.data.DataBHigh? && d.scope.count < SAMPLES
    ensures var i := d.scope.count;
            var d1 := d.(b := d.b[i := SampleB(q)],
                         scope := d.scope.(count := i + 1, data := if i + 1 == SAMPLES then DataBLow else DataAHigh));
            Feed(d, [q.bHigh] + ([q.bLow] + rest))
            == if i + 1 < SAMPLES then Feed(d1, rest)
               else match FinishCapture(d1) case None => None case Some(d2) => Feed(d2, rest)
  {
    hide Feed, FinishCapture;
    var i := d.scope.count;
    var d1 := d.(b := d.b[i := 256 * q.bHigh], scope := d.scope.(data := DataBLow));
    assert Step(d, q.bHigh) == Some(d1);
    FeedOne(d, q.bHigh, [q.bLow] + rest);
    FeedOne(d1, q.bLow, rest);
    assert d.b[i := 256 * q.bHigh][i := SampleB(q)] == d.b[i := SampleB(q)];
  }

  /** The rest of a capture fills both rings from the current index up. */
  function Filled(d: Dev, quads: seq<Quad>): Dev
    requires Sized(d) && d.scope.count + |quads| == SAMPLES
  {
    d.(a := d.a[..d.scope.count] + SamplesA(quads), b := d.b[..d.scope.count] + SamplesB(quads),
       scope := d.scope.(count := SAMPLES, data := DataBLow))
  }

  lemma {:induction false} FeedQuads(d: Dev, quads: seq<Quad>)
    requires Sized(d) && d.rcv.ScopeData? && d.scope.data.DataAHigh?
    requires quads != [] && d.scope.count + |quads| == SAMPLES
    ensures Feed(d, EncodeQuads(quads)) == FinishCapture(Filled(d, quads))
    decreases |quads|
  {
    hide Feed;
    var q, d1, i := quads[0], Stored(d, quads[0]), d.scope.count;
    FeedQuad(d, q, EncodeQuads(quads[1..]));
    if |quads| > 1 {
      FeedQuads(d1, quads[1..]);
      assert d1.a[..i + 1] + SamplesA(quads[1..]) == d.a[..i] + SamplesA(quads);
      assert d1.b[..i + 1] + SamplesB(quads[1..]) == d.b[..i] + SamplesB(quads);
    } else {
      assert d1.a == d.a[..i] + SamplesA(quads);
      assert d1.b == d.b[..i] + SamplesB(quads);
      if FinishCapture(d1).Some? { FeedNone(FinishCapture(d1).value); }
    }
  }

  lemma FeedCapture(d: Dev, quads: seq<Quad>)
    requires Sized(d) && d.rcv.Idle? && Shaped(Capture(quads))
    ensures Feed(d, Encode(Capture(quads))) == Apply(d, Capture(quads))
  {
    hide Feed;
    FeedOne(d, CH_D, EncodeQuads(quads));
    var d1 := Start(d, CH_D);
    FeedQuads(d1, quads);
    FinishMeaning(d, quads);
  }

  lemma FinishMeaning(d: Dev, quads: seq<Quad>)
    requires Sized(d) && d.rcv.Idle? && Shaped(Capture(quads))
    ensures FinishCapture(Filled(Start(d, CH_D), quads)) == Apply(d, Capture(quads))
  {
    hide Readout;
    var d1 := Start(d, CH_D);
    var d2 := Filled(d1, quads);
    assert d1.a[..0] + SamplesA(quads) == SamplesA(quads);
    assert d1.b[..0] + SamplesB(quads) == SamplesB(quads);
    var d3 := d.(a := SamplesA(quads), b := SamplesB(quads), flags := d.flags.(overlapped := false, sweep := false),
                 scope := d.scope.(count := SAMPLES, data := DataComplete, pending := false));
    ReadoutSame(d2, d3, d.scope.mask);
    assert d.log.items + [] == d.log.items;
  }

  lemma ReadoutSame(s: Dev, t: Dev, mask: set<nat>)
    requires Sized(s) && s.a == t.a && s.b == t.b && s.scope.addrValue == t.scope.addrValue
    requires s.scope.offsets == t.scope.offsets && s.scope.lowA == t.scope.lowA && s.scope.lowB == t.scope.lowB
    ensures Readout(s, mask) == Readout(t, mask)
  {
  }

  lemma DecodeNoise(d: Dev, c: Byte)
    requires Sized(d) && d.rcv.Idle? && Shaped(Noise(c))
    ensures Feed(d, [c]) == Apply(d, Noise(c))
  {
    FeedOne(d, c, []);
  }

  lemma DecodePin(d: Dev, fill: seq<Byte>)
    requires Sized(d) && d.rcv.Idle? && Shaped(Pin(fill))
    ensures Feed(d, Encode(Pin(fill))) == Apply(d, Pin(fill))
  {
    hide Feed;
    FeedOne(d, BANG, fill + [LF]);
    FeedPin(Start(d, BANG), fill);
  }

  lemma DecodeInput(d: Dev, v: Byte)
    requires Sized(d) && d.rcv.Idle?
    ensures Feed(d, [CH_I, v]) == Apply(d, Input(v))
  {
    hide Feed;
    assert [CH_I, v] == [CH_I] + ([v] + []);
    var d1 := Start(d, CH_I);
    FeedOne(d, CH_I, [v] + []);
    FeedOne(d1, v, []);
    if Step(d1, v).Some? { FeedNone(Step(d1, v).value); }
  }

  lemma AddrHighByte(d: Dev, high: Byte)
    requires Sized(d) && d.rcv.ScopeAddr? && d.scope.addr.AddrHigh? && high <= 3
    ensures Step(d, high) == Some(d.(scope := d.scope.(addrValue := 256 * high, addr := AddrLow)))
  {
  }

  lemma AddrLowByte(d: Dev, high: Byte, low: Byte)
    requires Sized(d) && d.rcv.ScopeAddr? && d.scope.addr.AddrLow? && high <= 3 && d.scope.addrValue == 256 * high
    ensures Step(d, low)
         == Some(ToIdle(Send(d.(scope := d.scope.(addrValue := 256 * high + low, addr := AddrComplete)), GetBuffer)))
  {
    assert 256 * high / 256 == high;
  }

  lemma DecodeAddress(d: Dev, high: Byte, low: Byte)
    requires Sized(d) && d.rcv.Idle? && high <= 3
    ensures Feed(d, [CH_A, high, low]) == Apply(d, Address(high, low))
  {
    hide Feed, Addr;
    var bytes := [high] + ([low] + []);
    assert [CH_A, high, low] == [CH_A] + bytes;
    var d1 := Start(d, CH_A);
    FeedOne(d, CH_A, bytes);
    var d2 := d1.(scope := d1.scope.(addrValue := 256 * high, addr := AddrLow));
    hide Step;
    AddrHighByte(d1, high);
    FeedOne(d1, high, [low] + []);
    AddrLowByte(d2, high, low);
    FeedOne(d2, low, []);
    FeedNone(Apply(d, Address(high, low)).value);
  }

  lemma DecodeOffsets(d: Dev, ah: Byte, al: Byte, bh: Byte, bl: Byte)
    requires Sized(d) && d.rcv.Idle?
    ensures Feed(d, [CH_O, ah, al, bh, bl]) == Apply(d, OffsetsOf(ah, al, bh, bl))
  {
    hide Feed, OffsetVolts;
    assert [CH_O, ah, al, bh, bl] == [CH_O] + ([ah] + ([al] + ([bh] + ([bl] + []))));
    var d1 := Start(d, CH_O);
    var d2 := Offset(d1, ah).value;
    var d3 := Offset(d2, al).value;
    var d4 := Offset(d3, bh).value;
    FeedOne(d, CH_O, [ah] + ([al] + ([bh] + ([bl] + []))));
    FeedOne(d1, ah, [al] + ([bh] + ([bl] + [])));
    FeedOne(d2, al, [bh] + ([bl] + []));
    FeedOne(d3, bh, [bl] + []);
    FeedOne(d4, bl, []);
    FeedNone(Offset(d4, bl).value);
  }

  lemma DecodeIdentity(d: Dev, text: seq<Byte>)
    requires Sized(d) && d.rcv.Idle? && Shaped(Identity(text)) && |d.id| <= ID_MAX
    ensures Feed(d, Encode(Identity(text))) == Apply(d, Identity(text))
  {
    hide Feed;
    FeedOne(d, STAR, text + [LF]);
    FeedIdent(Start(d, STAR), text);
  }

  lemma DecodeFailure(d: Dev, text: seq<Byte>)
    requires Sized(d) && d.rcv.Idle? && Shaped(Failure(text))
    ensures Feed(d, Encode(Failure(text))) == Apply(d, Failure(text))
  {
    hide Feed;
    FeedOne(d, CH_E, text + [LF]);
    FeedError(Start(d, CH_E), text);
  }

  lemma DecodeStatus(d: Dev, words: seq<Byte>, digit: Byte)
    requires Sized(d) && d.rcv.Idle? && Shaped(StatusOf(words, digit))
    ensures Feed(d, Encode(StatusOf(words, digit))) == Apply(d, StatusOf(words, digit))
  {
    hide Feed;
    FeedOne(d, CH_S, words + [digit]);
    FeedStatus(Start(d, CH_S), words, digit);
  }

  /** Between frames the machine is idle and the identification is within its buffer. */
  predicate Between(d: Dev) { Sized(d) && d.rcv.Idle? && |d.id| <= ID_MAX }

  lemma ApplyEndsBetween(d: Dev, f: Frame)
    requires Between(d) && Shaped(f) && Apply(d, f).Some?
    ensures Between(Apply(d, f).value)
  {
  }

  /** The round trip of one frame: feeding its bytes to an idle machine does what the
      frame means, and the machine is idle again. */
  lemma DecodeFrame(d: Dev, f: Frame)
    requires Between(d) && Shaped(f)
    ensures Feed(d, Encode(f)) == Apply(d, f)
    ensures Apply(d, f).Some? ==> Between(Apply(d, f).value)
  {
    hide Feed, Apply, Step;
    if Apply(d, f).Some? { ApplyEndsBetween(d, f); }
    match f
    case Identity(text) => DecodeIdentity(d, text);
    case Failure(text) => DecodeFailure(d, text);
    case StatusOf(words, digit) => DecodeStatus(d, words, digit);
    case Pin(fill) => DecodePin(d, fill);
    case Capture(quads) => FeedCapture(d, quads);
    case Noise(c) => DecodeNoise(d, c);
    case Input(v) => DecodeInput(d, v);
    case Address(high, low) => DecodeAddress(d, high, low);
    case OffsetsOf(ah, al, bh, bl) => DecodeOffsets(d, ah, al, bh, bl);
  }

  predicate AllShaped(fs: seq<Frame>) { forall i :: 0 <= i < |fs| ==> Shaped(fs[i]) }

  function EncodeAll(fs: seq<Frame>): seq<Byte> {
    if fs == [] then [] else Encode(fs[0]) + EncodeAll(fs[1..])
  }

  function ApplyAll(d: Dev, fs: seq<Frame>): (r: Option<Dev>)
    requires Sized(d) && AllShaped(fs)
    ensures r.Some? ==> Sized(r.value)
    decreases |fs|
  {
    if fs == [] then Some(d) else
      match Apply(d, fs[0])
      case None => None
      case Some(d1) => ApplyAll(d1, fs[1..])
  }

  /** The round trip of a whole stream: from idle, the bytes of any frames decode to
      exactly those frames, in order, and the machine ends idle. */
  lemma {:induction false} DecodeAll(d: Dev, fs: seq<Frame>)
    requires Between(d) && AllShaped(fs)
    ensures Feed(d, EncodeAll(fs)) == ApplyAll(d, fs)
    ensures ApplyAll(d, fs).Some? ==> Between(ApplyAll(d, fs).value)
    decreases |fs|
  {
    hide Apply, Encode;
    if fs != [] {
      DecodeFrame(d, fs[0]);
      FeedAppend(d, Encode(fs[0]), EncodeAll(fs[1..]));
      var r := Apply(d, fs[0]);
      if r.Some? { DecodeAll(r.value, fs[1..]); }
    }
  }

  /** ... however the bytes are split into reads. */
  function FeedReads(d: Dev, chunks: seq<seq<Byte>>): (r: Option<Dev>)
    requires Sized(d)
    ensures r.Some? ==> Sized(r.value)
    decreases |chunks|
  {
    if chunks == [] then Some(d) else
      match Feed(d, chunks[0])
      case None => None
      case Some(d1) => FeedReads(d1, chunks[1..])
  }

  function Concat(chunks: seq<seq<Byte>>): seq<Byte> {
    if chunks == [] then [] else chunks[0] + Concat(chunks[1..])
  }

  lemma {:induction false} ReadsDoNotMatter(d: Dev, chunks: seq<seq<Byte>>)
    requires Sized(d)
    ensures FeedReads(d, chunks) == Feed(d, Concat(chunks))
    decreases |chunks|
  {
    hide Feed;
    if chunks == [] {
      FeedNone(d);
    } else {
      FeedAppend(d, chunks[0], Concat(chunks[1..]));
      var r := Feed(d, chunks[0]);
      if r.Some? { ReadsDoNotMatter(r.value, chunks[1..]); }
    }
  }

  /** Decoding a stream of frames, for every chunking of the reads. */
  lemma DecodeStream(d: Dev, fs: seq<Frame>, chunks: seq<seq<Byte>>)
    requires Between(d) && AllShaped(fs) && Concat(chunks) == EncodeAll(fs)
    ensures FeedReads(d, chunks) == ApplyAll(d, fs)
    ensures ApplyAll(d, fs).Some? ==> Between(ApplyAll(d, fs).value)
  {
    ReadsDoNotMatter(d, chunks);
    DecodeAll(d, fs);
  }
}
