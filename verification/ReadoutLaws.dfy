/** What the volts of a read-out mean: which step and offset a channel gets, and that the
    range in use covers the voltages expected. */
module ReadoutLaws {
  import opened Conversion
  import opened Receive
  import opened Framing
  import Acquisition

  /** The samples of a channel from its oldest on. */
  function Chronological(d: Dev, chan: nat): (s: seq<int>)
    requires Sized(d)
    ensures |s| == SAMPLES
  {
    Unroll(if chan == 0 then d.a else d.b, d.scope.addrValue)
  }

  function Low(d: Dev, chan: nat): bool { if chan == 0 then d.scope.lowA else d.scope.lowB }

  /** What is printed for one code on a channel. */
  function PrintedAs(d: Dev, chan: nat, code: int): real
    requires Sized(d) && chan < 2
  {
    var ring := seq(SAMPLES, _ => code);
    Readout(d.(a := ring, b := ring), {chan})[0].value
  }

  /** A read-out of one channel prints each of its samples, oldest first, as its code. */
  lemma ReadoutPrints(d: Dev, chan: nat, j: nat)
    requires Sized(d) && chan < 2 && j < SAMPLES
    ensures |Readout(d, {chan})| == SAMPLES
    ensures Readout(d, {chan})[j] == Volt(PrintedAs(d, chan, Chronological(d, chan)[j]))
  {
    hide D2v, StepOffset;
    var code := Chronological(d, chan)[j];
    var ring: seq<int> := seq(SAMPLES, _ => code);
    assert Unroll(ring, d.scope.addrValue)[0] == code;
  }

  /** One code more is one step of the range in use less. */
  lemma CodesFall(d: Dev, chan: nat, code: int)
    requires Sized(d) && chan < 2
    ensures PrintedAs(d, chan, code) - PrintedAs(d, chan, code + 1) == if Low(d, chan) then 0.00592 else 0.0521
  {
    PrintedValue(d, chan, code);
    PrintedValue(d, chan, code + 1);
  }

  /** The zero of the converter prints the offset of the channel and range, negated. */
  lemma PrintedValue(d: Dev, chan: nat, code: int)
    requires Sized(d) && chan < 2
    ensures var o := d.scope.offsets;
            PrintedAs(d, chan, code)
            == if chan == 0 then (if d.scope.lowA then (511 - code) as real * 0.00592 - o.aLow else (511 - code) as real * 0.0521 - o.aHigh)
               else (if d.scope.lowB then (511 - code) as real * 0.00592 - o.bLow else (511 - code) as real * 0.0521 - o.bHigh)
  {
    var ring: seq<int> := seq(SAMPLES, _ => code);
    assert Unroll(ring, d.scope.addrValue)[0] == code;
  }

  /** After an offset frame, exactly the samples that sit at the offset byte received for
      their channel and range print as no voltage: 383 is the distance between the zeros of
      the sample and the offset converters. */
  lemma OffsetCancels(d: Dev, ah: Byte, al: Byte, bh: Byte, bl: Byte, chan: nat, j: nat)
    requires Between(d) && chan < 2 && j < SAMPLES
    ensures var r := Feed(d, Encode(OffsetsOf(ah, al, bh, bl)));
            && r.Some? && Chronological(r.value, chan) == Chronological(d, chan)
            && var byte := if chan == 0 then (if d.scope.lowA then al else ah) else (if d.scope.lowB then bl else bh);
            && |Readout(r.value, {chan})| == SAMPLES
            && (Readout(r.value, {chan})[j] == Volt(0.0) <==> Chronological(d, chan)[j] == 383 + byte)
  {
    hide Feed, Readout, PrintedAs;
    DecodeFrame(d, OffsetsOf(ah, al, bh, bl));
    var r := Apply(d, OffsetsOf(ah, al, bh, bl)).value;
    ReadoutPrints(r, chan, j);
    PrintedValue(r, chan, Chronological(d, chan)[j]);
  }

  /** With no offset and a coupled range inside -25 to 25 V, every voltage of the range has
      a 10-bit code that prints within half a step of it: 0.0521 V in the high range,
      0.00592 V in the low range. */
  lemma RangeIsCovered(d: Dev, chan: nat, range: Acquisition.Range, v: real)
    requires Sized(d) && chan < 2 && d.scope.offsets == Offsets(0.0, 0.0, 0.0, 0.0)
    requires Acquisition.Coupled(range) && Low(d, chan) == range.lowRange
    requires -25.0 <= range.low <= v <= range.high <= 25.0
    ensures exists code :: 0 <= code < 1024
                           && Abs(PrintedAs(d, chan, code) - v) <= (if Low(d, chan) then 0.00592 else 0.0521) / 2.0
  {
    hide PrintedAs;
    var step := if Low(d, chan) then 0.00592 else 0.0521;
    var code := V2d(v, 511, step, 0.0);
    VoltageIsNearest(v, 511, step, 0.0, code);
    PrintedValue(d, chan, code);
    assert 0 <= code < 1024 by {
      if Low(d, chan) {
        assert -2.5 <= v <= 2.5;
        assert (511 - code) as real * 0.00592 <= 2.5 + 0.00296 && (511 - code) as real * 0.00592 >= -2.5 - 0.00296;
      } else {
        assert (511 - code) as real * 0.0521 <= 25.0 + 0.02605 && (511 - code) as real * 0.0521 >= -25.0 - 0.02605;
      }
    }
  }
}
