/** ADC codes and voltages, over the reals. */
module Conversion {

  const STEP_HIGH := 0.0521
  const STEP_LOW := 0.00592
  const MP8 := 128
  const MP10 := 511

  /** C's round: to nearest, halves away from zero. */
  function Round(x: real): int {
    if x >= 0.0 then (x + 0.5).Floor else -(0.5 - x).Floor
  }

  /** Offset binary to signed and back: the same formula both ways. */
  function Adc2c(midpoint: int, value: int): int { midpoint - value }

  /** The raw voltage of a signed code. */
  function Raw(code: int, step: real): real { Times(code as real, step) }

  /** A raw voltage in whole steps. */
  function Steps(raw: real, step: real): int
    requires step > 0.0
  {
    Round(raw / step)
  }

  function D2v(data: int, midpoint: int, step: real, offset: real): real {
    Raw(Adc2c(midpoint, data), step) - offset
  }

  function V2d(value: real, midpoint: int, step: real, offset: real): int
    requires step > 0.0
  {
    Adc2c(midpoint, Steps(value + offset, step))
  }

  function Abs(x: real): real { if x < 0.0 then -x else x }

  lemma RoundIsNearest(x: real, c: int)
    ensures -0.5 <= Round(x) as real - x <= 0.5
    ensures Abs(Round(x) as real - x) <= Abs(c as real - x)
    ensures Round(c as real) == c
  {
    var k := Round(x);
    if c < k { assert (k - c) as real >= 1.0; } else if c > k { assert (c - k) as real >= 1.0; }
  }

  lemma StepsOfRaw(code: int, step: real)
    requires step > 0.0
    ensures Steps(Raw(code, step), step) == code
  {
    assert Raw(code, step) / step == code as real;
    RoundIsNearest(0.0, code);
  }

  lemma RawMinus(a: int, b: int, step: real)
    ensures Raw(a - b, step) == Raw(a, step) - Raw(b, step)
  {
    assert (a - b) as real == a as real - b as real;
    Spread(a as real, b as real, step);
  }

  /** Scaling by the step, named so that proofs about it can stay linear. */
  function Times(x: real, step: real): real { x * step }

  lemma Spread(a: real, b: real, step: real)
    ensures Times(a - b, step) == Times(a, step) - Times(b, step)
  {
  }

  lemma Half(step: real)
    ensures Times(0.5, step) == step / 2.0 && Times(-0.5, step) == -step / 2.0 && Times(0.0, step) == 0.0
  {
  }

  lemma Positive(x: real, step: real)
    requires step > 0.0 && x >= 0.0
    ensures Times(x, step) >= 0.0
  {
  }

  lemma Scale(a: real, b: real, step: real)
    requires step > 0.0 && a <= b
    ensures Times(a, step) <= Times(b, step)
  {
    hide Times;
    Spread(b, a, step);
    Positive(b - a, step);
  }

  lemma AbsScale(x: real, step: real)
    requires step > 0.0
    ensures Abs(Times(x, step)) == Times(Abs(x), step)
  {
    hide Times;
    Half(step);
    Scale(if x < 0.0 then x else 0.0, if x < 0.0 then 0.0 else x, step);
    Spread(0.0, x, step);
    assert 0.0 - x == -x;
  }

  /** Rounding in steps picks the code nearest the voltage. */
  lemma StepsAreNearest(raw: real, step: real, other: int)
    requires step > 0.0
    ensures var gap := Raw(Steps(raw, step), step) - raw;
            && -step / 2.0 <= gap <= step / 2.0
            && Abs(gap) <= Abs(Raw(other, step) - raw)
  {
    var x := raw / step;
    assert raw == Times(x, step);
    RoundIsNearest(x, other);
    NearestScaled(Round(x), other, x, raw, step);
  }

  lemma NearestScaled(k: int, other: int, x: real, raw: real, step: real)
    requires step > 0.0 && raw == Times(x, step)
    requires -0.5 <= k as real - x <= 0.5 && Abs(k as real - x) <= Abs(other as real - x)
    ensures -step / 2.0 <= Raw(k, step) - raw <= step / 2.0
    ensures Abs(Raw(k, step) - raw) <= Abs(Raw(other, step) - raw)
  {
    hide Times;
    var near, far := k as real - x, other as real - x;
    Half(step);
    Spread(k as real, x, step);
    Spread(other as real, x, step);
    Scale(-0.5, near, step);
    Scale(near, 0.5, step);
    Scale(Abs(near), Abs(far), step);
    AbsScale(near, step);
    AbsScale(far, step);
  }

  /** Sampled data survives the trip through volts. */
  lemma DataRoundTrip(data: int, midpoint: int, step: real, offset: real)
    requires step > 0.0
    ensures V2d(D2v(data, midpoint, step, offset), midpoint, step, offset) == data
  {
    hide Steps, Raw;
    StepsOfRaw(Adc2c(midpoint, data), step);
    assert D2v(data, midpoint, step, offset) + offset == Raw(Adc2c(midpoint, data), step);
  }

  /** The code chosen for a voltage is within half a step of it, and no code is nearer. */
  lemma VoltageIsNearest(value: real, midpoint: int, step: real, offset: real, other: int)
    requires step > 0.0
    ensures var gap := D2v(V2d(value, midpoint, step, offset), midpoint, step, offset) - value;
            && -step / 2.0 <= gap <= step / 2.0
            && Abs(gap) <= Abs(D2v(other, midpoint, step, offset) - value)
  {
    hide Steps, Raw;
    StepsAreNearest(value + offset, step, Adc2c(midpoint, other));
  }

  /** The trigger code fits its 10 bits exactly for voltages less than half a step
      outside the range of the converter. */
  lemma TriggerLevelFits(value: real, step: real, offset: real)
    requires step > 0.0
    ensures 0 <= V2d(value, MP10, step, offset) < 1024
       <==> -512.5 * step < value + offset < 511.5 * step
  {
    var x := (value + offset) / step;
    assert value + offset == x * step;
    TriggerRound(x);
    hide Round;
    Compare(x, -512.5, step);
    Compare(x, 511.5, step);
  }

  lemma TriggerRound(x: real)
    ensures 0 <= Adc2c(MP10, Round(x)) < 1024 <==> -512.5 < x < 511.5
  {
  }

  lemma Compare(a: real, b: real, step: real)
    requires step > 0.0
    ensures a < b <==> a * step < b * step
    ensures a > b <==> a * step > b * step
  {
  }

  // The two offset conventions of the error analysis: an offset kept as a voltage, and
  // one kept as a signed code.

  predicate InCode(midpoint: int, code: int) {
    0 <= code <= if midpoint % 2 == 1 then 2 * midpoint + 1 else 2 * midpoint - 1
  }

  /** a2c; its assertions are the precondition and the postcondition. */
  function A2c(midpoint: int, value: int): (r: int)
    requires midpoint > 0 && InCode(midpoint, value)
    ensures r <= midpoint && r >= if midpoint % 2 == 1 then -(midpoint + 1) else -(midpoint - 1)
  {
    midpoint - value
  }

  /** c2a; its assertions hold together exactly for the complement of a code. */
  function C2a(midpoint: int, value: int): (r: int)
    requires midpoint > 0 && InCode(midpoint, midpoint - value)
    ensures InCode(midpoint, r)
  {
    midpoint - value
  }

  function VoltageWithVoltageOffset(data: int, midpoint: int, step: real, offset: real): real
    requires midpoint > 0 && InCode(midpoint, data)
  {
    Raw(A2c(midpoint, data), step) - offset
  }

  function VoltageWithCodeOffset(data: int, midpoint: int, step: real, offset: int): real
    requires midpoint > 0 && InCode(midpoint, data)
  {
    Raw(A2c(midpoint, data) - offset, step)
  }

  /** check_d and check_o for every step, midpoint, sample and offset code: both
      conventions give the same voltage, both give the sample back, and both give the
      offset code back.  Every argument of c2a is the complement of a code. */
  lemma ConventionsAgree(data: int, offset: int, m: int, k: int, step: real)
    requires step > 0.0 && m > 0 && k > 0 && InCode(m, data) && InCode(k, offset)
    ensures var ov, oc := Raw(A2c(k, offset), step), A2c(k, offset);
            var v := VoltageWithVoltageOffset(data, m, step, ov);
            && v == VoltageWithCodeOffset(data, m, step, oc)
            && InCode(m, m - Steps(v + ov, step)) && C2a(m, Steps(v + ov, step)) == data
            && InCode(m, m - (Steps(v, step) + oc)) && C2a(m, Steps(v, step) + oc) == data
            && InCode(k, k - Steps(ov, step)) && C2a(k, Steps(ov, step)) == offset == C2a(k, oc)
  {
    hide Steps, Raw;
    var a, oc := A2c(m, data), A2c(k, offset);
    RawMinus(a, oc, step);
    StepsOfRaw(a, step);
    StepsOfRaw(a - oc, step);
    StepsOfRaw(oc, step);
    assert VoltageWithVoltageOffset(data, m, step, Raw(oc, step)) + Raw(oc, step) == Raw(a, step);
  }
}
