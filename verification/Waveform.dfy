/** The user waveform: interpolation of 1 to 256 points into 256 samples, and their 8-bit
    codes.  The phase i/256 is a sum of powers of two, so reals do it justice. */
module Waveform {
  import opened Conversion

  const POINTS := 256

  function Phase(i: int): real { i as real / 256.0 }

  /** cgr101_fn_interp; its assertions are proved on the way. */
  function Interp(phase: real, data: seq<real>): real
    requires 0.0 <= phase < 1.0 && 1 < |data| <= POINTS
  {
    var at := phase * (|data| - 1) as real;
    var start := StartIndex(phase, data);
    var fraction := at - start as real;
    assert start < |data| - 1 && start + 1 < |data| && 0.0 <= fraction < 1.0;
    data[start] + Times(data[start + 1] - data[start], fraction)
  }

  function StartIndex(phase: real, data: seq<real>): (start: nat)
    requires 0.0 <= phase < 1.0 && 1 < |data|
    ensures start < |data| - 1
    ensures start as real <= phase * (|data| - 1) as real < (start + 1) as real
  {
    var segments := (|data| - 1) as real;
    Stretch(phase, segments);
    FloorBelow(phase * segments, |data| - 1);
    (phase * segments).Floor
  }

  lemma FloorBelow(x: real, n: nat)
    requires 0.0 <= x < n as real
    ensures 0 <= x.Floor < n && x.Floor as real <= x < (x.Floor + 1) as real
  {
  }

  lemma Stretch(phase: real, segments: real)
    requires 0.0 <= phase < 1.0 && segments > 0.0
    ensures 0.0 <= phase * segments < segments
  {
    assert (1.0 - phase) * segments > 0.0;
  }

  predicate Between(x: real, a: real, b: real) { (a <= x <= b) || (b <= x <= a) }

  lemma Sign(x: real, y: real)
    requires y >= 0.0
    ensures x >= 0.0 ==> Times(x, y) >= 0.0
    ensures x <= 0.0 ==> Times(x, y) <= 0.0
  {
  }

  lemma Complement(d: real, f: real)
    ensures Times(d, f) == d - Times(d, 1.0 - f)
  {
  }

  lemma Blend(a: real, b: real, f: real)
    requires 0.0 <= f < 1.0
    ensures Between(a + Times(b - a, f), a, b)
  {
    hide Times;
    var d := b - a;
    Sign(d, f);
    Sign(d, 1.0 - f);
    Complement(d, f);
  }

  /** A sample lies between the two points around its phase, and meets the first of them
      when the phase falls on it. */
  lemma InterpBetweenNeighbours(phase: real, data: seq<real>)
    requires 0.0 <= phase < 1.0 && 1 < |data| <= POINTS
    ensures var k := StartIndex(phase, data);
            && Between(Interp(phase, data), data[k], data[k + 1])
            && (phase * (|data| - 1) as real == k as real ==> Interp(phase, data) == data[k])
  {
    hide StartIndex;
    var k := StartIndex(phase, data);
    assert Times(data[k + 1] - data[k], 0.0) == 0.0;
    Blend(data[k], data[k + 1], phase * (|data| - 1) as real - k as real);
  }

  /** Points around the phase that lie on a line put the sample on that line. */
  lemma InterpOnLine(phase: real, data: seq<real>, a: real, b: real)
    requires 0.0 <= phase < 1.0 && 1 < |data| <= POINTS
    requires var k := StartIndex(phase, data); data[k] == a + b * k as real && data[k + 1] == a + b * (k + 1) as real
    ensures Interp(phase, data) == a + b * (phase * (|data| - 1) as real)
  {
    hide StartIndex;
    var k, at := StartIndex(phase, data), phase * (|data| - 1) as real;
    StepOfLine(a, b, k as real, at);
  }

  lemma StepOfLine(a: real, b: real, k: real, at: real)
    ensures a + b * k + Times(a + b * (k + 1.0) - (a + b * k), at - k) == a + b * at
  {
    assert a + b * (k + 1.0) - (a + b * k) == b;
    assert b * (at - k) == b * at - b * k;
  }

  /** Equally spaced points. */
  predicate IsLine(data: seq<real>, a: real, b: real) { forall k :: 0 <= k < |data| ==> data[k] == a + b * k as real }

  /** The height of the line at sample i of 256 across the points. */
  function OnLine(data: seq<real>, a: real, b: real, i: int): real { a + b * (i as real / 256.0 * (|data| - 1) as real) }

  /** Equally spaced points are reproduced exactly, one point being a constant. */
  lemma SampleOnLine(data: seq<real>, i: nat, a: real, b: real)
    requires 0 < |data| <= POINTS && i < POINTS && IsLine(data, a, b)
    ensures Sample(data, i) == OnLine(data, a, b, i)
  {
    if |data| > 1 {
      InterpOnLine(Phase(i), data, a, b);
    } else {
      assert data[0] == a + b * 0.0 && i as real / 256.0 * 0.0 == 0.0;
    }
  }

  function Ceil(x: real): int { -((-x).Floor) }

  /** cgr101_waveform_conv. */
  function Conv(value: real): int { 255 - Ceil(value * 127.5 + 127.0) }

  /** The 8-bit assertions hold exactly for values up to half a code outside [-1, 1]. */
  lemma CodeFits(value: real)
    ensures 0 <= Conv(value) <= 255 <==> -128.0 < value * 127.5 <= 128.0
  {
  }

  /** Codes fall as values rise, and are within one code step of them. */
  lemma CodeIsAntitone(x: real, y: real)
    ensures x <= y ==> Conv(y) <= Conv(x)
    ensures 0.0 <= (255 - Conv(x)) as real - (x * 127.5 + 127.0) < 1.0
  {
  }

  /** The samples of a user waveform of 1 to 256 points. */
  function Sample(data: seq<real>, i: nat): real
    requires 0 < |data| <= POINTS && i < POINTS
  {
    if |data| == 1 then data[0] else Interp(Phase(i), data)
  }

  class Generator {
    const user: array<real>
    var codes: seq<int>

    ghost predicate Valid()
      reads this
    {
      user.Length == POINTS
    }

    constructor ()
      ensures Valid() && codes == [] && fresh(user)
    {
      user := new real[POINTS](_ => 0.0);
      codes := [];
    }

    /** cgr101_waveform_create_fn: the phase is accumulated, not computed. */
    method CreateFn(wfn: real --> real)
      requires Valid() && forall i :: 0 <= i < POINTS ==> wfn.requires(Phase(i))
      modifies user
      ensures forall i :: 0 <= i < POINTS ==> user[i] == wfn(Phase(i))
    {
      var phase := 0.0;
      var i := 0;
      while i < POINTS
        invariant 0 <= i <= POINTS && phase == Phase(i)
        invariant forall k :: 0 <= k < i ==> user[k] == wfn(Phase(k))
      {
        user[i] := wfn(phase);
        phase := phase + 1.0 / 256.0;
        i := i + 1;
      }
    }

    /** cgr101_waveform_user; false for the lengths its `assert(0)` refuses. */
    method User(data: seq<real>) returns (ok: bool)
      requires Valid() && data != []
      modifies user
      ensures ok <==> |data| <= POINTS
      ensures ok ==> forall i :: 0 <= i < POINTS ==> user[i] == Sample(data, i)
    {
      ok := true;
      if |data| == 1 {
        CreateFn((phase: real) => data[0]);
      } else if |data| <= POINTS {
        CreateFn((phase: real) requires 0.0 <= phase < 1.0 => Interp(phase, data));
      } else {
        ok := false;
      }
    }

    /** cgr101_waveform_program: sends one code per sample; false when a code does not fit. */
    method Program() returns (ok: bool)
      requires Valid()
      modifies this`codes
      ensures ok <==> forall i :: 0 <= i < POINTS ==> 0 <= Conv(user[i]) <= 255
      ensures ok ==> codes == old(codes) + seq(POINTS, i requires 0 <= i < POINTS reads this, user requires Valid() => Conv(user[i]))
    {
      var i := 0;
      ghost var sent: seq<int> := [];
      assert codes + sent == codes;
      while i < POINTS
        invariant 0 <= i <= POINTS && |sent| == i && codes == old(codes) + sent
        invariant forall k :: 0 <= k < i ==> sent[k] == Conv(user[k]) && 0 <= Conv(user[k]) <= 255
      {
        var val := Conv(user[i]);
        if !(0 <= val <= 255) {
          return false;
        }
        codes := codes + [val];
        sent := sent + [val];
        assert codes == old(codes) + sent;
        i := i + 1;
      }
      ok := true;
      assert sent == seq(POINTS, i requires 0 <= i < POINTS reads this, user requires Valid() => Conv(user[i]));
    }

    /** cgr101_source_waveform_user: points in [-1, 1] always program, one code per sample. */
    method SourceUser(data: seq<real>) returns (ok: bool)
      requires Valid() && 0 < |data| <= POINTS
      modifies this`codes, user
      ensures (forall k :: 0 <= k < |data| ==> -1.0 <= data[k] <= 1.0) ==> ok
      ensures ok <==> forall i :: 0 <= i < POINTS ==> -128.0 < Sample(data, i) * 127.5 <= 128.0
      ensures ok ==> codes == old(codes) + seq(POINTS, i requires 0 <= i < POINTS => Conv(Sample(data, i)))
      ensures ok ==> forall a, b :: IsLine(data, a, b) ==>
                codes == old(codes) + seq(POINTS, i requires 0 <= i < POINTS => Conv(OnLine(data, a, b, i)))
    {
      var fits := User(data);
      forall i | 0 <= i < POINTS
        ensures 0 <= Conv(user[i]) <= 255 <==> -128.0 < Sample(data, i) * 127.5 <= 128.0
        ensures (forall k :: 0 <= k < |data| ==> -1.0 <= data[k] <= 1.0) ==> -1.0 <= Sample(data, i) <= 1.0
      {
        CodeFits(Sample(data, i));
        SampleInRange(data, i);
      }
      ok := Program();
      forall a, b | IsLine(data, a, b)
        ensures seq(POINTS, i requires 0 <= i < POINTS => Conv(Sample(data, i)))
             == seq(POINTS, i requires 0 <= i < POINTS => Conv(OnLine(data, a, b, i)))
      {
        forall i | 0 <= i < POINTS ensures Sample(data, i) == OnLine(data, a, b, i) {
          SampleOnLine(data, i, a, b);
        }
      }
    }
  }

  /** Samples stay in any range the points are in. */
  lemma SampleInRange(data: seq<real>, i: nat)
    requires 0 < |data| <= POINTS && i < POINTS
    ensures (forall k :: 0 <= k < |data| ==> -1.0 <= data[k] <= 1.0) ==> -1.0 <= Sample(data, i) <= 1.0
  {
    if |data| > 1 { InterpBetweenNeighbours(Phase(i), data); }
  }
}
