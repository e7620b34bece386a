/** Sweep timing, the scope control register and the coupled voltage range. */
module Acquisition {

  const SAMPLES := 1024
  const SR_DIV_MAX := 15
  const MIN_SWEEP_TIME := 1024.0 / 20000000.0

  function Pow2(n: nat): real { if n == 0 then 1.0 else 2.0 * Pow2(n - 1) }

  /** The sweep time of a sample rate divisor. */
  function SweepOf(div: nat): real { MIN_SWEEP_TIME * Pow2(div) }

  predicate InBand(time: real, div: nat) { SweepOf(div) <= time < SweepOf(div + 1) }

  lemma {:induction false} SweepGrows(low: nat, high: nat)
    requires low < high
    ensures 0.0 < SweepOf(low) && 2.0 * SweepOf(low) <= SweepOf(high)
    decreases high
  {
    if low + 1 < high { SweepGrows(low, high - 1); } else { PowPositive(low); }
  }

  lemma {:induction false} PowPositive(n: nat)
    ensures Pow2(n) >= 1.0 && SweepOf(n + 1) == 2.0 * SweepOf(n)
  {
    if n > 0 { PowPositive(n - 1); }
  }

  /** A time is in at most one band. */
  lemma BandIsUnique(time: real, d: nat, e: nat)
    requires InBand(time, d) && InBand(time, e)
    ensures d == e
  {
    if d < e && d + 1 < e { SweepGrows(d + 1, e); }
    if e < d && e + 1 < d { SweepGrows(e + 1, d); }
  }

  class Timebase {
    var sweepTime: real
    var divisor: nat
    var triggerOffset: int
    var triggerRef: int

    ghost predicate Valid()
      reads this
    {
      && divisor <= SR_DIV_MAX && sweepTime == SweepOf(divisor)
      && -512 <= triggerOffset < 512 && 0 <= triggerRef < SAMPLES
    }

    /** cgr101_device_reset. */
    constructor ()
      ensures Valid() && divisor == 0 && triggerOffset == 0 && triggerRef == 512
    {
      sweepTime, divisor, triggerOffset, triggerRef := MIN_SWEEP_TIME, 0, 0, 512;
    }

    /** cgr101_sweep_time: succeeds exactly from the shortest sweep up to 2^16 times it,
        picks the band the time is in, and changes nothing on failure. */
    method SetSweepTime(time: real) returns (err: bool)
      requires Valid()
      modifies this`sweepTime, this`divisor
      ensures Valid()
      ensures err <==> !(SweepOf(0) <= time < SweepOf(SR_DIV_MAX + 1))
      ensures err ==> sweepTime == old(sweepTime) && divisor == old(divisor)
      ensures !err ==> InBand(time, divisor)
    {
      var sweep := MIN_SWEEP_TIME;
      var sweep2 := sweep * 2.0;
      var div := 0;
      PowPositive(0);
      assert SweepOf(0) == MIN_SWEEP_TIME;
      hide SweepOf, Pow2;
      while div <= SR_DIV_MAX
        invariant 0 <= div <= SR_DIV_MAX + 1 && sweep == SweepOf(div) && sweep2 == SweepOf(div + 1)
        invariant SweepOf(0) <= time ==> SweepOf(div) <= time
        invariant sweepTime == old(sweepTime) && divisor == old(divisor)
      {
        if time >= sweep && time < sweep2 {
          break;
        }
        sweep := sweep2;
        sweep2 := sweep * 2.0;
        PowPositive(div + 1);
        div := div + 1;
        SweepGrows(0, div);
      }
      err := true;
      if 0 <= div <= SR_DIV_MAX {
        assert InBand(time, div);
        if div > 0 { SweepGrows(0, div); }
        if div < SR_DIV_MAX { SweepGrows(div + 1, SR_DIV_MAX + 1); }
        sweepTime, divisor := sweep, div;
        err := false;
      }
    }

    /** cgr101_digitizer_sweep_interval. */
    method SetInterval(value: real) returns (err: bool)
      requires Valid()
      modifies this`sweepTime, this`divisor
      ensures Valid() && (err ==> sweepTime == old(sweepTime) && divisor == old(divisor))
      ensures err <==> !(SweepOf(0) <= value * 1024.0 < SweepOf(SR_DIV_MAX + 1))
      ensures !err ==> InBand(value * 1024.0, divisor)
    {
      err := SetSweepTime(value * 1024.0);
    }

    /** Setting back a queried time or interval succeeds and changes nothing. */
    method SetBack() returns (err: bool)
      requires Valid()
      modifies this`sweepTime, this`divisor
      ensures !err && sweepTime == old(sweepTime) && divisor == old(divisor)
    {
      ghost var d := divisor;
      SweepGrows(d, SR_DIV_MAX + 1);
      if d > 0 { SweepGrows(0, d); }
      SweepGrows(d, d + 1);
      assert InBand(sweepTime, d);
      err := SetSweepTime(sweepTime);
      BandIsUnique(old(sweepTime), d, divisor);
      var interval := sweepTime / 1024.0;
      assert interval * 1024.0 == sweepTime;
      err := SetInterval(interval);
      BandIsUnique(old(sweepTime), d, divisor);
    }

    /** cgr101_digitizer_offset_point. */
    method SetOffsetPoint(value: real)
      requires Valid()
      modifies this`triggerOffset
      ensures Valid()
      ensures triggerOffset == if -512.0 <= value < 512.0 then value.Floor else old(triggerOffset)
    {
      var offset := value.Floor;
      if offset >= -512 && offset < 512 {
        triggerOffset := offset;
      }
    }

    /** cgr101_digitizer_oref_point. */
    method SetReferencePoint(value: real)
      requires Valid()
      modifies this`triggerRef
      ensures Valid()
      ensures triggerRef == if 0.0 <= value < 1024.0 then value.Floor else old(triggerRef)
    {
      var offset := value.Floor;
      if offset >= 0 && offset < SAMPLES {
        triggerRef := offset;
      }
    }

    /** The post-trigger count cgr101_digitizer_start sends as "S C high low"; the two
        bytes carry it whole, and it is refused exactly when reference and offset do not
        add up to a place inside the capture after its first sample. */
    method PostTrigger() returns (err: bool, high: int, low: int)
      requires Valid()
      ensures err <==> !(0 < triggerRef + triggerOffset <= SAMPLES)
      ensures !err ==> 0 <= high <= 3 && 0 <= low <= 255 && 256 * high + low == SAMPLES - triggerRef - triggerOffset
    {
      var post := SAMPLES - triggerRef - triggerOffset;
      err, high, low := true, 0, 0;
      if !(post < 0 || post >= SAMPLES) {
        low, high, err := post % 256, (post / 256) % 4, false;
      }
    }
  }

  /** The control register cgr101_digitizer_update_control packs with shifts and ors, in
      an int. */
  function Control(div: bv32, source: bv32, polarity: bv32, external: bv32, unfiltered: bv32): bv32 {
    div | (source << 4) | (polarity << 5) | (external << 6) | (unfiltered << 7)
  }

  /** Fields within the asserted ranges make a byte and come back out of it, so different
      settings pack differently. */
  lemma ControlDecodes(div: bv32, source: bv32, polarity: bv32, external: bv32, unfiltered: bv32)
    requires div <= 15 && source <= 1 && polarity <= 1 && external <= 1 && unfiltered <= 1
    ensures var c := Control(div, source, polarity, external, unfiltered);
            && c <= 255
            && c & 15 == div && (c >> 4) & 1 == source && (c >> 5) & 1 == polarity
            && (c >> 6) & 1 == external && c >> 7 == unfiltered
  {
  }

  // Voltage range

  datatype Range = Range(low: real, high: real, midpoint: real, ptp: real, lowRange: bool)

  const DEFAULT_RANGE := Range(-25.0, 25.0, 0.0, 50.0, false)

  predicate Coupled(r: Range) {
    && r.ptp == r.high - r.low && r.midpoint == (r.low + r.high) / 2.0
    && (r.lowRange <==> r.low >= -2.5 && r.high <= 2.5)
  }

  datatype Setting = Low(v: real) | High(v: real) | Offset(v: real) | Ptp(v: real)

  function Query(r: Range, s: Setting): real {
    match s case Low(_) => r.low case High(_) => r.high case Offset(_) => r.midpoint case Ptp(_) => r.ptp
  }

  function With(s: Setting, v: real): Setting {
    match s case Low(_) => Low(v) case High(_) => High(v) case Offset(_) => Offset(v) case Ptp(_) => Ptp(v)
  }

  /** What a setter means: its own value, the value it leaves alone, and the coupling. */
  predicate Means(r: Range, s: Setting, r': Range) {
    && Coupled(r') && Query(r', s) == s.v
    && match s
       case Low(_) => r'.high == r.high
       case High(_) => r'.low == r.low
       case Offset(_) => r'.ptp == r.ptp
       case Ptp(_) => r'.midpoint == r.midpoint
  }

  /** The meaning leaves no choice. */
  lemma MeaningIsUnique(r: Range, s: Setting, x: Range, y: Range)
    requires Means(r, s, x) && Means(r, s, y)
    ensures x == y
  {
  }

  /** cgr101_digitizer_set_midpoint_ptp. */
  function MidpointPtp(r: Range): Range { r.(ptp := r.high - r.low, midpoint := r.low + (r.high - r.low) / 2.0) }

  /** cgr101_digitizer_set_high_low. */
  function HighLow(r: Range): Range { r.(low := r.midpoint - r.ptp / 2.0, high := r.midpoint + r.ptp / 2.0) }

  /** cgr101_digitizer_set_range. */
  function Ranged(r: Range): Range { r.(lowRange := r.low >= -2.5 && r.high <= 2.5) }

  /** What a setter computes on one channel. */
  function Adjust(r: Range, s: Setting): Range {
    match s
    case Low(v) => Ranged(MidpointPtp(r.(low := v)))
    case High(v) => Ranged(MidpointPtp(r.(high := v)))
    case Offset(v) => Ranged(HighLow(r.(midpoint := v)))
    case Ptp(v) => Ranged(HighLow(r.(ptp := v)))
  }

  /** A coupled channel gets what the setting means. */
  lemma AdjustMeans(r: Range, s: Setting)
    ensures Means(r, s, Adjust(r, s))
  {
  }

  /** Writing back any queried value changes nothing exactly on a coupled channel. */
  lemma WriteBackIffCoupled(r: Range)
    ensures (forall t: Setting :: Adjust(r, With(t, Query(r, t))) == r) <==> Coupled(r)
  {
    if Coupled(r) {
      forall t: Setting ensures Adjust(r, With(t, Query(r, t))) == r {
        var back := With(t, Query(r, t));
        AdjustMeans(r, back);
        hide Adjust;
        MeaningIsUnique(r, back, Adjust(r, back), r);
      }
    } else {
      AdjustMeans(r, With(Low(0.0), Query(r, Low(0.0))));
    }
  }

  /** A setter on the channels of a mask. */
  function AdjustAll(rs: seq<Range>, mask: set<nat>, s: Setting): (rs': seq<Range>)
    ensures |rs'| == |rs|
  {
    seq(|rs|, c requires 0 <= c < |rs| => if c in mask then Adjust(rs[c], s) else rs[c])
  }

  function AfterSettings(rs: seq<Range>, run: seq<(set<nat>, Setting)>): (rs': seq<Range>)
    ensures |rs'| == |rs|
    decreases |run|
  {
    if run == [] then rs else AfterSettings(AdjustAll(rs, run[0].0, run[0].1), run[1..])
  }

  predicate AllCoupled(rs: seq<Range>) { forall c :: 0 <= c < |rs| ==> Coupled(rs[c]) }

  /** Over every run of the four setters on any masks from coupled channels, as reset
      leaves them: every channel stays coupled, and writing back a queried value, on any
      mask of channels that gave it, changes nothing. */
  lemma {:induction false} RangeStaysCoupled(rs: seq<Range>, run: seq<(set<nat>, Setting)>, mask: set<nat>, s: Setting)
    requires AllCoupled(rs)
    ensures var rs' := AfterSettings(rs, run);
            && AllCoupled(rs')
            && ((forall c :: 0 <= c < |rs'| && c in mask ==> Query(rs'[c], s) == s.v) ==> AdjustAll(rs', mask, s) == rs')
    decreases |run|
  {
    hide Means, Coupled, Adjust;
    if run == [] {
      forall c | 0 <= c < |rs| && c in mask && Query(rs[c], s) == s.v ensures Adjust(rs[c], s) == rs[c] {
        WriteBackIffCoupled(rs[c]);
        assert With(s, s.v) == s;
      }
    } else {
      var (m, t) := run[0];
      forall c | 0 <= c < |rs| ensures Coupled(AdjustAll(rs, m, t)[c]) {
        AdjustMeans(rs[c], t);
        MeansCoupled(rs[c], t, Adjust(rs[c], t));
      }
      RangeStaysCoupled(AdjustAll(rs, m, t), run[1..], mask, s);
    }
  }

  lemma MeansCoupled(r: Range, s: Setting, r': Range)
    requires Means(r, s, r')
    ensures Coupled(r')
  {
  }

  /** From reset. */
  lemma ResetIsCoupled()
    ensures AllCoupled([DEFAULT_RANGE, DEFAULT_RANGE])
  {
  }

  class Channels {
    const channel: array<Range>
    var commands: seq<(nat, bool)>   // "S P": channel and preamp range

    ghost predicate Valid()
      reads this
    {
      channel.Length == 2
    }

    constructor ()
      ensures Valid() && channel[0] == channel[1] == DEFAULT_RANGE && commands == [] && fresh(channel)
    {
      channel := new Range[2](_ => DEFAULT_RANGE);
      commands := [];
    }

    method SetMidpointPtp(chan: nat)
      requires Valid() && chan < 2
      modifies channel
      ensures channel[chan] == MidpointPtp(old(channel[chan])) && channel[1 - chan] == old(channel[1 - chan])
    {
      var low, high := channel[chan].low, channel[chan].high;
      var ptp := high - low;
      var midpoint := low + ptp / 2.0;
      channel[chan] := channel[chan].(ptp := ptp, midpoint := midpoint);
    }

    method SetHighLow(chan: nat)
      requires Valid() && chan < 2
      modifies channel
      ensures channel[chan] == HighLow(old(channel[chan])) && channel[1 - chan] == old(channel[1 - chan])
    {
      var ptp, midpoint := channel[chan].ptp, channel[chan].midpoint;
      channel[chan] := channel[chan].(low := midpoint - ptp / 2.0, high := midpoint + ptp / 2.0);
    }

    method SetRange(chan: nat)
      requires Valid() && chan < 2
      modifies channel, this`commands
      ensures channel[chan] == Ranged(old(channel[chan])) && channel[1 - chan] == old(channel[1 - chan])
      ensures commands == old(commands) + [(chan, channel[chan].lowRange)]
    {
      var lowRange := channel[chan].low >= -2.5 && channel[chan].high <= 2.5;
      channel[chan] := channel[chan].(lowRange := lowRange);
      commands := commands + [(chan, lowRange)];
    }

    method SetOne(chan: nat, s: Setting)
      requires Valid() && chan < 2
      modifies channel, this`commands
      ensures Means(old(channel[chan]), s, channel[chan])
      ensures channel[chan] == Adjust(old(channel[chan]), s) && channel[1 - chan] == old(channel[1 - chan])
      ensures commands == old(commands) + [(chan, channel[chan].lowRange)]
    {
      AdjustMeans(channel[chan], s);
      hide Means;
      match s {
        case Low(v) =>
          channel[chan] := channel[chan].(low := v);
          SetMidpointPtp(chan);
        case High(v) =>
          channel[chan] := channel[chan].(high := v);
          SetMidpointPtp(chan);
        case Offset(v) =>
          channel[chan] := channel[chan].(midpoint := v);
          SetHighLow(chan);
        case Ptp(v) =>
          channel[chan] := channel[chan].(ptp := v);
          SetHighLow(chan);
      }
      SetRange(chan);
    }

    /** The four range setters over a channel mask; a coupled pair of channels stays so. */
    method Set(mask: set<nat>, s: Setting)
      requires Valid()
      modifies channel, this`commands
      ensures channel[..] == AdjustAll(old(channel[..]), mask, s)
      ensures forall c :: 0 <= c < 2 && c in mask ==> Means(old(channel[c]), s, channel[c])
      ensures commands == old(commands) + (if 0 in mask then [(0, channel[0].lowRange)] else [])
                                        + (if 1 in mask then [(1, channel[1].lowRange)] else [])
    {
      hide Means, Adjust;
      var chan := 0;
      while chan < 2
        invariant 0 <= chan <= 2
        invariant forall c :: 0 <= c < 2 ==> if c in mask && c < chan then channel[c] == Adjust(old(channel[c]), s)
                                             else channel[c] == old(channel[c])
        invariant forall c :: 0 <= c < chan && c in mask ==> Means(old(channel[c]), s, channel[c])
        invariant commands == old(commands) + (if 0 in mask && chan > 0 then [(0, channel[0].lowRange)] else [])
                                            + (if 1 in mask && chan > 1 then [(1, channel[1].lowRange)] else [])
      {
        if chan in mask {
          SetOne(chan, s);
        }
        chan := chan + 1;
      }
    }
  }
}
