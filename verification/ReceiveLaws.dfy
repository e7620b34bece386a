/** What holds over every run of the receive machine. */
module ReceiveLaws {
  import opened Conversion
  import opened Receive
  import opened Framing

  // Coupling of the receive state and its sub-states

  /** Each receive state comes with a legal sub-state, and the capture index is in range. */
  predicate Coupled(d: Dev) {
    && Sized(d) && |d.id| <= ID_MAX && |d.error| <= E_MAX
    && match d.rcv
       case IdentifyText => d.ident.IdentifyPending?
       case ScopeOffset => !d.scope.offset.OffsetIdle? && !d.scope.offset.OffsetComplete?
       case ScopeStatus => d.scope.status.StatusPending?
       case ScopeAddr => d.scope.addr.AddrHigh? || (d.scope.addr.AddrLow? && d.scope.addrValue in {0, 256, 512, 768})
       case ScopeData => !d.scope.data.DataIdle? && !d.scope.data.DataComplete? && d.scope.count < SAMPLES
       case _ => true
  }

  predicate RecorderFull(d: Dev, channel: nat) { channel in d.rec.mask && |d.rec.records| >= d.rec.max }

  /** The bytes a state does not take: text past its buffer, an event past the recorder,
      an address over 10 bits, a capture without an address, junk after '!'. */
  predicate Refused(d: Dev, c: Byte) {
    match d.rcv
    case IdentifyText => c != LF && c != CR && |d.id| == ID_MAX
    case ErrorText => c != CR && |d.error| == E_MAX
    case DigitalRead => RecorderFull(d, DIGITAL_DATA_CHANNEL)
    case InterruptText => if c == LF then RecorderFull(d, INTERRUPT_CHANNEL) else c != CR && c != BANG
    case ScopeAddr => d.scope.addr.AddrHigh? && c > 3
    case ScopeData => d.scope.data.DataBLow? && d.scope.count == SAMPLES - 1 && !d.scope.addr.AddrComplete?
    case _ => false
  }

  /** From a coupled state exactly the refused bytes fail, so no `default: assert(0)` is
      reachable, and every other byte keeps the coupling. */
  lemma StepKeepsCoupling(d: Dev, c: Byte)
    requires Coupled(d)
    ensures Step(d, c).None? <==> Refused(d, c)
    ensures Step(d, c).Some? ==> Coupled(Step(d, c).value)
  {
    match d.rcv
    case Idle =>
    case ScopeData => DataKeepsCoupling(d, c);
    case ScopeOffset => hide Data, DigitalEvent, OffsetVolts;
    case DigitalRead => hide Data, Offset;
    case InterruptText => hide Data, Offset;
    case _ => hide Data, Offset, Notice;
  }

  lemma DataKeepsCoupling(d: Dev, c: Byte)
    requires Coupled(d) && d.rcv.ScopeData?
    ensures Data(d, c).None? <==> Refused(d, c)
    ensures Data(d, c).Some? ==> Coupled(Data(d, c).value)
  {
    hide Readout;
  }

  /** cgr101_abort. */
  function Abort(d: Dev): (r: Option<Dev>) {
    match if d.flags.sweep then DataDone(d, DataIdle) else Some(d)
    case None => None
    case Some(d1) => Some(if d1.flags.event then EventDone(d1) else d1)
  }

  /** Abort fails its assertion exactly when a sweep has no address yet, and keeps the
      coupling exactly when it does not cut a capture frame short. */
  lemma AbortKeepsCoupling(d: Dev)
    requires Coupled(d)
    ensures Abort(d).None? <==> d.flags.sweep && !d.scope.addr.AddrComplete?
    ensures Abort(d).Some? ==> (Coupled(Abort(d).value) <==> !(d.flags.sweep && d.rcv.ScopeData?))
  {
  }

  /** A capture frame cut short by an abort: its next byte hits `assert(0)`, whatever it is. */
  lemma ByteAfterCutCapture(d: Dev, c: Byte)
    requires Coupled(d) && d.flags.sweep && d.rcv.ScopeData? && Abort(d).Some?
    ensures Sized(Abort(d).value) && Step(Abort(d).value, c).None?
  {
  }

  datatype Action = Receive(c: Byte) | StartSweep | AbortCommand

  /** cgr101_digitizer_start, having succeeded; the address of the last capture stays. */
  function SweepStarted(d: Dev): Dev { d.(flags := d.flags.(overlapped := true, sweep := true)) }

  predicate Unsafe(d: Dev, a: Action) {
    match a
    case Receive(c) => Refused(d, c)
    case StartSweep => false
    case AbortCommand => d.flags.sweep && (!d.scope.addr.AddrComplete? || d.rcv.ScopeData?)
  }

  function Act(d: Dev, a: Action): (r: Option<Dev>)
    requires Sized(d)
    ensures r.Some? ==> Sized(r.value)
  {
    match a case Receive(c) => Step(d, c) case StartSweep => Some(SweepStarted(d)) case AbortCommand => Abort(d)
  }

  /** Every action is safe in the state it meets. */
  predicate SafeRun(d: Dev, run: seq<Action>)
    requires Sized(d)
    decreases |run|
  {
    run == [] ||
    (!Unsafe(d, run[0]) && (Act(d, run[0]).Some? ==> SafeRun(Act(d, run[0]).value, run[1..])))
  }

  function ActAll(d: Dev, run: seq<Action>): (r: Option<Dev>)
    requires Sized(d)
    ensures r.Some? ==> Sized(r.value)
    decreases |run|
  {
    if run == [] then Some(d) else
      match Act(d, run[0])
      case None => None
      case Some(d1) => ActAll(d1, run[1..])
  }

  /** Over any interleaving of bytes, sweeps started and aborts: a run all of whose actions are safe where
      they happen never fails an assertion and is coupled at every point. */
  lemma {:induction false} CouplingOverRuns(d: Dev, run: seq<Action>, n: nat)
    requires Coupled(d) && SafeRun(d, run) && n <= |run|
    ensures ActAll(d, run[..n]).Some? && Coupled(ActAll(d, run[..n]).value)
    decreases |run|
  {
    hide Step, Abort;
    if n > 0 {
      match run[0] {
        case Receive(c) => StepKeepsCoupling(d, c);
        case StartSweep =>
        case AbortCommand => AbortKeepsCoupling(d);
      }
      CouplingOverRuns(Act(d, run[0]).value, run[1..], n - 1);
      assert run[..n][1..] == run[1..][..n - 1];
    }
  }

  // The event recorder

  function EventOf(mask: set<nat>, f: Frame): (events: seq<nat>)
    ensures |events| <= 1
  {
    match f
    case Input(v) => if DIGITAL_DATA_CHANNEL in mask then [v as nat] else []
    case Pin(_) => if INTERRUPT_CHANNEL in mask then [DIGITAL_EVENT_INTERRUPT] else []
    case _ => []
  }

  function EventsOf(mask: set<nat>, fs: seq<Frame>): seq<nat> {
    if fs == [] then [] else EventOf(mask, fs[0]) + EventsOf(mask, fs[1..])
  }

  /** The recorder after a run that brought these events. */
  function Recording(rec: Recorder, events: seq<nat>): Recorder {
    var all := rec.records + events;
    if |rec.records| >= rec.max then rec
    else if |all| < rec.max then rec.(records := all)
    else rec.(records := all[..rec.max], mask := {})
  }

  lemma {:induction false} NoEventsWhenOff(fs: seq<Frame>)
    ensures EventsOf({}, fs) == []
  {
    if fs != [] { NoEventsWhenOff(fs[1..]); }
  }

  lemma RecorderStep(d: Dev, f: Frame)
    requires Sized(d) && Shaped(f) && (|d.rec.records| < d.rec.max || d.rec.mask == {})
    ensures var r := Apply(d, f);
            && (r.None? ==> f.Identity? || f.Failure? || f.Capture?)
            && (r.Some? ==>
                  && r.value.rec == Recording(d.rec, EventOf(d.rec.mask, f))
                  && r.value.flags.event == (d.flags.event && (EventOf(d.rec.mask, f) == [] || r.value.rec.mask != {})))
  {
    var all := d.rec.records + EventOf(d.rec.mask, f);
    assert EventOf(d.rec.mask, f) == [] ==> all == d.rec.records;
    assert |all| == d.rec.max ==> all[..d.rec.max] == all;
  }

  /** Exactly the first `max` events on selected channels are kept, in arrival order;
      then the mask and the status clear and nothing more is recorded. */
  lemma {:induction false} RecorderKeepsFirst(d: Dev, fs: seq<Frame>)
    requires Sized(d) && AllShaped(fs) && |d.rec.records| < d.rec.max && ApplyAll(d, fs).Some?
    ensures var d' := ApplyAll(d, fs).value;
            var events := EventsOf(d.rec.mask, fs);
            && d'.rec == Recording(d.rec, events)
            && (|d.rec.records| + |events| < d.rec.max ==> d'.flags.event == d.flags.event)
            && (|d.rec.records| + |events| >= d.rec.max ==> !d'.flags.event)
    decreases |fs|
  {
    hide Apply;
    if fs == [] {
      assert d.rec.records + [] == d.rec.records;
    } else {
      RecorderStep(d, fs[0]);
      var one, rest := EventOf(d.rec.mask, fs[0]), EventsOf(d.rec.mask, fs[1..]);
      var d1 := Apply(d, fs[0]).value;
      assert d.rec.records + (one + rest) == d.rec.records + one + rest;
      if |d.rec.records + one| < d.rec.max {
        RecorderKeepsFirst(d1, fs[1..]);
      } else {
        RecorderStaysOff(d1, fs[1..]);
        assert (d.rec.records + one + rest)[..d.rec.max] == (d.rec.records + one)[..d.rec.max];
      }
    }
  }

  lemma {:induction false} RecorderStaysOff(d: Dev, fs: seq<Frame>)
    requires Sized(d) && AllShaped(fs) && d.rec.mask == {} && ApplyAll(d, fs).Some?
    ensures ApplyAll(d, fs).value.rec == d.rec
    ensures !d.flags.event ==> !ApplyAll(d, fs).value.flags.event
    decreases |fs|
  {
    hide Apply;
    if fs != [] {
      RecorderStep(d, fs[0]);
      assert d.rec.records + [] == d.rec.records;
      var d1 := Apply(d, fs[0]).value;
      RecorderStaysOff(d1, fs[1..]);
    }
  }

  /** The recorder has room while an event could reach it. */
  predicate HasRoom(rec: Recorder) { Selects(rec.mask) ==> |rec.records| < rec.max }

  /** cgr101_configure_digital_event. */
  function Configure(mode: char, count: nat, mask: set<nat>): Recorder { Recorder(mask, mode, [], count, false) }

  /** Configuring leaves room exactly when the count is positive or no event channel is
      selected: a count of 0 on an event channel makes the first event fail. */
  lemma ConfigureHasRoom(d: Dev, mode: char, count: nat, mask: set<nat>)
    requires Sized(d)
    ensures HasRoom(Configure(mode, count, mask)) <==> count >= 1 || !Selects(mask)
    ensures !HasRoom(Configure(mode, count, mask)) ==>
              var d1 := d.(rec := Configure(mode, count, mask));
              exists f: Frame :: Shaped(f) && Apply(d1, f).None? && (f.Input? || f.Pin?)
  {
    var d1 := d.(rec := Configure(mode, count, mask));
    if count == 0 && Selects(mask) {
      var f := if DIGITAL_DATA_CHANNEL in mask then Input(0) else Pin([]);
      assert Shaped(f) && Apply(d1, f).None?;
    }
  }

  /** Room is kept by every frame. */
  lemma FrameKeepsRoom(d: Dev, f: Frame)
    requires Sized(d) && Shaped(f) && HasRoom(d.rec) && Apply(d, f).Some?
    ensures HasRoom(Apply(d, f).value.rec)
  {
  }

  // What the recorder sends and prints

  /** An interrupt frame ends that the recorder takes without filling. */
  predicate TakesInterrupt(d: Dev, c: Byte) {
    d.rcv.InterruptText? && c == LF && INTERRUPT_CHANNEL in d.rec.mask && |d.rec.records| + 1 < d.rec.max
  }

  /** Every byte: such an interrupt sends one re-arm command in the mode set up, a whole
      address asks for the buffer, and no other byte sends anything. */
  lemma ByteSends(d: Dev, c: Byte)
    requires Sized(d) && Step(d, c).Some?
    ensures Step(d, c).value.log.commands
         == d.log.commands + (if TakesInterrupt(d, c) then [Rearm(d.rec.mode)]
                              else if d.rcv.ScopeAddr? && d.scope.addr.AddrLow? then [GetBuffer] else [])
  {
    assert d.log.commands + [] == d.log.commands;
    match d.rcv
    case ScopeData => hide Readout;
    case DigitalRead => hide Data, Offset, RecordedItems;
    case InterruptText => hide Data, Offset, RecordedItems;
    case _ => hide Data, Notice, OffsetVolts;
  }

  /** The re-arm commands among those sent. */
  function Rearms(cs: seq<Command>): seq<Command> {
    if cs == [] then [] else (if cs[0].Rearm? then [cs[0]] else []) + Rearms(cs[1..])
  }

  /** The recorded events among the elements printed. */
  function Printed(items: seq<Item>): seq<nat> {
    if items == [] then [] else (if items[0].Recorded? then [items[0].data] else []) + Printed(items[1..])
  }

  lemma {:induction false} RearmsAppend(x: seq<Command>, y: seq<Command>)
    ensures Rearms(x + y) == Rearms(x) + Rearms(y)
  {
    if x == [] {
      assert x + y == y;
    } else {
      assert (x + y)[1..] == x[1..] + y;
      RearmsAppend(x[1..], y);
    }
  }

  lemma {:induction false} PrintedAppend(x: seq<Item>, y: seq<Item>)
    ensures Printed(x + y) == Printed(x) + Printed(y)
  {
    if x == [] {
      assert x + y == y;
    } else {
      assert (x + y)[1..] == x[1..] + y;
      PrintedAppend(x[1..], y);
    }
  }

  lemma {:induction false} PrintedOfRecords(records: seq<nat>)
    ensures Printed(RecordedItems(records)) == records
  {
    if records != [] {
      assert RecordedItems(records)[1..] == RecordedItems(records[1..]);
      PrintedOfRecords(records[1..]);
    }
  }

  lemma {:induction false} PrintedOfVolts(scale: (real, real), samples: seq<int>)
    ensures Printed(Volts(scale, samples)) == []
  {
    if samples != [] {
      assert Volts(scale, samples)[1..] == Volts(scale, samples[1..]);
      PrintedOfVolts(scale, samples[1..]);
    }
  }

  lemma PrintedOfReadout(d: Dev, mask: set<nat>)
    requires Sized(d)
    ensures Printed(Readout(d, mask)) == []
  {
    hide Volts, StepOffset;
    PrintedOfVolts(StepOffset(d.scope, 0), Unroll(d.a, d.scope.addrValue));
    PrintedOfVolts(StepOffset(d.scope, 1), Unroll(d.b, d.scope.addrValue));
    PrintedAppend(if 0 in mask then Volts(StepOffset(d.scope, 0), Unroll(d.a, d.scope.addrValue)) else [],
                  if 1 in mask then Volts(StepOffset(d.scope, 1), Unroll(d.b, d.scope.addrValue)) else []);
  }

  /** The device is re-armed after each interrupt the recorder takes without filling, in
      the mode it was set up with; `room` events are still to come. */
  function RearmsFor(rec: Recorder, room: int, fs: seq<Frame>): seq<Command> {
    if fs == [] || room <= 0 then [] else
      var n := |EventOf(rec.mask, fs[0])|;
      (if n > 0 && fs[0].Pin? && room > 1 then [Rearm(rec.mode)] else []) + RearmsFor(rec, room - n, fs[1..])
  }

  /** What is printed when a waiting recorder fills: all it was set up for. */
  function PrintsFor(rec: Recorder, events: seq<nat>): seq<nat> {
    var all := rec.records + events;
    if rec.pending && events != [] && |all| >= rec.max then all[..rec.max] else []
  }

  /** One event of a recorder with room. */
  lemma EventSays(d: Dev, data: nat)
    requires |d.rec.records| < d.rec.max
    ensures var r := DigitalEvent(d, data); var all := d.rec.records + [data];
            && r.Some?
            && Rearms(r.value.log.commands) == Rearms(d.log.commands)
               + (if data == DIGITAL_EVENT_INTERRUPT && |all| < d.rec.max then [Rearm(d.rec.mode)] else [])
            && Printed(r.value.log.items) == Printed(d.log.items) + (if d.rec.pending && |all| == d.rec.max then all else [])
            && r.value.rec.mode == d.rec.mode && r.value.rec.pending == d.rec.pending && r.value.rec.max == d.rec.max
  {
    var all := d.rec.records + [data];
    PrintedOfRecords(all);
    PrintedAppend(d.log.items, RecordedItems(all));
    RearmsAppend(d.log.commands, [Rearm(d.rec.mode)]);
    assert Rearms([Rearm(d.rec.mode)]) == [Rearm(d.rec.mode)];
    assert Rearms(d.log.commands) + [] == Rearms(d.log.commands) && Printed(d.log.items) + [] == Printed(d.log.items);
    hide RecordedItems, Rearms, Printed;
  }

  /** One frame that brings no event. */
  lemma QuietFrame(d: Dev, f: Frame)
    requires Sized(d) && Shaped(f) && EventOf(d.rec.mask, f) == [] && Apply(d, f).Some?
    ensures var d1 := Apply(d, f).value;
            Rearms(d1.log.commands) == Rearms(d.log.commands) && Printed(d1.log.items) == Printed(d.log.items) && d1.rec == d.rec
  {
    hide Readout, DigitalEvent, Rearms, Printed;
    NoRearm(d.log.commands);
    NothingPrinted(d.log.items);
    if f.Capture? {
      var d1 := d.(a := SamplesA(f.quads), b := SamplesB(f.quads), flags := d.flags.(overlapped := false, sweep := false),
                   scope := d.scope.(count := SAMPLES, data := DataComplete, pending := false));
      PrintedOfReadout(d1, d.scope.mask);
      PrintedAppend(d.log.items, Readout(d1, d.scope.mask));
    }
  }

  lemma NoRearm(cs: seq<Command>)
    ensures Rearms(cs + [GetBuffer]) == Rearms(cs)
  {
    RearmsAppend(cs, [GetBuffer]);
  }

  lemma NothingPrinted(items: seq<Item>)
    ensures items + [] == items && Printed(items) + [] == Printed(items)
  {
  }

  /** One frame that brings an event. */
  lemma LoudFrame(d: Dev, f: Frame)
    requires Sized(d) && Shaped(f) && EventOf(d.rec.mask, f) != [] && |d.rec.records| < d.rec.max
    ensures var e := EventOf(d.rec.mask, f); var all := d.rec.records + e;
            && |e| == 1 && Apply(d, f).Some?
            && var d1 := Apply(d, f).value;
            && Rearms(d1.log.commands)
            == Rearms(d.log.commands) + (if f.Pin? && |all| < d.rec.max then [Rearm(d.rec.mode)] else [])
            && Printed(d1.log.items) == Printed(d.log.items) + (if d.rec.pending && |all| == d.rec.max then all else [])
            && d1.rec.mode == d.rec.mode && d1.rec.pending == d.rec.pending && d1.rec.max == d.rec.max
  {
    hide Rearms, Printed, DigitalEvent;
    match f
    case Input(v) => EventSays(d.(digital := v), v);
    case Pin(_) => EventSays(d, DIGITAL_EVENT_INTERRUPT);
  }

  /** Over any frames: the re-arm commands sent are those due, each in the recorder's mode,
      and when a waiting recorder fills it prints exactly its first `max` events, once. */
  lemma {:induction false} RecorderSays(d: Dev, fs: seq<Frame>)
    requires Sized(d) && AllShaped(fs) && |d.rec.records| < d.rec.max && ApplyAll(d, fs).Some?
    ensures var d' := ApplyAll(d, fs).value;
            && Rearms(d'.log.commands) == Rearms(d.log.commands) + RearmsFor(d.rec, d.rec.max - |d.rec.records|, fs)
            && Printed(d'.log.items) == Printed(d.log.items) + PrintsFor(d.rec, EventsOf(d.rec.mask, fs))
    decreases |fs|
  {
    hide Apply, Rearms, Printed, RearmsFor, PrintsFor, Recording, Shaped, EventOf;
    if fs == [] {
      NothingSaid(d);
    } else {
      var one, rest, d1 := EventOf(d.rec.mask, fs[0]), EventsOf(d.rec.mask, fs[1..]), Apply(d, fs[0]).value;
      SaysStep(d.rec, fs);
      if one == [] {
        QuietFrame(d, fs[0]);
        RecorderSays(d1, fs[1..]);
      } else {
        LoudStep(d, fs[0]);
        var all := d.rec.records + one;
        if |all| < d.rec.max {
          RecorderSays(d1, fs[1..]);
          SameRearms(d.rec, d1.rec, d.rec.max - |all|, fs[1..]);
        } else {
          OffSays(d1, fs[1..]);
        }
      }
    }
  }

  /** A frame with an event, and the recorder after it. */
  lemma LoudStep(d: Dev, f: Frame)
    requires Sized(d) && Shaped(f) && EventOf(d.rec.mask, f) != [] && |d.rec.records| < d.rec.max
    ensures var all := d.rec.records + EventOf(d.rec.mask, f);
            && |EventOf(d.rec.mask, f)| == 1 && Apply(d, f).Some?
            && var d1 := Apply(d, f).value;
            && Rearms(d1.log.commands)
            == Rearms(d.log.commands) + (if f.Pin? && |all| < d.rec.max then [Rearm(d.rec.mode)] else [])
            && Printed(d1.log.items) == Printed(d.log.items) + (if d.rec.pending && |all| == d.rec.max then all else [])
            && d1.rec == d.rec.(records := all, mask := if |all| < d.rec.max then d.rec.mask else {})
  {
    hide Rearms, Printed;
    LoudFrame(d, f);
    RecorderStep(d, f);
    var all := d.rec.records + EventOf(d.rec.mask, f);
    assert |all| == d.rec.max ==> all[..d.rec.max] == all;
    hide Apply;
  }

  /** What is due, one frame at a time. */
  lemma SaysStep(rec: Recorder, fs: seq<Frame>)
    requires fs != [] && |rec.records| < rec.max
    ensures var room, one, rest := rec.max - |rec.records|, EventOf(rec.mask, fs[0]), EventsOf(rec.mask, fs[1..]);
            var all := rec.records + one;
            && (one == [] ==> RearmsFor(rec, room, fs) == RearmsFor(rec, room, fs[1..])
                              && PrintsFor(rec, one + rest) == PrintsFor(rec, rest))
            && (one != [] && |all| < rec.max ==>
                  RearmsFor(rec, room, fs) == (if fs[0].Pin? then [Rearm(rec.mode)] else []) + RearmsFor(rec, rec.max - |all|, fs[1..])
                  && PrintsFor(rec, one + rest) == PrintsFor(rec.(records := all), rest))
            && (one != [] && |all| == rec.max ==>
                  RearmsFor(rec, room, fs) == [] && PrintsFor(rec, one + rest) == if rec.pending then all else [])
  {
    hide RearmsFor, PrintsFor;
    RearmsStep(rec, rec.max - |rec.records|, fs);
    PrintsStep(rec, EventOf(rec.mask, fs[0]), EventsOf(rec.mask, fs[1..]));
    hide EventOf, EventsOf;
  }

  lemma RearmsStep(rec: Recorder, room: int, fs: seq<Frame>)
    requires fs != [] && room > 0
    ensures var one := EventOf(rec.mask, fs[0]);
            && (one == [] ==> RearmsFor(rec, room, fs) == RearmsFor(rec, room, fs[1..]))
            && (one != [] && room > 1 ==>
                  RearmsFor(rec, room, fs) == (if fs[0].Pin? then [Rearm(rec.mode)] else []) + RearmsFor(rec, room - 1, fs[1..]))
            && (one != [] && room == 1 ==> RearmsFor(rec, room, fs) == [])
  {
    hide EventOf;
    assert [] + RearmsFor(rec, room, fs[1..]) == RearmsFor(rec, room, fs[1..]);
    assert RearmsFor(rec, 0, fs[1..]) == [];
  }

  lemma PrintsStep(rec: Recorder, one: seq<nat>, rest: seq<nat>)
    requires |rec.records| < rec.max && |one| <= 1
    ensures var all := rec.records + one;
            && (one == [] ==> PrintsFor(rec, one + rest) == PrintsFor(rec, rest))
            && (one != [] && |all| < rec.max ==> PrintsFor(rec, one + rest) == PrintsFor(rec.(records := all), rest))
            && (one != [] && |all| == rec.max ==> PrintsFor(rec, one + rest) == if rec.pending then all else [])
  {
    var all := rec.records + one;
    if one == [] {
      assert one + rest == rest;
    } else {
      assert rec.records + (one + rest) == all + rest;
      if |all| == rec.max { assert (all + rest)[..rec.max] == all; }
    }
  }

  lemma NothingSaid(d: Dev)
    ensures Rearms(d.log.commands) + RearmsFor(d.rec, d.rec.max - |d.rec.records|, []) == Rearms(d.log.commands)
    ensures Printed(d.log.items) + PrintsFor(d.rec, []) == Printed(d.log.items)
  {
  }

  lemma {:induction false} SameRearms(x: Recorder, y: Recorder, room: int, fs: seq<Frame>)
    requires x.mask == y.mask && x.mode == y.mode
    ensures RearmsFor(x, room, fs) == RearmsFor(y, room, fs)
    decreases |fs|
  {
    if fs != [] && room > 0 { SameRearms(x, y, room - |EventOf(x.mask, fs[0])|, fs[1..]); }
  }

  /** A recorder that is off says nothing. */
  lemma {:induction false} OffSays(d: Dev, fs: seq<Frame>)
    requires Sized(d) && AllShaped(fs) && d.rec.mask == {} && ApplyAll(d, fs).Some?
    ensures var d' := ApplyAll(d, fs).value;
            Rearms(d'.log.commands) == Rearms(d.log.commands) && Printed(d'.log.items) == Printed(d.log.items)
    decreases |fs|
  {
    hide Apply, Rearms, Printed;
    if fs != [] {
      QuietFrame(d, fs[0]);
      OffSays(Apply(d, fs[0]).value, fs[1..]);
    }
  }

  /** cgr101_fetch_digital_event. */
  function Fetch(d: Dev): Dev {
    if d.flags.event then d.(rec := d.rec.(pending := true)) else Print(d, RecordedItems(d.rec.records))
  }

  /** A recording set up for `count` events and started, frames, a fetch, more frames: once
      `count` events have come, exactly the first `count` of them have been printed, once
      and in order, whenever the fetch was made. */
  lemma FetchWhenever(d: Dev, mode: char, count: nat, mask: set<nat>, before: seq<Frame>, after: seq<Frame>)
    requires Sized(d) && AllShaped(before) && AllShaped(after) && count >= 1
    requires var d0 := Started(d, mode, count, mask);
             && ApplyAll(d0, before).Some? && ApplyAll(Fetch(ApplyAll(d0, before).value), after).Some?
    requires |EventsOf(mask, before) + EventsOf(mask, after)| >= count
    ensures var d1 := ApplyAll(Started(d, mode, count, mask), before).value;
            Printed(ApplyAll(Fetch(d1), after).value.log.items)
            == Printed(d.log.items) + (EventsOf(mask, before) + EventsOf(mask, after))[..count]
  {
    hide Rearms, Printed, Apply;
    var d0, x, y := Started(d, mode, count, mask), EventsOf(mask, before), EventsOf(mask, after);
    RecorderSays(d0, before);
    RecorderKeepsFirst(d0, before);
    var d1 := ApplyAll(d0, before).value;
    assert [] + x == x && Printed(d.log.items) + [] == Printed(d.log.items);
    if |x| >= count {
      PrintedOfRecords(d1.rec.records);
      PrintedAppend(d1.log.items, RecordedItems(d1.rec.records));
      OffSays(Fetch(d1), after);
      assert (x + y)[..count] == x[..count];
    } else {
      RecorderSays(Fetch(d1), after);
    }
  }

  /** Configured, and initiated on an event channel. */
  function Started(d: Dev, mode: char, count: nat, mask: set<nat>): Dev {
    d.(rec := Configure(mode, count, mask), flags := d.flags.(event := true))
  }

  // Identification text

  function Identities(fs: seq<Frame>): seq<Byte> {
    if fs == [] then [] else (if fs[0].Identity? then Kept(fs[0].text) else []) + Identities(fs[1..])
  }

  lemma OneIdentity(d: Dev, f: Frame)
    requires Sized(d) && Shaped(f) && Apply(d, f).Some?
    ensures Apply(d, f).value.id == d.id + if f.Identity? then Kept(f.text) else []
  {
    assert d.id + [] == d.id;
  }

  /** The identification is the text of every identify frame so far, one after another:
      the length is never reset. */
  lemma {:induction false} IdentityAccumulates(d: Dev, fs: seq<Frame>)
    requires Sized(d) && AllShaped(fs) && ApplyAll(d, fs).Some?
    ensures ApplyAll(d, fs).value.id == d.id + Identities(fs)
    decreases |fs|
  {
    hide Apply;
    if fs == [] {
      assert d.id + [] == d.id;
    } else {
      var d1 := Apply(d, fs[0]).value;
      OneIdentity(d, fs[0]);
      var one, rest := if fs[0].Identity? then Kept(fs[0].text) else [], Identities(fs[1..]);
      assert d.id + (one + rest) == d.id + one + rest;
      IdentityAccumulates(d1, fs[1..]);
    }
  }

  // When a stream of frames is taken whole

  /** Every error text fits its buffer with its header and terminator. */
  predicate FailuresFit(fs: seq<Frame>) {
    forall i :: 0 <= i < |fs| && fs[i].Failure? ==> |Kept(fs[i].text)| + 2 <= E_MAX
  }

  /** An address is known, or a frame brings one before the first capture. */
  predicate AddressFirst(known: bool, fs: seq<Frame>) {
    known || forall i :: 0 <= i < |fs| && fs[i].Capture? ==> exists j :: 0 <= j < i && fs[j].Address?
  }

  /** No event meets a recorder without room. */
  predicate EventsFit(rec: Recorder, fs: seq<Frame>) { HasRoom(rec) || EventsOf(rec.mask, fs) == [] }

  predicate Taken(d: Dev, fs: seq<Frame>) {
    && |d.id| + |Identities(fs)| <= ID_MAX && FailuresFit(fs)
    && AddressFirst(d.scope.addr.AddrComplete?, fs) && EventsFit(d.rec, fs)
  }

  /** One frame: what it needs of the state, and what it changes that later frames need. */
  lemma FrameTaken(d: Dev, f: Frame)
    requires Sized(d) && Shaped(f)
    ensures var r := Apply(d, f);
            && (r.Some? <==> match f
                             case Identity(text) => |d.id| + |Kept(text)| <= ID_MAX
                             case Failure(text) => |Kept(text)| + 2 <= E_MAX
                             case Capture(_) => d.scope.addr.AddrComplete?
                             case _ => HasRoom(d.rec) || EventOf(d.rec.mask, f) == [])
            && (r.Some? ==>
                  && r.value.id == d.id + (if f.Identity? then Kept(f.text) else [])
                  && (r.value.scope.addr.AddrComplete? <==> f.Address? || d.scope.addr.AddrComplete?)
                  && (HasRoom(r.value.rec) <==> HasRoom(d.rec))
                  && (!HasRoom(d.rec) ==> r.value.rec == d.rec))
  {
    hide Kept, Readout;
    assert d.id + [] == d.id;
  }

  lemma AddressStep(known: bool, fs: seq<Frame>)
    requires fs != []
    ensures AddressFirst(known, fs) <==> (fs[0].Capture? ==> known) && AddressFirst(known || fs[0].Address?, fs[1..])
  {
    var rest := fs[1..];
    if !known && AddressFirst(known, fs) && !fs[0].Address? {
      forall i | 0 <= i < |rest| && rest[i].Capture? ensures exists j :: 0 <= j < i && rest[j].Address? {
        assert fs[i + 1].Capture?;
        var j :| 0 <= j < i + 1 && fs[j].Address?;
        assert rest[j - 1].Address?;
      }
    }
    if !known && (fs[0].Capture? ==> known) && AddressFirst(known || fs[0].Address?, rest) {
      forall i | 0 <= i < |fs| && fs[i].Capture? ensures exists j :: 0 <= j < i && fs[j].Address? {
        assert i > 0 && rest[i - 1].Capture?;
        if !fs[0].Address? {
          var j :| 0 <= j < i - 1 && rest[j].Address?;
          assert fs[j + 1].Address?;
        }
      }
    }
  }

  lemma FailuresStep(fs: seq<Frame>)
    requires fs != []
    ensures FailuresFit(fs) <==> (fs[0].Failure? ==> |Kept(fs[0].text)| + 2 <= E_MAX) && FailuresFit(fs[1..])
  {
    hide Kept;
    if FailuresFit(fs[1..]) {
      assert forall i :: 0 < i < |fs| ==> fs[i] == fs[1..][i - 1];
    }
  }

  /** From the frames alone: a stream is taken without a failed assertion exactly when its
      identification texts together and each error text fit their buffers, an address
      comes before the first capture, and no event meets a recorder without room. */
  lemma {:induction false} StreamIsTaken(d: Dev, fs: seq<Frame>)
    requires Between(d) && AllShaped(fs)
    ensures ApplyAll(d, fs).Some? <==> Taken(d, fs)
    decreases |fs|
  {
    hide Apply, Kept, HasRoom;
    if fs != [] {
      FrameTaken(d, fs[0]);
      AddressStep(d.scope.addr.AddrComplete?, fs);
      FailuresStep(fs);
      var r := Apply(d, fs[0]);
      if r.Some? {
        ApplyEndsBetween(d, fs[0]);
        StreamIsTaken(r.value, fs[1..]);
      }
    }
  }

  // Aborts in the middle of a stream

  function Bytes(run: seq<Action>): seq<Byte> {
    if run == [] then [] else (if run[0].Receive? then [run[0].c] else []) + Bytes(run[1..])
  }

  /** Every abort meets its precondition; nothing is said of the bytes. */
  predicate AbortsMeet(d: Dev, run: seq<Action>)
    requires Sized(d)
    decreases |run|
  {
    run == [] ||
    ((run[0].AbortCommand? ==> !Unsafe(d, run[0])) && (Act(d, run[0]).Some? ==> AbortsMeet(Act(d, run[0]).value, run[1..])))
  }

  /** `d` is `e` but for sweeps started and aborts: the same place in the stream, the recorder perhaps off. */
  predicate Shadow(d: Dev, e: Dev) { Coupled(d) && Coupled(e) && Alike(d, e) }

  predicate Alike(d: Dev, e: Dev) {
    && d.rcv == e.rcv && d.id == e.id && d.error == e.error && AlikeScope(d, e)
    && (d.rec.mask == {} || (d.rec.mask == e.rec.mask && |d.rec.records| == |e.rec.records| && d.rec.max == e.rec.max))
  }

  predicate AlikeScope(d: Dev, e: Dev) {
    && d.scope.addr == e.scope.addr && d.scope.addrValue == e.scope.addrValue
    && d.scope.status == e.scope.status && d.scope.offset == e.scope.offset
    && (d.rcv.ScopeData? ==> d.scope.data == e.scope.data && d.scope.count == e.scope.count)
  }

  lemma RefusedShadow(d: Dev, e: Dev, c: Byte)
    requires Shadow(d, e)
    ensures Refused(d, c) ==> Refused(e, c)
    ensures HasRoom(e.rec) ==> (Refused(d, c) <==> Refused(e, c))
  {
  }

  lemma StepShadow(d: Dev, e: Dev, c: Byte)
    requires Shadow(d, e) && Step(e, c).Some? && Step(d, c).Some?
    ensures Shadow(Step(d, c).value, Step(e, c).value)
    ensures HasRoom(e.rec) ==> HasRoom(Step(e, c).value.rec)
  {
    StepKeepsCoupling(d, c);
    StepKeepsCoupling(e, c);
    StepAlike(d, e, c);
  }

  lemma StepAlike(d: Dev, e: Dev, c: Byte)
    requires Sized(d) && Sized(e) && Alike(d, e) && Step(e, c).Some? && Step(d, c).Some?
    ensures Alike(Step(d, c).value, Step(e, c).value)
    ensures HasRoom(e.rec) ==> HasRoom(Step(e, c).value.rec)
  {
    hide Start, Ident, Digital, Offset, Status, Addr, Data, Error, Interrupt, AlikeScope, Sized;
    match d.rcv
    case Idle => StartAlike(d, e, c);
    case IdentifyText => TextAlike(d, e, c);
    case ErrorText => TextAlike(d, e, c);
    case ScopeData => DataAlike(d, e, c);
    case DigitalRead => EventAlike(d, e, c);
    case InterruptText => EventAlike(d, e, c);
    case _ => ScopeAlike(d, e, c);
  }

  lemma StartAlike(d: Dev, e: Dev, c: Byte)
    requires Alike(d, e) && d.rcv.Idle?
    ensures Alike(Start(d, c), Start(e, c)) && Start(e, c).rec == e.rec
  {
    if c == STAR {
    } else if c == CH_I {
    } else if c == CH_O {
    } else if c == CH_S {
    } else if c == CH_A {
    } else if c == CH_D {
    } else if c == CH_E {
    } else if c == BANG {
    }
  }

  lemma TextAlike(d: Dev, e: Dev, c: Byte)
    requires Alike(d, e)
    ensures d.rcv.IdentifyText? && Ident(d, c).Some? && Ident(e, c).Some? ==>
              Alike(Ident(d, c).value, Ident(e, c).value) && Ident(e, c).value.rec == e.rec
    ensures d.rcv.ErrorText? && Error(d, c).Some? && Error(e, c).Some? ==>
              Alike(Error(d, c).value, Error(e, c).value) && Error(e, c).value.rec == e.rec
  {
  }

  lemma EventAlike(d: Dev, e: Dev, c: Byte)
    requires Alike(d, e)
    ensures d.rcv.DigitalRead? && Digital(d, c).Some? && Digital(e, c).Some? ==>
              Alike(Digital(d, c).value, Digital(e, c).value) && (HasRoom(e.rec) ==> HasRoom(Digital(e, c).value.rec))
    ensures d.rcv.InterruptText? && Interrupt(d, c).Some? && Interrupt(e, c).Some? ==>
              Alike(Interrupt(d, c).value, Interrupt(e, c).value) && (HasRoom(e.rec) ==> HasRoom(Interrupt(e, c).value.rec))
  {
    hide Notice;
    NoticeAlike(d.(digital := c), e.(digital := c), DIGITAL_DATA_CHANNEL, c);
    NoticeAlike(d, e, INTERRUPT_CHANNEL, DIGITAL_EVENT_INTERRUPT);
  }

  lemma NoticeAlike(d: Dev, e: Dev, channel: nat, data: nat)
    requires Alike(d, e) && (channel == INTERRUPT_CHANNEL || channel == DIGITAL_DATA_CHANNEL)
    ensures var d', e' := Notice(d, channel, data), Notice(e, channel, data);
            d'.Some? && e'.Some? ==>
              Alike(d'.value, e'.value) && d'.value.error == d.error && (HasRoom(e.rec) ==> HasRoom(e'.value.rec))
  {
  }

  lemma ScopeAlike(d: Dev, e: Dev, c: Byte)
    requires Alike(d, e)
    ensures d.rcv.ScopeOffset? && Offset(d, c).Some? && Offset(e, c).Some? ==>
              Alike(Offset(d, c).value, Offset(e, c).value) && Offset(e, c).value.rec == e.rec
    ensures d.rcv.ScopeStatus? && Status(d, c).Some? && Status(e, c).Some? ==>
              Alike(Status(d, c).value, Status(e, c).value) && Status(e, c).value.rec == e.rec
    ensures d.rcv.ScopeAddr? && Addr(d, c).Some? && Addr(e, c).Some? ==>
              Alike(Addr(d, c).value, Addr(e, c).value) && Addr(e, c).value.rec == e.rec
  {
    hide OffsetVolts;
  }

  /** A capture byte as far as the next bytes can tell. */
  lemma DataEffect(d: Dev, c: Byte)
    requires Sized(d) && d.rcv.ScopeData? && Data(d, c).Some?
    ensures var d', sc := Data(d, c).value, d.scope;
            var last := sc.data.DataBLow? && sc.count + 1 == SAMPLES;
            && d'.id == d.id && d'.error == d.error && d'.rec == d.rec
            && (if last then d'.rcv == Idle && d'.scope == sc.(data := DataComplete, count := SAMPLES, pending := false)
                else d'.rcv == ScopeData
                     && d'.scope == sc.(data := if sc.data.DataAHigh? then DataALow else if sc.data.DataALow? then DataBHigh
                                                else if sc.data.DataBHigh? then DataBLow else DataAHigh,
                                        count := sc.count + if sc.data.DataBLow? then 1 else 0))
  {
    hide Readout;
  }

  lemma DataAlike(d: Dev, e: Dev, c: Byte)
    requires Sized(d) && Sized(e) && Alike(d, e) && d.rcv.ScopeData? && Data(d, c).Some? && Data(e, c).Some?
    ensures Alike(Data(d, c).value, Data(e, c).value) && Data(e, c).value.rec == e.rec
  {
    hide Data;
    DataEffect(d, c);
    DataEffect(e, c);
  }

  lemma StartShadow(d: Dev, e: Dev)
    requires Shadow(d, e)
    ensures Shadow(SweepStarted(d), e)
  {
  }

  lemma AbortShadow(d: Dev, e: Dev)
    requires Shadow(d, e) && !Unsafe(d, AbortCommand)
    ensures Abort(d).Some? && Shadow(Abort(d).value, e)
  {
    AbortKeepsCoupling(d);
  }

  lemma {:induction false} AbortsOnlyRelax(d: Dev, e: Dev, run: seq<Action>)
    requires Shadow(d, e) && AbortsMeet(d, run)
    ensures Feed(e, Bytes(run)).Some? ==> SafeRun(d, run)
    ensures HasRoom(e.rec) && ActAll(d, run).Some? ==> Feed(e, Bytes(run)).Some?
    decreases |run|
  {
    hide Step, Abort, Shadow, Coupled, HasRoom;
    if run != [] {
      match run[0] {
        case Receive(c) =>
          ShadowCoupled(d, e);
          StepKeepsCoupling(d, c);
          StepKeepsCoupling(e, c);
          RefusedShadow(d, e, c);
          FeedOne(e, c, Bytes(run[1..]));
          if Step(d, c).Some? && Step(e, c).Some? {
            StepShadow(d, e, c);
            AbortsOnlyRelax(Step(d, c).value, Step(e, c).value, run[1..]);
          }
        case StartSweep =>
          StartShadow(d, e);
          assert Bytes(run) == Bytes(run[1..]);
          AbortsOnlyRelax(SweepStarted(d), e, run[1..]);
        case AbortCommand =>
          AbortShadow(d, e);
          assert Bytes(run) == Bytes(run[1..]);
          AbortsOnlyRelax(Abort(d).value, e, run[1..]);
      }
    }
  }

  lemma ShadowCoupled(d: Dev, e: Dev)
    requires Shadow(d, e)
    ensures Coupled(d) && Coupled(e)
  {
  }

  /** A stream of whole frames, with sweeps started and aborts anywhere between its bytes,
      each abort meeting its precondition: if the frames alone would be taken, no byte and no abort fails an
      assertion and every state on the way is coupled.  With room in the recorder, also
      only if. */
  lemma AbortsAreHarmless(d: Dev, fs: seq<Frame>, run: seq<Action>, n: nat)
    requires Coupled(d) && d.rcv.Idle? && AllShaped(fs) && n <= |run|
    requires Bytes(run) == EncodeAll(fs) && AbortsMeet(d, run)
    ensures Taken(d, fs) ==> ActAll(d, run[..n]).Some? && Coupled(ActAll(d, run[..n]).value)
    ensures HasRoom(d.rec) ==> (ActAll(d, run).Some? <==> Taken(d, fs))
  {
    hide Taken, Feed, HasRoom, SafeRun;
    AbortsOnlyRelax(d, d, run);
    DecodeAll(d, fs);
    StreamIsTaken(d, fs);
    if SafeRun(d, run) {
      CouplingOverRuns(d, run, n);
      CouplingOverRuns(d, run, |run|);
      assert run[..|run|] == run;
    }
  }

  // Input offsets

  /** The codes cgr101_digitizer_input_offset_store sends: A high, A low, B high, B low. */
  function StoreCodes(o: Offsets): seq<int> {
    [V2d(o.aHigh, MP8, STEP_HIGH, 0.0), V2d(o.aLow, MP8, STEP_LOW, 0.0),
     V2d(o.bHigh, MP8, STEP_HIGH, 0.0), V2d(o.bLow, MP8, STEP_LOW, 0.0)]
  }

  /** What four offset bytes are received as. */
  function Received(ah: Byte, al: Byte, bh: Byte, bl: Byte): Offsets {
    Offsets(OffsetVolts(ah, STEP_HIGH), OffsetVolts(al, STEP_LOW), OffsetVolts(bh, STEP_HIGH), OffsetVolts(bl, STEP_LOW))
  }

  lemma ReceivedStoresBack(ah: Byte, al: Byte, bh: Byte, bl: Byte)
    ensures StoreCodes(Received(ah, al, bh, bl)) == [ah, al, bh, bl]
  {
    hide D2v, V2d;
    DataRoundTrip(ah, MP8, STEP_HIGH, 0.0);
    DataRoundTrip(al, MP8, STEP_LOW, 0.0);
    DataRoundTrip(bh, MP8, STEP_HIGH, 0.0);
    DataRoundTrip(bl, MP8, STEP_LOW, 0.0);
  }

  /** Offsets received and then stored go back as the same four bytes in the same order. */
  lemma OffsetsStoreBack(d: Dev, ah: Byte, al: Byte, bh: Byte, bl: Byte)
    requires Between(d)
    ensures var r := Feed(d, Encode(OffsetsOf(ah, al, bh, bl)));
            r.Some? && StoreCodes(r.value.scope.offsets) == [ah, al, bh, bl] && !r.value.flags.offset
  {
    hide Feed, StoreCodes, OffsetVolts;
    DecodeFrame(d, OffsetsOf(ah, al, bh, bl));
    ReceivedStoresBack(ah, al, bh, bl);
  }

  // Chronological read-out

  /** A device that writes a ring round and round: one sample to the next address. */
  function WriteRing<T>(ring: seq<T>, next: nat, samples: seq<T>): (r: seq<T>)
    requires next < |ring|
    ensures |r| == |ring|
    decreases |samples|
  {
    if samples == [] then ring
    else WriteRing(ring[next := samples[0]], After(|ring|, next), samples[1..])
  }

  /** The address after a given one, wrapping. */
  function After(size: nat, addr: nat): (a: nat)
    requires addr < size
    ensures a < size
  {
    if addr + 1 == size then 0 else addr + 1
  }

  function Before(size: nat, addr: nat): (a: nat)
    requires addr < size
    ensures a < size && After(size, a) == addr
  {
    if addr == 0 then size - 1 else addr - 1
  }

  /** The last address written. */
  function LastWritten<T>(ring: seq<T>, next: nat, samples: seq<T>): (a: nat)
    requires next < |ring| && samples != []
    ensures a < |ring|
    decreases |samples|
  {
    if |samples| == 1 then next
    else LastWritten(ring, After(|ring|, next), samples[1..])
  }

  /** One write slides the unrolled window by one sample. */
  lemma WriteSlides<T>(ring: seq<T>, next: nat, x: T)
    requires next < |ring|
    ensures Unroll(ring[next := x], next) == Unroll(ring, Before(|ring|, next))[1..] + [x]
  {
  }

  /** The unrolled ring is the last of everything in it and written to it, in order. */
  lemma {:induction false} UnrolledRing<T>(ring: seq<T>, next: nat, samples: seq<T>)
    requires next < |ring| && samples != []
    ensures Unroll(WriteRing(ring, next, samples), LastWritten(ring, next, samples))
         == (Unroll(ring, Before(|ring|, next)) + samples)[|samples|..]
    decreases |samples|
  {
    var x, rest, ring' := samples[0], samples[1..], ring[next := samples[0]];
    var window := Unroll(ring, Before(|ring|, next));
    WriteSlides(ring, next, x);
    if rest == [] {
      assert (window + samples)[1..] == window[1..] + [x];
    } else {
      var next' := After(|ring|, next);
      UnrolledRing(ring', next', rest);
      LastIsSame(ring, ring', next', rest);
      assert Before(|ring|, next') == next;
      assert (window[1..] + [x] + rest)[|rest|..] == (window + samples)[|samples|..];
    }
  }

  lemma {:induction false} LastIsSame<T>(ring: seq<T>, ring': seq<T>, next: nat, samples: seq<T>)
    requires next < |ring| == |ring'| && samples != []
    ensures LastWritten(ring, next, samples) == LastWritten(ring', next, samples)
    decreases |samples|
  {
    if |samples| > 1 { LastIsSame(ring, ring', After(|ring|, next), samples[1..]); }
  }

  /** A ring written at least once round holds exactly its last samples, oldest first. */
  lemma RingIsChronological<T>(ring: seq<T>, next: nat, samples: seq<T>)
    requires next < |ring| <= |samples|
    ensures Unroll(WriteRing(ring, next, samples), LastWritten(ring, next, samples)) == samples[|samples| - |ring|..]
  {
    UnrolledRing(ring, next, samples);
    var window := Unroll(ring, Before(|ring|, next));
    assert (window + samples)[|samples|..] == samples[|samples| - |ring|..];
  }

  /** An address frame and then a capture frame. */
  lemma AppliedCapture(d: Dev, addr: nat, quads: seq<Quad>)
    requires Between(d) && addr < SAMPLES == |quads|
    ensures var frames := [Address(addr / 256, addr % 256), Capture(quads)];
            && AllShaped(frames)
            && var r := Feed(d, EncodeAll(frames));
            && r.Some? && Between(r.value)
            && var sc := r.value.scope;
            && r.value.a == SamplesA(quads) && r.value.b == SamplesB(quads) && sc.addrValue == addr
            && StepOffset(sc, 0) == StepOffset(d.scope, 0) && StepOffset(sc, 1) == StepOffset(d.scope, 1)
            && !sc.pending && !r.value.flags.sweep && sc.addr.AddrComplete?
            && r.value.log.items == d.log.items + if d.scope.pending then Readout(r.value, d.scope.mask) else []
  {
    hide Feed, Readout;
    var frames := [Address(addr / 256, addr % 256), Capture(quads)];
    assert 256 * (addr / 256) + addr % 256 == addr;
    DecodeAll(d, frames);
    assert frames[1..] == [frames[1]];
    var d1 := Apply(d, frames[0]).value;
    assert ApplyAll(d, frames) == ApplyAll(d1, [frames[1]]);
    assert ApplyAll(d1, [frames[1]]) == Apply(d1, frames[1]);
    var d2 := Apply(d1, frames[1]).value;
    var d3 := d1.(a := SamplesA(quads), b := SamplesB(quads), flags := d1.flags.(overlapped := false, sweep := false),
                  scope := d1.scope.(count := SAMPLES, data := DataComplete, pending := false));
    ReadoutSame(d3, d2, d.scope.mask);
  }

  /** What a read-out of these captured samples is. */
  function CaptureText(sc: Scope, kept: seq<Quad>, mask: set<nat>): seq<Item> {
    (if 0 in mask then Volts(StepOffset(sc, 0), SamplesA(kept)) else [])
    + (if 1 in mask then Volts(StepOffset(sc, 1), SamplesB(kept)) else [])
  }

  lemma CaptureReads(r: Dev, sc: Scope, quads: seq<Quad>, mask: set<nat>)
    requires Sized(r) && |quads| == SAMPLES && r.a == SamplesA(quads) && r.b == SamplesB(quads)
    requires StepOffset(r.scope, 0) == StepOffset(sc, 0) && StepOffset(r.scope, 1) == StepOffset(sc, 1)
    ensures Readout(r, mask) == CaptureText(sc, Unroll(quads, r.scope.addrValue), mask)
  {
    hide Volts, StepOffset;
    var addr := r.scope.addrValue;
    assert Unroll(SamplesA(quads), addr) == SamplesA(Unroll(quads, addr));
    assert Unroll(SamplesB(quads), addr) == SamplesB(Unroll(quads, addr));
  }

  lemma CaptureFrames(d: Dev, addr: nat, quads: seq<Quad>, mask: set<nat>)
    requires Between(d) && addr < SAMPLES == |quads|
    ensures var frames := [Address(addr / 256, addr % 256), Capture(quads)];
            && AllShaped(frames)
            && var r := Feed(d, EncodeAll(frames));
            && r.Some? && Between(r.value) && !r.value.flags.sweep && r.value.scope.addr.AddrComplete?
            && Readout(r.value, mask) == CaptureText(d.scope, Unroll(quads, addr), mask)
            && r.value.log.items
            == d.log.items + if d.scope.pending then CaptureText(d.scope, Unroll(quads, addr), d.scope.mask) else []
  {
    hide Feed, EncodeAll, StepOffset, CaptureText, Readout;
    AppliedCapture(d, addr, quads);
    var r := Feed(d, EncodeAll([Address(addr / 256, addr % 256), Capture(quads)])).value;
    CaptureReads(r, d.scope, quads, mask);
    CaptureReads(r, d.scope, quads, d.scope.mask);
  }

  /** The device captures `samples` round its ring, reports the last address written and
      sends the ring.  What is printed is, for each selected channel in order, exactly the
      last 1024 samples, oldest first: as the capture ends if a read-out is waiting, and
      for any later read-out. */
  lemma CaptureIsChronological(d: Dev, ring: seq<Quad>, next: nat, samples: seq<Quad>, mask: set<nat>)
    requires Between(d) && |ring| == SAMPLES && next < SAMPLES <= |samples|
    ensures var last := LastWritten(ring, next, samples);
            var frames := [Address(last / 256, last % 256), Capture(WriteRing(ring, next, samples))];
            var kept := samples[|samples| - SAMPLES..];
            && AllShaped(frames)
            && var r := Feed(d, EncodeAll(frames));
            && r.Some? && Between(r.value) && !r.value.flags.sweep && r.value.scope.addr.AddrComplete?
            && Readout(r.value, mask) == CaptureText(d.scope, kept, mask)
            && r.value.log.items == d.log.items + if d.scope.pending then CaptureText(d.scope, kept, d.scope.mask) else []
  {
    hide Feed, EncodeAll, CaptureText, Readout, Sized, WriteRing, LastWritten, AllShaped, Unroll;
    var last, written := LastWritten(ring, next, samples), WriteRing(ring, next, samples);
    RingIsChronological(ring, next, samples);
    CaptureFrames(d, last, written, mask);
  }

  /** cgr101_digitizer_dataq; None when the read-out's address assertion fails. */
  function DataQuery(d: Dev, mask: set<nat>): (r: Option<Dev>)
    requires Sized(d)
    ensures r.Some? ==> Sized(r.value)
  {
    if d.flags.sweep then Some(d.(scope := d.scope.(pending := true, mask := mask)))
    else if d.scope.addr.AddrComplete? then Some(Print(d, Readout(d, mask)))
    else None
  }

  /** `SENS:DATA?` made while the sweep runs, or after it: the same samples are printed,
      the last 1024 of each channel asked for, oldest first. */
  lemma QueryWhenever(d: Dev, ring: seq<Quad>, next: nat, samples: seq<Quad>, mask: set<nat>)
    requires Between(d) && d.flags.sweep && !d.scope.pending && |ring| == SAMPLES && next < SAMPLES <= |samples|
    ensures var last := LastWritten(ring, next, samples);
            var bytes := EncodeAll([Address(last / 256, last % 256), Capture(WriteRing(ring, next, samples))]);
            var text := CaptureText(d.scope, samples[|samples| - SAMPLES..], mask);
            && Feed(DataQuery(d, mask).value, bytes).Some? && Feed(d, bytes).Some? && DataQuery(Feed(d, bytes).value, mask).Some?
            && Feed(DataQuery(d, mask).value, bytes).value.log.items == d.log.items + text
            && DataQuery(Feed(d, bytes).value, mask).value.log.items == d.log.items + text
  {
    hide Feed, Readout, EncodeAll;
    var asked := DataQuery(d, mask).value;
    CaptureIsChronological(asked, ring, next, samples, mask);
    CaptureIsChronological(d, ring, next, samples, mask);
    var kept := samples[|samples| - SAMPLES..];
    assert CaptureText(asked.scope, kept, mask) == CaptureText(d.scope, kept, mask);
    assert d.log.items + [] == d.log.items;
  }
}
