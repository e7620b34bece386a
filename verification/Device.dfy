/** The device side of the driver as it runs: struct cgr101's receive fields, updated in
    place one byte at a time. */
module Device {
  import opened Conversion
  import opened Receive
  import opened Framing
  import opened ReceiveLaws

  class Cgr101 {
    var rcvState: RcvState
    var identifyState: IdentifyState
    const deviceId: array<Byte>
    var deviceIdLen: nat
    var digitalReadData: Byte
    const errorMsg: array<Byte>
    var errorMsgLen: nat
    const dataA: array<int>
    const dataB: array<int>
    var scope: Scope
    var event: Recorder
    var flags: Flags
    var log: Log

    // Contents of the buffers
    ghost var id: seq<Byte>
    ghost var error: seq<Byte>
    ghost var a: seq<int>
    ghost var b: seq<int>

    ghost predicate Valid()
      reads this, deviceId, errorMsg, dataA, dataB
    {
      && deviceId.Length == ID_MAX && errorMsg.Length == E_MAX && deviceId != errorMsg
      && dataA.Length == dataB.Length == |a| == |b| == SAMPLES && dataA != dataB
      && deviceIdLen == |id| <= ID_MAX && errorMsgLen == |error| <= E_MAX && scope.addrValue < SAMPLES
      && (forall i :: 0 <= i < SAMPLES ==> dataA[i] == a[i])
      && (forall i :: 0 <= i < SAMPLES ==> dataB[i] == b[i])
      && (forall i :: 0 <= i < |id| ==> deviceId[i] == id[i])
      && (forall i :: 0 <= i < |error| ==> errorMsg[i] == error[i])
    }

    ghost function Value(): Dev
      reads this
    {
      Dev(rcvState, identifyState, id, digitalReadData, error, a, b, scope, event, flags, log)
    }

    /** The outcome of a method that may have failed an assertion. */
    ghost function Outcome(ok: bool): Option<Dev>
      reads this
    {
      if ok then Some(Value()) else None
    }

    constructor ()
      ensures Valid() && Between(Value()) && fresh(deviceId) && fresh(errorMsg) && fresh(dataA) && fresh(dataB)
    {
      rcvState, identifyState, deviceIdLen, digitalReadData, errorMsgLen := Idle, IdentifyIdle, 0, 0, 0;
      deviceId, errorMsg := new Byte[ID_MAX](_ => 0), new Byte[E_MAX](_ => 0);
      dataA, dataB := new int[SAMPLES](_ => 0), new int[SAMPLES](_ => 0);
      scope := Scope(OffsetIdle, Offsets(0.0, 0.0, 0.0, 0.0), StatusIdle, 0, AddrIdle, 0, DataIdle, 0, false, {}, false, false);
      event := Recorder({}, 'D', [], 0, false);
      flags := Flags(false, false, false, true);
      log := Log([], [], [], []);
      id, error, a, b := [], [], seq(SAMPLES, _ => 0), seq(SAMPLES, _ => 0);
    }

    method Queue(e: Event)
      requires Valid()
      modifies this`log
      ensures Valid() && Value() == Emit(old(Value()), e)
    {
      log := log.(events := log.events + [e]);
    }

    method RcvStart(c: Byte)
      requires Valid()
      modifies this, errorMsg
      ensures Valid() && Value() == Start(old(Value()), c)
    {
      if c == STAR {
        rcvState, identifyState := IdentifyText, IdentifyPending;
      } else if c == CH_I {
        rcvState := DigitalRead;
      } else if c == CH_O {
        rcvState, scope := ScopeOffset, scope.(offset := OffsetAHigh);
      } else if c == CH_S {
        rcvState, scope := ScopeStatus, scope.(status := StatusPending);
      } else if c == CH_A {
        rcvState, scope := ScopeAddr, scope.(addr := AddrHigh, addrValue := 0);
      } else if c == CH_D {
        rcvState, scope := ScopeData, scope.(data := DataAHigh, count := 0);
      } else if c == CH_E {
        rcvState := ErrorText;
        errorMsg[0] := c;
        errorMsgLen, error := 1, [c];
      } else if c == BANG {
        rcvState := InterruptText;
      }
    }

    method RcvIdent(c: Byte) returns (ok: bool)
      requires Valid()
      modifies this, deviceId
      ensures Outcome(ok) == Ident(old(Value()), c) && (ok ==> Valid())
    {
      ok := true;
      if c == LF {
        Queue(IdentifyDone);
        rcvState := Idle;
      } else if c != CR {
        ok := deviceIdLen < deviceId.Length;
        if ok {
          deviceId[deviceIdLen] := c;
          deviceIdLen, id := deviceIdLen + 1, id + [c];
        }
      }
    }

    method RcvErrorMsg(c: Byte) returns (ok: bool)
      requires Valid()
      modifies this, errorMsg
      ensures Outcome(ok) == Error(old(Value()), c) && (ok ==> Valid())
    {
      ok := true;
      if c != CR {
        ok := errorMsgLen < errorMsg.Length;
        if ok {
          if c == LF {
            log := log.(errors := log.errors + [errorMsg[..errorMsgLen]]);
            assert errorMsg[..errorMsgLen] == error;
            rcvState := Idle;
          }
          var stored := if c == LF then 0 else c;
          errorMsg[errorMsgLen] := stored;
          errorMsgLen, error := errorMsgLen + 1, error + [stored];
        }
      }
    }

    method DigitalEventDone()
      requires Valid()
      modifies this
      ensures Valid() && Value() == EventDone(old(Value()))
    {
      event, flags := event.(mask := {}), flags.(event := false);
      Queue(Unblock);
    }

    method PrintItem(item: Item)
      requires Valid()
      modifies this`log
      ensures Valid() && Value() == Print(old(Value()), [item])
    {
      log := log.(items := log.items + [item]);
    }

    /** cgr101_digital_event_output: one element per record, in order. */
    method DigitalEventOutput()
      requires Valid()
      modifies this`log
      ensures Valid() && Value() == Print(old(Value()), RecordedItems(event.records))
    {
      var i := 0;
      ghost var d := Value();
      PrintNone(d);
      assert RecordedItems(event.records[..0]) == [];
      while i < |event.records|
        invariant 0 <= i <= |event.records| && Valid()
        invariant Value() == Print(d, RecordedItems(event.records[..i]))
      {
        PrintItem(Recorded(event.records[i]));
        PrintTwice(d, RecordedItems(event.records[..i]), [Recorded(event.records[i])]);
        assert RecordedItems(event.records[..i + 1]) == RecordedItems(event.records[..i]) + [Recorded(event.records[i])];
        i := i + 1;
      }
      assert event.records[..|event.records|] == event.records;
    }

    method NoteEvent(data: nat) returns (ok: bool)
      requires Valid()
      modifies this
      ensures Outcome(ok) == DigitalEvent(old(Value()), data) && (ok ==> Valid())
    {
      ok := |event.records| < event.max;
      if !ok {
        return;
      }
      event := event.(records := event.records + [data]);
      if |event.records| == event.max {
        if event.pending {
          DigitalEventOutput();
        }
        DigitalEventDone();
      } else if data == DIGITAL_EVENT_INTERRUPT {
        log := log.(commands := log.commands + [Rearm(event.mode)]);
      }
    }

    method RcvDigitalRead(c: Byte) returns (ok: bool)
      requires Valid()
      modifies this
      ensures Outcome(ok) == Digital(old(Value()), c) && (ok ==> Valid())
    {
      ok := true;
      digitalReadData := c;
      if DIGITAL_DATA_CHANNEL in event.mask {
        ok := NoteEvent(c);
      }
      if ok {
        Queue(DigitalReadDone);
        rcvState := Idle;
      }
    }

    method RcvInterruptMsg(c: Byte) returns (ok: bool)
      requires Valid()
      modifies this
      ensures Outcome(ok) == Interrupt(old(Value()), c) && (ok ==> Valid())
    {
      ok := true;
      if c == LF {
        if INTERRUPT_CHANNEL in event.mask {
          ok := NoteEvent(DIGITAL_EVENT_INTERRUPT);
        }
        if ok {
          rcvState := Idle;
        }
      } else {
        ok := c == CR || c == BANG;
      }
    }

    method RcvScopeOffset(c: Byte) returns (ok: bool)
      requires Valid()
      modifies this
      ensures Outcome(ok) == Offset(old(Value()), c) && (ok ==> Valid())
    {
      ok := true;
      match scope.offset
      case OffsetAHigh =>
        scope := scope.(offsets := scope.offsets.(aHigh := D2v(c, MP8, STEP_HIGH, 0.0)), offset := OffsetALow);
      case OffsetALow =>
        scope := scope.(offsets := scope.offsets.(aLow := D2v(c, MP8, STEP_LOW, 0.0)), offset := OffsetBHigh);
      case OffsetBHigh =>
        scope := scope.(offsets := scope.offsets.(bHigh := D2v(c, MP8, STEP_HIGH, 0.0)), offset := OffsetBLow);
      case OffsetBLow =>
        scope := scope.(offsets := scope.offsets.(bLow := D2v(c, MP8, STEP_LOW, 0.0)), offset := OffsetComplete);
        flags, rcvState := flags.(offset := false), Idle;
      case _ => ok := false;
    }

    method RcvScopeStatus(c: Byte) returns (ok: bool)
      requires Valid()
      modifies this
      ensures Outcome(ok) == Status(old(Value()), c) && (ok ==> Valid())
    {
      ok := scope.status.StatusPending?;
      if ok && CH_1 <= c <= CH_6 {
        scope := scope.(statusValue := c - 48, status := StatusComplete);
        Queue(StatusDone);
        rcvState := Idle;
      }
    }

    method RcvScopeAddr(c: Byte) returns (ok: bool)
      requires Valid()
      modifies this
      ensures Outcome(ok) == Addr(old(Value()), c) && (ok ==> Valid())
    {
      ok := true;
      match scope.addr
      case AddrHigh =>
        ok := c <= 3;
        if ok {
          scope := scope.(addrValue := 256 * c, addr := AddrLow);
        }
      case AddrLow =>
        var value := 256 * (scope.addrValue / 256) + c;
        ok := value < SAMPLES;
        if ok {
          scope, rcvState := scope.(addrValue := value, addr := AddrComplete), Idle;
          log := log.(commands := log.commands + [GetBuffer]);
        }
      case _ => ok := false;
    }

    /** cgr101_digitizer_data_output: each selected channel from just past the end of the
        capture round the ring. */
    method DataOutput(mask: set<nat>) returns (ok: bool)
      requires Valid()
      modifies this`log
      ensures ok <==> scope.addr.AddrComplete?
      ensures Valid() && (ok ==> Value() == Print(old(Value()), Readout(old(Value()), mask)))
    {
      ok := scope.addr.AddrComplete?;
      if !ok {
        return;
      }
      ghost var d := Value();
      var chan := 0;
      PrintNone(d);
      assert Readout(d, set k | k in mask && k < 0) == [];
      while chan < 2
        invariant 0 <= chan <= 2 && Valid()
        invariant Value() == Print(d, Readout(d, set k | k in mask && k < chan))
      {
        ghost var before := Readout(d, set k | k in mask && k < chan);
        if chan in mask {
          ChannelOutput(chan);
          PrintTwice(d, before, Channel(d, chan));
        }
        NextChannel(d, mask, chan);
        chan := chan + 1;
      }
      ReadoutMask(d, mask);
    }

    /** The sample j places past the end of the capture, wrapping. */
    method SampleAt(chan: nat, j: nat) returns (data: int)
      requires Valid() && j < SAMPLES
      ensures data == Unroll(if chan == 0 then a else b, scope.addrValue)[j]
    {
      var idx := scope.addrValue + 1;
      idx := idx + j;
      if idx >= SAMPLES {
        idx := idx - SAMPLES;
      }
      data := if chan == 0 then dataA[idx] else dataB[idx];
    }

    method ChannelOutput(chan: nat)
      requires Valid() && chan < 2
      modifies this`log
      ensures Valid() && Value() == Print(old(Value()), Channel(old(Value()), chan))
    {
      hide D2v, StepOffset, Unroll;
      ghost var d := Value();
      ghost var samples := Unroll(if chan == 0 then d.a else d.b, scope.addrValue);
      var scale := StepOffsetOf(chan);
      var j := 0;
      PrintNone(d);
      assert Volts(scale, samples[..0]) == [];
      while j < SAMPLES
        invariant 0 <= j <= SAMPLES && Valid()
        invariant Value() == Print(d, Volts(scale, samples[..j]))
      {
        var data := SampleAt(chan, j);
        var item := Volt(D2v(data, MP10, scale.0, scale.1));
        PrintItem(item);
        PrintTwice(d, Volts(scale, samples[..j]), [item]);
        assert Volts(scale, samples[..j + 1]) == Volts(scale, samples[..j]) + [item];
        j := j + 1;
      }
      assert samples[..SAMPLES] == samples;
    }

    method StepOffsetOf(chan: nat) returns (scale: (real, real))
      ensures scale == StepOffset(scope, chan)
    {
      var low := if chan == 0 then scope.lowA else scope.lowB;
      if low {
        scale := (STEP_LOW, if chan == 0 then scope.offsets.aLow else scope.offsets.bLow);
      } else {
        scale := (STEP_HIGH, if chan == 0 then scope.offsets.aHigh else scope.offsets.bHigh);
      }
    }

    method ScopeDataDone(next: DataState) returns (ok: bool)
      requires Valid()
      modifies this
      ensures Outcome(ok) == DataDone(old(Value()), next) && (ok ==> Valid())
    {
      ok := scope.addr.AddrComplete?;
      if ok {
        scope, flags := scope.(data := next), flags.(overlapped := false, sweep := false);
        Queue(Unblock);
      }
    }

    method CaptureDone() returns (ok: bool)
      requires Valid()
      modifies this
      ensures Outcome(ok) == FinishCapture(old(Value())) && (ok ==> Valid())
    {
      ok := true;
      if scope.pending {
        ok := DataOutput(scope.mask);
        scope := scope.(pending := false);
      }
      if ok {
        ok := ScopeDataDone(DataComplete);
      }
      if ok {
        rcvState := Idle;
      }
    }

    method RcvScopeData(c: Byte) returns (ok: bool)
      requires Valid()
      modifies this, dataA, dataB
      ensures Outcome(ok) == Data(old(Value()), c) && (ok ==> Valid())
    {
      hide FinishCapture;
      ok := scope.count < SAMPLES;
      if !ok {
        return;
      }
      var i := scope.count;
      match scope.data
      case DataAHigh =>
        StoreA(256 * c);
        scope := scope.(data := DataALow);
      case DataALow =>
        StoreA(dataA[i] + c);
        scope := scope.(data := DataBHigh);
      case DataBHigh =>
        StoreB(256 * c);
        scope := scope.(data := DataBLow);
      case DataBLow =>
        StoreB(dataB[i] + c);
        scope := scope.(count := i + 1);
        if scope.count == SAMPLES {
          ok := CaptureDone();
        } else {
          scope := scope.(data := DataAHigh);
        }
      case _ => ok := false;
    }

    method StoreA(value: int)
      requires Valid() && scope.count < SAMPLES
      modifies this`a, dataA
      ensures Valid() && a == old(a)[scope.count := value]
    {
      dataA[scope.count] := value;
      a := a[scope.count := value];
    }

    method StoreB(value: int)
      requires Valid() && scope.count < SAMPLES
      modifies this`b, dataB
      ensures Valid() && b == old(b)[scope.count := value]
    {
      dataB[scope.count] := value;
      b := b[scope.count := value];
    }

    /** cgr101_rcv_sm. */
    method RcvSm(c: Byte) returns (ok: bool)
      requires Valid()
      modifies this, dataA, dataB, deviceId, errorMsg
      ensures Outcome(ok) == Step(old(Value()), c) && (ok ==> Valid())
    {
      hide Start, Ident, Digital, Offset, Status, Addr, Data, Error, Interrupt;
      ok := true;
      match rcvState
      case Idle => RcvStart(c);
      case IdentifyText => ok := RcvIdent(c);
      case DigitalRead => ok := RcvDigitalRead(c);
      case ScopeOffset => ok := RcvScopeOffset(c);
      case ScopeStatus => ok := RcvScopeStatus(c);
      case ScopeAddr => ok := RcvScopeAddr(c);
      case ScopeData => ok := RcvScopeData(c);
      case ErrorText => ok := RcvErrorMsg(c);
      case InterruptText => ok := RcvInterruptMsg(c);
    }

    /** cgr101_rcv_data: one read of the device's output. */
    method RcvData(buf: seq<Byte>) returns (ok: bool)
      requires Valid()
      modifies this, dataA, dataB, deviceId, errorMsg
      ensures Outcome(ok) == Feed(old(Value()), buf) && (ok ==> Valid())
    {
      hide Step;
      ok := true;
      var i := 0;
      assert buf[0..] == buf;
      while i < |buf|
        invariant 0 <= i <= |buf| && Valid() && ok
        invariant Feed(old(Value()), buf) == Feed(Value(), buf[i..])
      {
        assert buf[i..][1..] == buf[i + 1..];
        ok := RcvSm(buf[i]);
        if !ok {
          return;
        }
        i := i + 1;
      }
    }

    /** cgr101_abort. */
    method AbortCommands() returns (ok: bool)
      requires Valid()
      modifies this
      ensures Outcome(ok) == Abort(old(Value())) && (ok ==> Valid())
    {
      ok := true;
      if flags.sweep {
        ok := ScopeDataDone(DataIdle);
      }
      if ok && flags.event {
        DigitalEventDone();
      }
    }

    /** cgr101_configure_digital_event. */
    method ConfigureEvent(mode: char, count: nat, mask: set<nat>)
      requires Valid()
      modifies this
      ensures Valid() && Value() == old(Value()).(rec := Configure(mode, count, mask))
    {
      event := Recorder(mask, mode, [], count, false);
    }

    /** cgr101_fetch_digital_event. */
    method FetchDigitalEvent()
      requires Valid()
      modifies this
      ensures Valid() && Value() == Fetch(old(Value()))
    {
      if flags.event {
        event := event.(pending := true);
      } else {
        DigitalEventOutput();
      }
    }

    /** cgr101_digitizer_dataq. */
    method DigitizerDataq(mask: set<nat>) returns (ok: bool)
      requires Valid()
      modifies this
      ensures Outcome(ok) == DataQuery(old(Value()), mask) && (ok ==> Valid())
    {
      ok := true;
      if flags.sweep {
        scope := scope.(pending := true, mask := mask);
      } else {
        ok := DataOutput(mask);
      }
    }

    /** cgr101_digitizer_input_offset_store: the arguments of "S F" give the device back the
        four bytes its offsets came in, in the same order. */
    method OffsetCodes() returns (codes: seq<int>)
      ensures codes == StoreCodes(scope.offsets)
      ensures forall ah, al, bh, bl: Byte :: scope.offsets == Received(ah, al, bh, bl) ==> codes == [ah, al, bh, bl]
    {
      forall ah, al, bh, bl: Byte ensures StoreCodes(Received(ah, al, bh, bl)) == [ah, al, bh, bl] {
        ReceivedStoresBack(ah, al, bh, bl);
      }
      var v1 := V2d(scope.offsets.aHigh, MP8, STEP_HIGH, 0.0);
      var v2 := V2d(scope.offsets.aLow, MP8, STEP_LOW, 0.0);
      var v3 := V2d(scope.offsets.bHigh, MP8, STEP_HIGH, 0.0);
      var v4 := V2d(scope.offsets.bLow, MP8, STEP_LOW, 0.0);
      codes := [v1, v2, v3, v4];
    }
  }

  lemma PrintNone(d: Dev)
    ensures Print(d, []) == d
  {
    assert d.log.items + [] == d.log.items;
  }

  lemma PrintTwice(d: Dev, x: seq<Item>, y: seq<Item>)
    ensures Print(Print(d, x), y) == Print(d, x + y)
  {
    assert d.log.items + x + y == d.log.items + (x + y);
  }

  /** One channel of a read-out. */
  ghost function Channel(d: Dev, chan: nat): seq<Item>
    requires Sized(d)
  {
    Volts(StepOffset(d.scope, chan), Unroll(if chan == 0 then d.a else d.b, d.scope.addrValue))
  }

  lemma NextChannel(d: Dev, mask: set<nat>, chan: nat)
    requires Sized(d) && chan < 2
    ensures Readout(d, set k | k in mask && k < chan + 1)
         == Readout(d, set k | k in mask && k < chan) + if chan in mask then Channel(d, chan) else []
  {
  }

  lemma ReadoutMask(d: Dev, mask: set<nat>)
    requires Sized(d)
    ensures Readout(d, mask) == Readout(d, set k | k in mask && k < 2)
  {
  }
}
