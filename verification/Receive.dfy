/** The device receive machine, one byte at a time, on values. */
module Receive {
  import opened Conversion

  type Byte = b: nat | b < 256

  datatype Option<+T> = None | Some(value: T)

  const SAMPLES := 1024
  const ID_MAX := 32
  const E_MAX := 32

  const LF: Byte := 10
  const CR: Byte := 13
  const BANG: Byte := 33
  const STAR: Byte := 42
  const CH_1: Byte := 49
  const CH_6: Byte := 54
  const CH_A: Byte := 65
  const CH_D: Byte := 68
  const CH_E: Byte := 69
  const CH_I: Byte := 73
  const CH_O: Byte := 79
  const CH_S: Byte := 83

  const INTERRUPT_CHANNEL := 4
  const DIGITAL_DATA_CHANNEL := 6
  const DIGITAL_EVENT_INTERRUPT := 256

  /** An event channel is in the mask. */
  predicate Selects(mask: set<nat>) { INTERRUPT_CHANNEL in mask || DIGITAL_DATA_CHANNEL in mask }

  datatype RcvState =
    | Idle | IdentifyText | DigitalRead | ScopeOffset | ScopeStatus
    | ScopeAddr | ScopeData | ErrorText | InterruptText

  datatype IdentifyState = IdentifyIdle | IdentifyPending | IdentifyComplete
  datatype OffsetState = OffsetIdle | OffsetAHigh | OffsetBHigh | OffsetALow | OffsetBLow | OffsetComplete
  datatype StatusState = StatusIdle | StatusPending | StatusComplete
  datatype AddrState = AddrIdle | AddrHigh | AddrLow | AddrComplete
  datatype DataState = DataIdle | DataAHigh | DataBHigh | DataALow | DataBLow | DataComplete

  /** Events the receive machine queues. */
  datatype Event = IdentifyDone | DigitalReadDone | StatusDone | Unblock

  /** Commands it sends to the device. */
  datatype Command = GetBuffer | Rearm(mode: char)

  /** Response elements it prints. */
  datatype Item = Volt(value: real) | Recorded(data: nat)

  datatype Offsets = Offsets(aHigh: real, aLow: real, bHigh: real, bLow: real)

  datatype Scope = Scope(
    offset: OffsetState, offsets: Offsets,
    status: StatusState, statusValue: nat,
    addr: AddrState, addrValue: nat,
    data: DataState, count: nat,
    pending: bool, mask: set<nat>, lowA: bool, lowB: bool)

  datatype Recorder = Recorder(mask: set<nat>, mode: char, records: seq<nat>, max: nat, pending: bool)

  datatype Flags = Flags(overlapped: bool, sweep: bool, event: bool, offset: bool)

  /** What has left the machine: queued events, device commands, printed elements and
      posted hardware errors. */
  datatype Log = Log(events: seq<Event>, commands: seq<Command>, items: seq<Item>, errors: seq<seq<Byte>>)

  datatype Dev = Dev(
    rcv: RcvState,
    ident: IdentifyState, id: seq<Byte>,
    digital: Byte,
    error: seq<Byte>,
    a: seq<int>, b: seq<int>,
    scope: Scope, rec: Recorder, flags: Flags, log: Log)

  function Emit(d: Dev, e: Event): Dev { d.(log := d.log.(events := d.log.events + [e])) }

  function Print(d: Dev, items: seq<Item>): Dev { d.(log := d.log.(items := d.log.items + items)) }

  function Send(d: Dev, c: Command): Dev { d.(log := d.log.(commands := d.log.commands + [c])) }

  function ToIdle(d: Dev): Dev { d.(rcv := Idle) }

  function OffsetVolts(c: Byte, step: real): real { D2v(c, MP8, step, 0.0) }

  // Event recorder

  function RecordedItems(records: seq<nat>): seq<Item> { seq(|records|, i requires 0 <= i < |records| => Recorded(records[i])) }

  function EventDone(d: Dev): Dev {
    Emit(d.(rec := d.rec.(mask := {}), flags := d.flags.(event := false)), Unblock)
  }

  /** cgr101_digital_event; None when its `current < max` assertion fails. */
  function DigitalEvent(d: Dev, data: nat): (r: Option<Dev>)
    ensures r.Some? ==> r.value.scope == d.scope && r.value.a == d.a && r.value.b == d.b && r.value.rcv == d.rcv && r.value.id == d.id
  {
    if |d.rec.records| >= d.rec.max then None else
      var d1 := d.(rec := d.rec.(records := d.rec.records + [data]));
      if |d1.rec.records| == d.rec.max then
        Some(EventDone(if d.rec.pending then Print(d1, RecordedItems(d1.rec.records)) else d1))
      else if data == DIGITAL_EVENT_INTERRUPT then Some(Send(d1, Rearm(d.rec.mode)))
      else Some(d1)
  }

  function Notice(d: Dev, channel: nat, data: nat): (r: Option<Dev>)
    ensures r.Some? ==> r.value.scope == d.scope && r.value.a == d.a && r.value.b == d.b && r.value.rcv == d.rcv && r.value.id == d.id
  {
    if channel in d.rec.mask then DigitalEvent(d, data) else Some(d)
  }

  // Read-out of a capture

  /** A ring from just past the given address round to it. */
  function Unroll<T>(ring: seq<T>, addr: nat): (s: seq<T>)
    requires addr < |ring|
    ensures |s| == |ring|
  {
    ring[addr + 1..] + ring[..addr + 1]
  }

  /** The step and offset in use on a channel: cgr101_digitizer_step_offset. */
  function StepOffset(sc: Scope, chan: nat): (real, real) {
    var low := if chan == 0 then sc.lowA else sc.lowB;
    var offset := if chan == 0 then (if low then sc.offsets.aLow else sc.offsets.aHigh)
                  else (if low then sc.offsets.bLow else sc.offsets.bHigh);
    (if low then STEP_LOW else STEP_HIGH, offset)
  }

  function Volts(scale: (real, real), samples: seq<int>): seq<Item> {
    seq(|samples|, i requires 0 <= i < |samples| => Volt(D2v(samples[i], MP10, scale.0, scale.1)))
  }

  predicate Sized(d: Dev) {
    |d.a| == |d.b| == SAMPLES && d.scope.addrValue < SAMPLES
  }

  /** Selected channels in order, each from its oldest sample to its newest. */
  function Readout(d: Dev, mask: set<nat>): seq<Item>
    requires Sized(d)
  {
    (if 0 in mask then Volts(StepOffset(d.scope, 0), Unroll(d.a, d.scope.addrValue)) else [])
    + (if 1 in mask then Volts(StepOffset(d.scope, 1), Unroll(d.b, d.scope.addrValue)) else [])
  }

  // The states

  /** cgr101_rcv_start. */
  function Start(d: Dev, c: Byte): Dev {
    if c == STAR then d.(rcv := IdentifyText, ident := IdentifyPending)
    else if c == CH_I then d.(rcv := DigitalRead)
    else if c == CH_O then d.(rcv := ScopeOffset, scope := d.scope.(offset := OffsetAHigh))
    else if c == CH_S then d.(rcv := ScopeStatus, scope := d.scope.(status := StatusPending))
    else if c == CH_A then d.(rcv := ScopeAddr, scope := d.scope.(addr := AddrHigh, addrValue := 0))
    else if c == CH_D then d.(rcv := ScopeData, scope := d.scope.(data := DataAHigh, count := 0))
    else if c == CH_E then d.(rcv := ErrorText, error := [c])
    else if c == BANG then d.(rcv := InterruptText)
    else d
  }

  /** Text is stored up to the line feed, carriage returns dropped; None past the end
      of the buffer. */
  function Ident(d: Dev, c: Byte): (r: Option<Dev>)
    ensures r.Some? ==> r.value.scope == d.scope && r.value.a == d.a && r.value.b == d.b
  {
    if c == LF then Some(ToIdle(Emit(d, IdentifyDone)))
    else if c == CR then Some(d)
    else if |d.id| < ID_MAX then Some(d.(id := d.id + [c]))
    else None
  }

  function Error(d: Dev, c: Byte): (r: Option<Dev>)
    ensures r.Some? ==> r.value.scope == d.scope && r.value.a == d.a && r.value.b == d.b
  {
    if c == CR then Some(d)
    else if |d.error| >= E_MAX then None
    else if c == LF then
      Some(ToIdle(d.(error := d.error + [0], log := d.log.(errors := d.log.errors + [d.error]))))
    else Some(d.(error := d.error + [c]))
  }

  function Digital(d: Dev, c: Byte): (r: Option<Dev>)
    ensures r.Some? ==> r.value.scope == d.scope && r.value.a == d.a && r.value.b == d.b
  {
    match Notice(d.(digital := c), DIGITAL_DATA_CHANNEL, c)
    case None => None
    case Some(d1) => Some(ToIdle(Emit(d1, DigitalReadDone)))
  }

  function Interrupt(d: Dev, c: Byte): (r: Option<Dev>)
    ensures r.Some? ==> r.value.scope == d.scope && r.value.a == d.a && r.value.b == d.b
  {
    if c == LF then
      match Notice(d, INTERRUPT_CHANNEL, DIGITAL_EVENT_INTERRUPT)
      case None => None
      case Some(d1) => Some(ToIdle(d1))
    else if c == CR || c == BANG then Some(d)
    else None
  }

  function Offset(d: Dev, c: Byte): (r: Option<Dev>)
    ensures r.Some? && Sized(d) ==> Sized(r.value)
  {
    var sc := d.scope;
    match sc.offset
    case OffsetAHigh =>
      Some(d.(scope := sc.(offsets := sc.offsets.(aHigh := OffsetVolts(c, STEP_HIGH)), offset := OffsetALow)))
    case OffsetALow =>
      Some(d.(scope := sc.(offsets := sc.offsets.(aLow := OffsetVolts(c, STEP_LOW)), offset := OffsetBHigh)))
    case OffsetBHigh =>
      Some(d.(scope := sc.(offsets := sc.offsets.(bHigh := OffsetVolts(c, STEP_HIGH)), offset := OffsetBLow)))
    case OffsetBLow =>
      Some(ToIdle(d.(scope := sc.(offsets := sc.offsets.(bLow := OffsetVolts(c, STEP_LOW)), offset := OffsetComplete),
                     flags := d.flags.(offset := false))))
    case _ => None
  }

  function Status(d: Dev, c: Byte): (r: Option<Dev>)
    ensures r.Some? && Sized(d) ==> Sized(r.value)
  {
    if !d.scope.status.StatusPending? then None
    else if CH_1 <= c <= CH_6 then
      Some(ToIdle(Emit(d.(scope := d.scope.(statusValue := c - 48, status := StatusComplete)), StatusDone)))
    else Some(d)
  }

  function Addr(d: Dev, c: Byte): (r: Option<Dev>)
    ensures r.Some? && Sized(d) ==> Sized(r.value)
  {
    var sc := d.scope;
    match sc.addr
    case AddrHigh => if c > 3 then None else Some(d.(scope := sc.(addrValue := 256 * c, addr := AddrLow)))
    case AddrLow =>
      // `|=` into a low byte that is still zero.
      var addr := 256 * (sc.addrValue / 256) + c;
      if addr >= SAMPLES then None
      else Some(ToIdle(Send(d.(scope := sc.(addrValue := addr, addr := AddrComplete)), GetBuffer)))
    case _ => None
  }

  /** cgr101_scope_data_done; None when its address assertion fails. */
  function DataDone(d: Dev, state: DataState): Option<Dev> {
    if !d.scope.addr.AddrComplete? then None
    else Some(Emit(d.(scope := d.scope.(data := state), flags := d.flags.(overlapped := false, sweep := false)), Unblock))
  }

  /** The capture is whole: print it if asked for, then finish the sweep. */
  function FinishCapture(d: Dev): (r: Option<Dev>)
    requires Sized(d)
    ensures r.Some? ==> Sized(r.value)
  {
    var d1 := if d.scope.pending then
                Print(d, Readout(d, d.scope.mask)).(scope := d.scope.(pending := false))
              else d;
    match DataDone(d1, DataComplete)
    case None => None
    case Some(d2) => Some(ToIdle(d2))
  }

  function Data(d: Dev, c: Byte): (r: Option<Dev>)
    requires Sized(d)
    ensures r.Some? ==> Sized(r.value)
  {
    var sc := d.scope;
    var i := sc.count;
    if i >= SAMPLES then None else
      match sc.data
      case DataAHigh => Some(d.(a := d.a[i := 256 * c], scope := sc.(data := DataALow)))
      case DataALow => Some(d.(a := d.a[i := d.a[i] + c], scope := sc.(data := DataBHigh)))
      case DataBHigh => Some(d.(b := d.b[i := 256 * c], scope := sc.(data := DataBLow)))
      case DataBLow =>
        var d1 := d.(b := d.b[i := d.b[i] + c], scope := sc.(count := i + 1));
        if i + 1 == SAMPLES then FinishCapture(d1)
        else Some(d1.(scope := d1.scope.(data := DataAHigh)))
      case _ => None
  }

  /** cgr101_rcv_sm: None when an assertion fails or a text buffer is overrun. */
  function Step(d: Dev, c: Byte): (r: Option<Dev>)
    requires Sized(d)
    ensures r.Some? ==> Sized(r.value)
  {
    match d.rcv
    case Idle => Some(Start(d, c))
    case IdentifyText => Ident(d, c)
    case DigitalRead => Digital(d, c)
    case ScopeOffset => Offset(d, c)
    case ScopeStatus => Status(d, c)
    case ScopeAddr => Addr(d, c)
    case ScopeData => Data(d, c)
    case ErrorText => Error(d, c)
    case InterruptText => Interrupt(d, c)
  }

  /** cgr101_rcv_data. */
  function Feed(d: Dev, bytes: seq<Byte>): (r: Option<Dev>)
    requires Sized(d)
    ensures r.Some? ==> Sized(r.value)
    decreases |bytes|
  {
    if bytes == [] then Some(d) else
      match Step(d, bytes[0])
      case None => None
      case Some(d1) => Feed(d1, bytes[1..])
  }

  /** How the bytes are split into reads does not matter. */
  lemma {:induction false} FeedAppend(d: Dev, a: seq<Byte>, b: seq<Byte>)
    requires Sized(d)
    ensures Feed(d, a + b) == match Feed(d, a) case None => None case Some(d1) => Feed(d1, b)
    decreases |a|
  {
    if a == [] {
      assert a + b == b;
    } else {
      assert (a + b)[1..] == a[1..] + b;
      var r := Step(d, a[0]);
      if r.Some? { FeedAppend(r.value, a[1..], b); }
    }
  }
}
