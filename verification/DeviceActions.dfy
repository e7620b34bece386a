/** The byte machine seen by the blocking protocol: each byte is a few of the protocol's
    actions, so its laws hold of the bytes. */
module DeviceActions {
  import opened Receive
  import ReceiveLaws
  import Blocking
  import BlockingLaws

  function AsQueued(e: Event): Blocking.Queued {
    match e
    case IdentifyDone => Blocking.REPORT(0)
    case DigitalReadDone => Blocking.REPORT(1)
    case StatusDone => Blocking.REPORT(2)
    case Unblock => Blocking.UNBLOCK
  }

  function AllQueued(es: seq<Event>): (q: seq<Blocking.Queued>)
    ensures |q| == |es|
  {
    seq(|es|, i requires 0 <= i < |es| => AsQueued(es[i]))
  }

  /** The flags both models keep are the same. */
  predicate Same(d: Dev, s: Blocking.State) {
    && d.flags.overlapped == s.acq.overlapped && d.flags.sweep == s.acq.sweep && d.flags.event == s.acq.recording
    && d.scope.addr.AddrComplete? == s.acq.addrComplete && d.scope.pending == s.acq.scopePending && d.rec == s.acq.rec
  }

  /** What the device brought: the new events queued in order, input and gate untouched. */
  predicate Follows(d: Dev, d': Dev, s: Blocking.State, s': Blocking.State, news: seq<Event>) {
    && Same(d', s') && s'.input == s.input && s'.gate == s.gate && s'.done == s.done && s'.quit == s.quit
    && d'.log.events == d.log.events + news && s'.queue == s.queue + AllQueued(news)
  }

  /** The protocol's actions in one byte. */
  function Actions(d: Dev, c: Byte): seq<Blocking.Action> {
    match d.rcv
    case Idle => if c == CH_A then [Blocking.AddressStarts] else []
    case IdentifyText => if c == LF then [Blocking.Report(0)] else []
    case DigitalRead => [Blocking.Occurs(DIGITAL_DATA_CHANNEL, c), Blocking.Report(1)]
    case ScopeStatus => if CH_1 <= c <= CH_6 then [Blocking.Report(2)] else []
    case ScopeAddr => if d.scope.addr.AddrLow? then [Blocking.AddressEnds] else []
    case ScopeData =>
      if d.scope.data.DataBLow? && d.scope.count + 1 == SAMPLES then [Blocking.CaptureEnds] else []
    case InterruptText => if c == LF then [Blocking.Occurs(INTERRUPT_CHANNEL, DIGITAL_EVENT_INTERRUPT)] else []
    case _ => []
  }

  /** The actions of a run of bytes. */
  function ActionsOf(d: Dev, bytes: seq<Byte>): seq<Blocking.Action>
    requires Sized(d)
    decreases |bytes|
  {
    if bytes == [] then [] else
      Actions(d, bytes[0]) + match Step(d, bytes[0]) case None => [] case Some(d1) => ActionsOf(d1, bytes[1..])
  }

  lemma FollowsNothing(d: Dev, d': Dev, s: Blocking.State)
    requires Same(d', s) && d'.log.events == d.log.events
    ensures Follows(d, d', s, s, [])
  {
    assert d.log.events + [] == d.log.events && AllQueued([]) == [] && s.queue + [] == s.queue;
  }

  lemma FollowsThen(d: Dev, d1: Dev, d2: Dev, s: Blocking.State, s1: Blocking.State, s2: Blocking.State, x: seq<Event>, y: seq<Event>)
    requires Follows(d, d1, s, s1, x) && Follows(d1, d2, s1, s2, y)
    ensures Follows(d, d2, s, s2, x + y)
  {
    hide Same;
    assert AllQueued(x + y) == AllQueued(x) + AllQueued(y);
    assert s.queue + AllQueued(x) + AllQueued(y) == s.queue + (AllQueued(x) + AllQueued(y));
    assert d.log.events + x + y == d.log.events + (x + y);
  }

  lemma EmitFollows(d: Dev, s: Blocking.State, e: Event)
    requires Same(d, s)
    ensures Follows(d, ToIdle(Emit(d, e)), s, Blocking.Post(s, AsQueued(e)), [e])
  {
    assert AllQueued([e]) == [AsQueued(e)];
  }

  /** An event ends a recording when it is the last the recorder waits for. */
  predicate Ends(rec: Recorder, channel: nat) { channel in rec.mask && |rec.records| + 1 == rec.max }

  function AfterEvent(rec: Recorder, channel: nat, data: nat): Recorder {
    if channel !in rec.mask then rec
    else rec.(records := rec.records + [data], mask := if Ends(rec, channel) then {} else rec.mask)
  }

  function Ending(rec: Recorder, channel: nat): seq<Event> { if Ends(rec, channel) then [Unblock] else [] }

  lemma NoticeEffect(d: Dev, channel: nat, data: nat)
    ensures var r := Notice(d, channel, data);
            && (r.Some? <==> channel !in d.rec.mask || |d.rec.records| < d.rec.max)
            && (r.Some? ==>
                  && r.value.rec == AfterEvent(d.rec, channel, data)
                  && r.value.flags == d.flags.(event := d.flags.event && !Ends(d.rec, channel))
                  && r.value.log.events == d.log.events + Ending(d.rec, channel))
  {
    assert d.log.events + [] == d.log.events;
  }

  lemma RecordEffect(s: Blocking.State, channel: nat, data: nat)
    ensures var r := Blocking.RecordEvent(s, channel, data); var rec := s.acq.rec;
            && (r.Some? <==> channel !in rec.mask || |rec.records| < rec.max)
            && (r.Some? ==>
                  r.value == s.(queue := s.queue + AllQueued(Ending(rec, channel)),
                                acq := s.acq.(rec := AfterEvent(rec, channel, data), armed := r.value.acq.armed,
                                              recording := s.acq.recording && !Ends(rec, channel))))
  {
    assert AllQueued([Unblock]) == [Blocking.UNBLOCK] && AllQueued([]) == [] && s.queue + [] == s.queue;
  }

  /** An event, noticed by both models. */
  lemma NoticeFollows(d: Dev, s: Blocking.State, channel: nat, data: nat)
    requires Same(d, s)
    ensures Notice(d, channel, data).Some? <==> Blocking.RecordEvent(s, channel, data).Some?
    ensures var r := Notice(d, channel, data);
            r.Some? ==> Follows(d, r.value, s, Blocking.RecordEvent(s, channel, data).value, Ending(d.rec, channel))
  {
    hide Notice, Blocking.RecordEvent, AfterEvent, Ending, Ends;
    NoticeEffect(d, channel, data);
    RecordEffect(s, channel, data);
  }

  lemma FinishFollows(d: Dev, s: Blocking.State)
    requires Sized(d) && Same(d, s)
    ensures var t := s.(acq := s.acq.(scopePending := false));
            && (FinishCapture(d).Some? <==> Blocking.SweepDone(t).Some?)
            && (FinishCapture(d).Some? ==> Follows(d, FinishCapture(d).value, s, Blocking.SweepDone(t).value, [Unblock]))
  {
    hide Readout;
    assert AllQueued([Unblock]) == [Blocking.UNBLOCK];
  }

  /** What a byte brings. */
  function News(d: Dev, c: Byte): seq<Event> {
    match d.rcv
    case IdentifyText => if c == LF then [IdentifyDone] else []
    case DigitalRead =>
      Ending(d.rec, DIGITAL_DATA_CHANNEL) + [DigitalReadDone]
    case ScopeStatus => if CH_1 <= c <= CH_6 then [StatusDone] else []
    case ScopeData => if d.scope.data.DataBLow? && d.scope.count + 1 == SAMPLES then [Unblock] else []
    case InterruptText => if c == LF then Ending(d.rec, INTERRUPT_CHANNEL) else []
    case _ => []
  }

  lemma RunAction(s: Blocking.State, a: Blocking.Action, meaning: string -> seq<Blocking.Request>)
    requires Blocking.Inv(s) && Blocking.Enabled(s, a)
    ensures Blocking.Run(s, [a], meaning) == Blocking.Step(s, a, meaning)
  {
    hide Blocking.Step;
    if Blocking.Step(s, a, meaning).Some? { Blocking.StepKeepsInv(s, a, meaning); }
    assert [a][1..] == [];
  }

  /** The byte leaves the protocol alone. */
  lemma Unmoved(d: Dev, d': Dev, s: Blocking.State, meaning: string -> seq<Blocking.Request>)
    requires Blocking.Inv(s) && Same(d', s) && d'.log.events == d.log.events
    ensures Blocking.Run(s, [], meaning) == Some(s) && Follows(d, d', s, s, [])
  {
    FollowsNothing(d, d', s);
  }

  lemma StartFollows(d: Dev, c: Byte, s: Blocking.State, meaning: string -> seq<Blocking.Request>)
    requires Same(d, s) && Blocking.Inv(s) && d.rcv.Idle?
    ensures var r := Blocking.Run(s, Actions(d, c), meaning);
            r.Some? && Follows(d, Start(d, c), s, r.value, News(d, c))
  {
    hide Blocking.Inv, Blocking.Run, Follows;
    if c == CH_A {
      var s1 := s.(acq := s.acq.(addrComplete := false));
      RunAction(s, Blocking.AddressStarts, meaning);
      Moved(d, Start(d, c), s, s1);
    } else {
      Unmoved(d, Start(d, c), s, meaning);
    }
  }

  /** Only flags moved. */
  lemma Moved(d: Dev, d': Dev, s: Blocking.State, s': Blocking.State)
    requires Same(d', s') && d'.log.events == d.log.events && s' == s.(acq := s'.acq)
    ensures Follows(d, d', s, s', [])
  {
    FollowsNothing(d, d', s');
  }

  lemma TextFollows(d: Dev, c: Byte, s: Blocking.State, meaning: string -> seq<Blocking.Request>)
    requires Sized(d) && Same(d, s) && Blocking.Inv(s) && (d.rcv.IdentifyText? || d.rcv.ErrorText? || d.rcv.ScopeStatus?)
    requires Step(d, c).Some?
    ensures var r := Blocking.Run(s, Actions(d, c), meaning);
            r.Some? && Follows(d, Step(d, c).value, s, r.value, News(d, c))
  {
    hide Blocking.Inv, Blocking.Run, Follows;
    if d.rcv.IdentifyText? && c == LF {
      RunAction(s, Blocking.Report(0), meaning);
      EmitFollows(d, s, IdentifyDone);
    } else if d.rcv.ScopeStatus? && CH_1 <= c <= CH_6 {
      RunAction(s, Blocking.Report(2), meaning);
      var d1 := d.(scope := d.scope.(statusValue := c - 48, status := StatusComplete));
      EmitFollows(d1, s, StatusDone);
      FollowsNothing(d, d1, s);
      FollowsThen(d, d1, Step(d, c).value, s, s, Blocking.Post(s, Blocking.REPORT(2)), [], [StatusDone]);
      assert [] + [StatusDone] == [StatusDone];
    } else {
      Unmoved(d, Step(d, c).value, s, meaning);
    }
  }

  lemma OffsetFollows(d: Dev, c: Byte, s: Blocking.State, meaning: string -> seq<Blocking.Request>)
    requires Same(d, s) && Blocking.Inv(s) && d.rcv.ScopeOffset? && Offset(d, c).Some?
    ensures var r := Blocking.Run(s, Actions(d, c), meaning);
            r.Some? && Follows(d, Offset(d, c).value, s, r.value, News(d, c))
  {
    hide Blocking.Inv, Blocking.Run, Follows;
    OffsetUnmoved(d, c);
    hide Offset;
    Unmoved(d, Offset(d, c).value, s, meaning);
  }

  lemma OffsetUnmoved(d: Dev, c: Byte)
    requires Offset(d, c).Some?
    ensures var d' := Offset(d, c).value;
            && d'.flags.(offset := d.flags.offset) == d.flags && d'.rec == d.rec && d'.log == d.log
            && d'.scope.addr == d.scope.addr && d'.scope.pending == d.scope.pending
  {
    hide OffsetVolts;
  }

  lemma AddrFollows(d: Dev, c: Byte, s: Blocking.State, meaning: string -> seq<Blocking.Request>)
    requires Same(d, s) && Blocking.Inv(s) && d.rcv.ScopeAddr? && Addr(d, c).Some?
    ensures var r := Blocking.Run(s, Actions(d, c), meaning);
            r.Some? && Follows(d, Addr(d, c).value, s, r.value, News(d, c))
  {
    hide Blocking.Inv, Blocking.Run, Follows;
    if d.scope.addr.AddrLow? {
      RunAction(s, Blocking.AddressEnds, meaning);
      Moved(d, Addr(d, c).value, s, s.(acq := s.acq.(addrComplete := true)));
    } else {
      Unmoved(d, Addr(d, c).value, s, meaning);
    }
  }

  lemma InterruptFollows(d: Dev, c: Byte, s: Blocking.State, meaning: string -> seq<Blocking.Request>)
    requires Same(d, s) && Blocking.Inv(s) && d.rcv.InterruptText? && Interrupt(d, c).Some?
    ensures var r := Blocking.Run(s, Actions(d, c), meaning);
            r.Some? && Follows(d, Interrupt(d, c).value, s, r.value, News(d, c))
  {
    hide Blocking.Inv, Blocking.Run, Notice, Blocking.RecordEvent;
    if c == LF {
      RunAction(s, Blocking.Occurs(INTERRUPT_CHANNEL, DIGITAL_EVENT_INTERRUPT), meaning);
      NoticeFollows(d, s, INTERRUPT_CHANNEL, DIGITAL_EVENT_INTERRUPT);
    } else {
      Unmoved(d, d, s, meaning);
    }
  }

  lemma DigitalFollows(d: Dev, c: Byte, s: Blocking.State, meaning: string -> seq<Blocking.Request>)
    requires Same(d, s) && Blocking.Inv(s) && d.rcv.DigitalRead? && Digital(d, c).Some?
    ensures var r := Blocking.Run(s, Actions(d, c), meaning);
            r.Some? && Follows(d, Digital(d, c).value, s, r.value, News(d, c))
  {
    hide Blocking.Inv, Blocking.Run, Notice, Blocking.RecordEvent, Follows;
    var d0, a, b := d.(digital := c), Blocking.Occurs(DIGITAL_DATA_CHANNEL, c), Blocking.Report(1);
    NoticeFollows(d0, s, DIGITAL_DATA_CHANNEL, c);
    var d1, s1 := Notice(d0, DIGITAL_DATA_CHANNEL, c).value, Blocking.RecordEvent(s, DIGITAL_DATA_CHANNEL, c).value;
    var x := Ending(d.rec, DIGITAL_DATA_CHANNEL);
    TwoActions(s, a, b, meaning);
    FollowsSame(d0, d1, s, s1, x);
    EmitFollows(d1, s1, DigitalReadDone);
    FollowsThen(d0, d1, Digital(d, c).value, s, s1, Blocking.Post(s1, Blocking.REPORT(1)), x, [DigitalReadDone]);
    FollowsFrom(d0, d, Digital(d, c).value, s, Blocking.Post(s1, Blocking.REPORT(1)), x + [DigitalReadDone]);
  }

  lemma FollowsSame(d: Dev, d': Dev, s: Blocking.State, s': Blocking.State, news: seq<Event>)
    requires Follows(d, d', s, s', news)
    ensures Same(d', s')
  {
  }

  lemma FollowsFrom(d0: Dev, d: Dev, d': Dev, s: Blocking.State, s': Blocking.State, news: seq<Event>)
    requires Follows(d0, d', s, s', news) && d0.log.events == d.log.events
    ensures Follows(d, d', s, s', news)
  {
  }

  lemma TwoActions(s: Blocking.State, a: Blocking.Action, b: Blocking.Action, meaning: string -> seq<Blocking.Request>)
    requires Blocking.Inv(s) && a.Occurs? && b.Report? && Blocking.RecordEvent(s, a.channel, a.data).Some?
    ensures Blocking.Run(s, [a, b], meaning)
         == Some(Blocking.Post(Blocking.RecordEvent(s, a.channel, a.data).value, Blocking.REPORT(b.id)))
  {
    hide Blocking.RecordEvent;
    var s1 := Blocking.RecordEvent(s, a.channel, a.data).value;
    assert Blocking.Step(s, a, meaning) == Some(s1);
    Blocking.StepKeepsInv(s, a, meaning);
    assert [a, b][1..] == [b];
    RunAction(s1, b, meaning);
    hide Blocking.Inv, Blocking.Step;
  }

  lemma DataFollows(d: Dev, c: Byte, s: Blocking.State, meaning: string -> seq<Blocking.Request>)
    requires Sized(d) && Same(d, s) && Blocking.Inv(s) && d.rcv.ScopeData? && Data(d, c).Some?
    ensures var r := Blocking.Run(s, Actions(d, c), meaning);
            r.Some? && Follows(d, Data(d, c).value, s, r.value, News(d, c))
  {
    hide Blocking.Inv, Blocking.Run, Follows, FinishCapture, Blocking.SweepDone;
    if d.scope.data.DataBLow? && d.scope.count + 1 == SAMPLES {
      LastByte(d, c);
      hide Data;
      var d1 := BeforeFinish(d, c);
      RunAction(s, Blocking.CaptureEnds, meaning);
      FinishFollows(d1, s);
      FollowsFrom(d1, d, Data(d, c).value, s, Blocking.SweepDone(s.(acq := s.acq.(scopePending := false))).value, [Unblock]);
    } else {
      DataUnmoved(d, c);
      hide Data;
      Unmoved(d, Data(d, c).value, s, meaning);
    }
  }

  function BeforeFinish(d: Dev, c: Byte): (d1: Dev)
    requires Sized(d) && d.scope.count < SAMPLES
    ensures Sized(d1)
  {
    var i := d.scope.count;
    d.(b := d.b[i := d.b[i] + c], scope := d.scope.(count := i + 1))
  }

  lemma LastByte(d: Dev, c: Byte)
    requires Sized(d) && d.scope.data.DataBLow? && d.scope.count + 1 == SAMPLES
    ensures Data(d, c) == FinishCapture(BeforeFinish(d, c))
  {
    hide FinishCapture;
  }

  lemma DataUnmoved(d: Dev, c: Byte)
    requires Sized(d) && d.rcv.ScopeData? && Data(d, c).Some? && !(d.scope.data.DataBLow? && d.scope.count + 1 == SAMPLES)
    ensures var d' := Data(d, c).value;
            d'.flags == d.flags && d'.rec == d.rec && d'.log == d.log && d'.scope.addr == d.scope.addr && d'.scope.pending == d.scope.pending
  {
  }

  /** One byte is its actions. */
  lemma StepFollows(d: Dev, c: Byte, s: Blocking.State, meaning: string -> seq<Blocking.Request>)
    requires Sized(d) && Same(d, s) && Blocking.Inv(s) && Step(d, c).Some?
    ensures var r := Blocking.Run(s, Actions(d, c), meaning);
            r.Some? && Follows(d, Step(d, c).value, s, r.value, News(d, c))
  {
    hide Blocking.Run, Blocking.Inv, Follows;
    match d.rcv
    case Idle => StartFollows(d, c, s, meaning);
    case IdentifyText => TextFollows(d, c, s, meaning);
    case ErrorText => TextFollows(d, c, s, meaning);
    case ScopeStatus => TextFollows(d, c, s, meaning);
    case ScopeOffset => OffsetFollows(d, c, s, meaning);
    case ScopeAddr => AddrFollows(d, c, s, meaning);
    case DigitalRead => DigitalFollows(d, c, s, meaning);
    case InterruptText => InterruptFollows(d, c, s, meaning);
    case ScopeData => DataFollows(d, c, s, meaning);
  }

  lemma {:induction false} RunAppend(s: Blocking.State, x: seq<Blocking.Action>, y: seq<Blocking.Action>, meaning: string -> seq<Blocking.Request>)
    requires Blocking.Inv(s)
    ensures Blocking.Run(s, x + y, meaning)
         == match Blocking.Run(s, x, meaning) case None => None case Some(s1) => Blocking.Run(s1, y, meaning)
    decreases |x|
  {
    hide Blocking.Step, Blocking.Enabled;
    if x == [] {
      assert x + y == y;
    } else {
      assert (x + y)[1..] == x[1..] + y && (x + y)[0] == x[0];
      if Blocking.Enabled(s, x[0]) && Blocking.Step(s, x[0], meaning).Some? {
        Blocking.StepKeepsInv(s, x[0], meaning);
        RunAppend(Blocking.Step(s, x[0], meaning).value, x[1..], y, meaning);
      }
    }
  }

  function NewsOf(d: Dev, bytes: seq<Byte>): seq<Event>
    requires Sized(d)
    decreases |bytes|
  {
    if bytes == [] then [] else
      News(d, bytes[0]) + match Step(d, bytes[0]) case None => [] case Some(d1) => NewsOf(d1, bytes[1..])
  }

  /** Whatever bytes the device sends, feeding them to the receive machine is a run of the
      blocking protocol: the flags stay the same in both, the events queued are those
      emitted, and so no wake-up is lost. */
  lemma {:induction false} BytesAreARun(d: Dev, bytes: seq<Byte>, s: Blocking.State, meaning: string -> seq<Blocking.Request>)
    requires Sized(d) && Same(d, s) && Blocking.Inv(s) && Feed(d, bytes).Some?
    ensures var r := Blocking.Run(s, ActionsOf(d, bytes), meaning);
            r.Some? && Blocking.Inv(r.value) && Follows(d, Feed(d, bytes).value, s, r.value, NewsOf(d, bytes))
    decreases |bytes|
  {
    hide Step, Blocking.Run, Blocking.Inv, Follows, Actions, News;
    if bytes == [] {
      Unmoved(d, d, s, meaning);
    } else {
      StepFollows(d, bytes[0], s, meaning);
      var d1, s1 := Step(d, bytes[0]).value, Blocking.Run(s, Actions(d, bytes[0]), meaning).value;
      FollowsSame(d, d1, s, s1, News(d, bytes[0]));
      BytesAreARun(d1, bytes[1..], s1, meaning);
      var s2 := Blocking.Run(s1, ActionsOf(d1, bytes[1..]), meaning).value;
      FollowsThen(d, d1, Feed(d, bytes).value, s, s1, s2, News(d, bytes[0]), NewsOf(d1, bytes[1..]));
      RunAppend(s, Actions(d, bytes[0]), ActionsOf(d1, bytes[1..]), meaning);
    }
  }

  /** An interrupt frame ends. */
  predicate InterruptEnds(d: Dev, c: Byte) { d.rcv.InterruptText? && c == LF }

  /** The byte sends a re-arm command. */
  predicate RearmSent(d: Dev, c: Byte)
    requires Sized(d)
  {
    Step(d, c).Some? && |d.log.commands| < |Step(d, c).value.log.commands|
    && Step(d, c).value.log.commands[|d.log.commands|].Rearm?
  }

  /** Whether the device is armed, by the commands it gets and the interrupts it sends. */
  function ArmedAfter(armed: bool, d: Dev, bytes: seq<Byte>): bool
    requires Sized(d)
    decreases |bytes|
  {
    if bytes == [] || Step(d, bytes[0]).None? then armed
    else ArmedAfter((armed && !InterruptEnds(d, bytes[0])) || RearmSent(d, bytes[0]), Step(d, bytes[0]).value, bytes[1..])
  }

  lemma RearmIsTaken(d: Dev, c: Byte)
    requires Sized(d) && Step(d, c).Some?
    ensures RearmSent(d, c) <==> ReceiveLaws.TakesInterrupt(d, c)
  {
    ReceiveLaws.ByteSends(d, c);
    hide Step;
  }

  /** What an event does to the arming. */
  lemma ArmingOf(s: Blocking.State, channel: nat, data: nat)
    requires Blocking.RecordEvent(s, channel, data).Some?
    ensures Blocking.RecordEvent(s, channel, data).value.acq.armed
       <==> (s.acq.armed && channel != INTERRUPT_CHANNEL)
            || (data == DIGITAL_EVENT_INTERRUPT && channel in s.acq.rec.mask && |s.acq.rec.records| + 1 < s.acq.rec.max)
  {
    NotedArms(s.acq, channel, data);
    hide Blocking.Noted;
  }

  lemma NotedArms(acq: Blocking.Acquisition, channel: nat, data: nat)
    ensures var r := Blocking.Noted(acq, channel, data);
            r.Some? ==> (r.value.0.armed <==>
                           (acq.armed && channel != INTERRUPT_CHANNEL)
                           || (data == DIGITAL_EVENT_INTERRUPT && channel in acq.rec.mask && |acq.rec.records| + 1 < acq.rec.max))
  {
  }

  /** One byte arms and disarms in the protocol as its command and its interrupt do. */
  lemma StepArms(d: Dev, c: Byte, s: Blocking.State, meaning: string -> seq<Blocking.Request>)
    requires Sized(d) && Same(d, s) && Blocking.Inv(s) && Step(d, c).Some? && Blocking.Run(s, Actions(d, c), meaning).Some?
    ensures Blocking.Run(s, Actions(d, c), meaning).value.acq.armed
       <==> (s.acq.armed && !InterruptEnds(d, c)) || RearmSent(d, c)
  {
    RearmIsTaken(d, c);
    hide Step, RearmSent, Blocking.Inv, Blocking.RecordEvent;
    match d.rcv
    case DigitalRead =>
      RunFirst(s, Blocking.Occurs(DIGITAL_DATA_CHANNEL, c), [Blocking.Report(1)], meaning);
      ArmingOf(s, DIGITAL_DATA_CHANNEL, c);
      RunAction(Blocking.RecordEvent(s, DIGITAL_DATA_CHANNEL, c).value, Blocking.Report(1), meaning);
      hide Blocking.Run;
    case InterruptText =>
      if c == LF {
        RunAction(s, Blocking.Occurs(INTERRUPT_CHANNEL, DIGITAL_EVENT_INTERRUPT), meaning);
        ArmingOf(s, INTERRUPT_CHANNEL, DIGITAL_EVENT_INTERRUPT);
        hide Blocking.Run;
      }
    case _ =>
      if Actions(d, c) != [] {
        RunAction(s, Actions(d, c)[0], meaning);
        hide Blocking.Run;
      }
  }

  lemma RunFirst(s: Blocking.State, a: Blocking.Action, rest: seq<Blocking.Action>, meaning: string -> seq<Blocking.Request>)
    requires Blocking.Inv(s) && a.Occurs? && Blocking.Run(s, [a] + rest, meaning).Some?
    ensures var r := Blocking.RecordEvent(s, a.channel, a.data);
            r.Some? && Blocking.Inv(r.value) && Blocking.Run(s, [a] + rest, meaning) == Blocking.Run(r.value, rest, meaning)
  {
    hide Blocking.RecordEvent;
    if Blocking.Step(s, a, meaning).Some? { Blocking.StepKeepsInv(s, a, meaning); }
    assert ([a] + rest)[0] == a && ([a] + rest)[1..] == rest;
  }

  /** Over any bytes, the protocol's device is armed exactly when the commands sent and the
      interrupts received leave it so. */
  lemma {:induction false} BytesArm(d: Dev, bytes: seq<Byte>, s: Blocking.State, meaning: string -> seq<Blocking.Request>)
    requires Sized(d) && Same(d, s) && Blocking.Inv(s) && Feed(d, bytes).Some?
    ensures var r := Blocking.Run(s, ActionsOf(d, bytes), meaning);
            r.Some? && r.value.acq.armed == ArmedAfter(s.acq.armed, d, bytes)
    decreases |bytes|
  {
    hide Step, Blocking.Run, Blocking.Inv, Follows, Actions, News, InterruptEnds, RearmSent;
    if bytes == [] {
      Unmoved(d, d, s, meaning);
    } else {
      StepFollows(d, bytes[0], s, meaning);
      StepArms(d, bytes[0], s, meaning);
      var d1, s1 := Step(d, bytes[0]).value, Blocking.Run(s, Actions(d, bytes[0]), meaning).value;
      FollowsSame(d, d1, s, s1, News(d, bytes[0]));
      BytesArm(d1, bytes[1..], s1, meaning);
      RunAppend(s, Actions(d, bytes[0]), ActionsOf(d1, bytes[1..]), meaning);
    }
  }

  /** The requests that both models know do the same in both. */
  lemma RequestsFollow(d: Dev, s: Blocking.State, mode: char, count: nat, channels: set<nat>, mask: set<nat>)
    requires Sized(d) && Same(d, s)
    ensures Same(d.(rec := ReceiveLaws.Configure(mode, count, channels)), Blocking.Perform(s, Blocking.ConfigureEvents(mode, count, channels)).value)
    ensures Same(ReceiveLaws.SweepStarted(d), Blocking.Perform(s, Blocking.InitiateImmediate(true)).value)
    ensures Same(ReceiveLaws.Fetch(d), Blocking.Perform(s, Blocking.FetchEvents).value)
    ensures ReceiveLaws.DataQuery(d, mask).Some? <==> Blocking.Perform(s, Blocking.DataQuery).Some?
    ensures ReceiveLaws.DataQuery(d, mask).Some? ==>
              Same(ReceiveLaws.DataQuery(d, mask).value, Blocking.Perform(s, Blocking.DataQuery).value)
  {
    hide Readout, RecordedItems;
  }

  /** An abort is the same request in both. */
  lemma AbortFollows(d: Dev, s: Blocking.State)
    requires Same(d, s)
    ensures ReceiveLaws.Abort(d).Some? <==> Blocking.Perform(s, Blocking.AbortAll).Some?
    ensures ReceiveLaws.Abort(d).Some? ==>
              Follows(d, ReceiveLaws.Abort(d).value, s, Blocking.Perform(s, Blocking.AbortAll).value,
                      (if d.flags.sweep then [Unblock] else []) + (if d.flags.event then [Unblock] else []))
  {
    assert AllQueued([Unblock]) == [Blocking.UNBLOCK] && AllQueued([Unblock] + [Unblock]) == [Blocking.UNBLOCK, Blocking.UNBLOCK];
    assert AllQueued([] + []) == [] && d.log.events + ([] + []) == d.log.events && s.queue + [] == s.queue;
    assert [] + [Unblock] == [Unblock] && [Unblock] + [] == [Unblock];
  }
}
