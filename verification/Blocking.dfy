/** Overlapped commands, input blocking and line dispatch, as a transition system. */
module Blocking {
  import opened Receive

  /** The queue's events: the three of the blocking protocol, and the device's reports,
      whose handlers only print, send to the device or queue more of the same. */
  datatype Queued = UNBLOCK | PROCESS_LINE | OUTPUT_FLUSH | REPORT(id: nat)

  /** What a line's commands ask of the driver.  `enabled` is whether a scope channel is on. */
  datatype Request =
    | OpcQuery | Wait | Initiate(enabled: bool) | InitiateImmediate(enabled: bool) | AbortAll
    | DataQuery | ConfigureEvents(mode: char, count: nat, mask: set<nat>) | FetchEvents
    | Sleep | Quit | Unrelated

  const CLI_LEN := 16384

  /** Unprocessed input, and the space leftovers took from the input buffer. */
  datatype Input = Input(line: Option<string>, offset: nat)

  datatype Gate = Gate(blocked: bool, sleeping: bool, opcq: bool)

  /** `armed` is the device's side: it reports an interrupt only after a "D !" command,
      and once for each. */
  datatype Acquisition = Acquisition(overlapped: bool, sweep: bool, recording: bool, addrComplete: bool,
                                     scopePending: bool, rec: Recorder, armed: bool)

  /** Lines executed so far and answers given to *OPC?. */
  datatype History = History(lines: seq<string>, answers: nat)

  datatype State = State(queue: seq<Queued>, input: Input, gate: Gate, acq: Acquisition, quit: bool, done: History)

  const INITIAL := State([], Input(None, 0), Gate(false, false, false),
                         Acquisition(false, false, false, false, false, Recorder({}, 'D', [], 0, false), false),
                         false, History([], 0))

  function Post(s: State, e: Queued): (r: State)
    ensures e in r.queue && forall x :: x in s.queue ==> x in r.queue
  {
    assert (s.queue + [e])[|s.queue|] == e;
    s.(queue := s.queue + [e])
  }

  function Block(s: State): State { s.(gate := s.gate.(blocked := true)) }

  function Answer(s: State): State { s.(done := s.done.(answers := s.done.answers + 1)) }

  /** cgr101_scope_data_done. */
  function SweepDone(s: State): Option<State> {
    if !s.acq.addrComplete then None
    else Some(Post(s.(acq := s.acq.(overlapped := false, sweep := false)), UNBLOCK))
  }

  /** cgr101_digital_event_done. */
  function RecordingDone(s: State): State {
    Post(s.(acq := s.acq.(recording := false, rec := s.acq.rec.(mask := {}))), UNBLOCK)
  }

  /** One request; None when an assertion of the driver fails. */
  function Perform(s: State, r: Request): Option<State> {
    match r
    case OpcQuery =>
      Some(if s.acq.overlapped then s.(gate := s.gate.(blocked := true, opcq := true)) else Answer(s))
    case Wait => Some(if s.acq.overlapped then Block(s) else s)
    case Initiate(enabled) =>
      var s1 := if enabled then s.(acq := s.acq.(overlapped := true, sweep := true)) else s;
      Some(if s1.acq.rec.mask != {} then
             s1.(acq := s1.acq.(recording := true, armed := s.acq.armed || INTERRUPT_CHANNEL in s.acq.rec.mask))
           else s1)
    case InitiateImmediate(enabled) =>
      Some(if enabled then s.(acq := s.acq.(overlapped := true, sweep := true)) else s)
    case AbortAll =>
      (match if s.acq.sweep then SweepDone(s) else Some(s)
       case None => None
       case Some(s1) => Some(if s1.acq.recording then RecordingDone(s1) else s1))
    case DataQuery =>
      if s.acq.sweep then Some(Block(s.(acq := s.acq.(scopePending := true))))
      else if s.acq.addrComplete then Some(s) else None
    case ConfigureEvents(mode, count, mask) => Some(s.(acq := s.acq.(rec := Recorder(mask, mode, [], count, false))))
    case FetchEvents =>
      Some(if s.acq.recording then Block(s.(acq := s.acq.(rec := s.acq.rec.(pending := true)))) else s)
    case Sleep => if s.gate.sleeping then None else Some(s.(gate := s.gate.(sleeping := true)))
    case Quit => Some(s.(quit := true))
    case Unrelated => Some(s)
  }

  function PerformAll(s: State, rs: seq<Request>): Option<State>
    decreases |rs|
  {
    if rs == [] then Some(s) else
      match Perform(s, rs[0]) case None => None case Some(s1) => PerformAll(s1, rs[1..])
  }

  /** parser_scpi_send: run a line's requests, then flush. */
  function Execute(s: State, line: string, meaning: string -> seq<Request>): Option<State> {
    match PerformAll(s.(done := s.done.(lines := s.done.lines + [line])), meaning(line))
    case None => None
    case Some(s1) => Some(Post(s1, OUTPUT_FLUSH))
  }

  /** Index of the first line feed, or the length. */
  function Eol(t: string): (n: nat)
    ensures n <= |t| && (n < |t| ==> t[n] == '\n') && forall i :: 0 <= i < n ==> t[i] != '\n'
  {
    if t == "" || t[0] == '\n' then 0 else 1 + Eol(t[1..])
  }

  /** parser_cli_line. */
  function CliLine(s: State, t: string, meaning: string -> seq<Request>): Option<State>
    requires t != ""
  {
    var n := Eol(t);
    if n < |t| then
      var rest := t[n + 1..];
      match if n > 0 then Execute(s, t[..n], meaning) else Some(s)
      case None => None
      case Some(s1) =>
        var s2 := s1.(input := s1.input.(line := if rest == "" then None else Some(rest)));
        Some(if rest == "" then s2 else Post(s2, PROCESS_LINE))
    else if t[0] == '\0' then Some(Post(s.(quit := true), OUTPUT_FLUSH))   // end of input
    else Some(s.(input := Input(None, |t|)))                               // leftovers
  }

  function Unblocked(s: State): State {
    var s1 := s.(gate := s.gate.(blocked := false));
    var s2 := if s.gate.opcq then Answer(s1.(gate := s1.gate.(opcq := false))) else s1;
    Post(Post(s2, OUTPUT_FLUSH), PROCESS_LINE)
  }

  predicate Blocked(s: State) { s.gate.sleeping || s.gate.blocked }

  /** The handler of the event at the head of the queue.  A report queues what `more` says. */
  function Dispatch(s: State, more: seq<Queued>, meaning: string -> seq<Request>): Option<State>
    requires s.queue != [] && (s.input.line.Some? ==> s.input.line.value != "")
  {
    var s1 := s.(queue := s.queue[1..]);
    match s.queue[0]
    case UNBLOCK => Some(Unblocked(s1))
    case PROCESS_LINE =>
      if s.input.line.None? then Some(s1)
      else if Blocked(s) then Some(Post(s1, PROCESS_LINE))
      else CliLine(s1, s.input.line.value, meaning)
    case OUTPUT_FLUSH => Some(s1)
    case REPORT(_) => Some(s1.(queue := s1.queue + more))
  }

  /** Everything that can happen next. */
  datatype Action =
    | Handle(more: seq<Queued>)     // the queue's head
    | Read(text: string)            // input arrives
    | EndOfInput
    | AddressStarts | AddressEnds   // an address frame
    | CaptureEnds                   // a capture frame is whole
    | Occurs(channel: nat, data: nat)
    | Report(id: nat)               // the device reports something else
    | Alarm                         // the sleep timer

  predicate Quiet(events: seq<Queued>) { forall i :: 0 <= i < |events| ==> events[i].REPORT? || events[i].OUTPUT_FLUSH? }

  predicate Enabled(s: State, a: Action) {
    match a
    case Handle(more) => s.queue != [] && Quiet(more)
    case Read(text) => s.input.line.None? && !Blocked(s) && 0 < |text| && |text| + s.input.offset < CLI_LEN && '\0' !in text
    case EndOfInput => s.input.line.None? && !Blocked(s)
    case _ => true
  }

  /** What one event does to the recorder and the device's arming, and whether the
      recorder is then full; None when its `current < max` assertion fails. */
  function Noted(acq: Acquisition, channel: nat, data: nat): Option<(Acquisition, bool)> {
    var rec := acq.rec;
    var armed := acq.armed && channel != INTERRUPT_CHANNEL;
    if channel !in rec.mask then Some((acq.(armed := armed), false))
    else if |rec.records| >= rec.max then None
    else
      var full := |rec.records| + 1 == rec.max;
      Some((acq.(rec := rec.(records := rec.records + [data]), armed := armed || (!full && data == DIGITAL_EVENT_INTERRUPT)), full))
  }

  /** cgr101_digital_event on the flags; printing is not part of this state. */
  function RecordEvent(s: State, channel: nat, data: nat): Option<State> {
    match Noted(s.acq, channel, data)
    case None => None
    case Some((acq, full)) => Some(if full then RecordingDone(s.(acq := acq)) else s.(acq := acq))
  }

  function Step(s: State, a: Action, meaning: string -> seq<Request>): Option<State>
    requires Enabled(s, a) && (s.input.line.Some? ==> s.input.line.value != "")
  {
    match a
    case Handle(more) => Dispatch(s, more, meaning)
    case Read(text) => Some(Post(s.(input := s.input.(line := Some(text))), PROCESS_LINE))
    case EndOfInput => Some(Post(s.(input := s.input.(line := Some("\0"))), PROCESS_LINE))
    case AddressStarts => Some(s.(acq := s.acq.(addrComplete := false)))
    case AddressEnds => Some(s.(acq := s.acq.(addrComplete := true)))
    case CaptureEnds => SweepDone(s.(acq := s.acq.(scopePending := false)))
    case Occurs(channel, data) => RecordEvent(s, channel, data)
    case Report(id) => Some(Post(s, REPORT(id)))
    case Alarm => Some(s.(gate := s.gate.(sleeping := false)))
  }

  // The invariant of every run

  predicate Inv(s: State) {
    && s.acq.overlapped == s.acq.sweep
    && (s.gate.opcq ==> s.gate.blocked)
    && (s.gate.blocked ==> s.acq.sweep || s.acq.recording || UNBLOCK in s.queue)
    && (s.input.line.Some? ==> s.input.line.value != "")
    && (s.input.line.Some? && !s.quit ==> PROCESS_LINE in s.queue)
  }

  /** The part of the invariant a line's requests keep. */
  predicate Flags(s: State) {
    && s.acq.overlapped == s.acq.sweep
    && (s.gate.opcq ==> s.gate.blocked)
    && (s.gate.blocked ==> s.acq.sweep || s.acq.recording || UNBLOCK in s.queue)
  }

  lemma AbortKeepsFlags(s: State)
    requires Flags(s) && Perform(s, AbortAll).Some?
    ensures var s' := Perform(s, AbortAll).value;
            Flags(s') && s'.input == s.input && s'.done == s.done && s.queue <= s'.queue && s'.quit == s.quit
  {
    if s.acq.sweep {
      assert UNBLOCK in SweepDone(s).value.queue;
    }
  }

  lemma PerformKeepsFlags(s: State, r: Request)
    requires Flags(s) && Perform(s, r).Some?
    ensures var s' := Perform(s, r).value;
            Flags(s') && s'.input == s.input && s'.done.lines == s.done.lines && s.queue <= s'.queue && (s.quit ==> s'.quit)
  {
    if r.AbortAll? {
      AbortKeepsFlags(s);
    }
    hide SweepDone, RecordingDone;
  }

  lemma {:induction false} PerformAllKeepsFlags(s: State, rs: seq<Request>)
    requires Flags(s) && PerformAll(s, rs).Some?
    ensures var s' := PerformAll(s, rs).value;
            Flags(s') && s'.input == s.input && s'.done.lines == s.done.lines && s.queue <= s'.queue && (s.quit ==> s'.quit)
    decreases |rs|
  {
    if rs != [] {
      PerformKeepsFlags(s, rs[0]);
      hide Perform;
      PerformAllKeepsFlags(Perform(s, rs[0]).value, rs[1..]);
    }
  }

  lemma CliLineKeepsInv(s: State, t: string, meaning: string -> seq<Request>)
    requires Flags(s) && t != "" && s.input.line == Some(t) && CliLine(s, t, meaning).Some?
    ensures Inv(CliLine(s, t, meaning).value)
  {
    var n := Eol(t);
    if 0 < n < |t| {
      var s0 := s.(done := s.done.(lines := s.done.lines + [t[..n]]));
      PerformAllKeepsFlags(s0, meaning(t[..n]));
    }
  }

  /** An event touches neither gate nor input, and ends a recording only with an unblock event. */
  lemma EventKeeps(s: State, channel: nat, data: nat)
    requires RecordEvent(s, channel, data).Some?
    ensures var s' := RecordEvent(s, channel, data).value;
            && s'.gate == s.gate && s'.input == s.input && s'.done == s.done && s'.quit == s.quit && s.queue <= s'.queue
            && s'.acq.overlapped == s.acq.overlapped && s'.acq.sweep == s.acq.sweep
            && (s'.acq.recording == s.acq.recording || UNBLOCK in s'.queue)
  {
    NotedKeeps(s.acq, channel, data);
    hide Noted;
  }

  lemma NotedKeeps(acq: Acquisition, channel: nat, data: nat)
    ensures var r := Noted(acq, channel, data);
            r.Some? ==> r.value.0.(rec := acq.rec, armed := acq.armed) == acq
  {
  }

  /** The flags tell the truth, nothing stays blocked without a wake-up on its way or an
      acquisition that will queue one, and input always has its event: over every step. */
  lemma StepKeepsInv(s: State, a: Action, meaning: string -> seq<Request>)
    requires Inv(s) && Enabled(s, a) && Step(s, a, meaning).Some?
    ensures Inv(Step(s, a, meaning).value)
  {
    hide Dispatch, Quiet, RecordEvent;
    if a.Handle? {
      DispatchKeepsInv(s, a.more, meaning);
    } else if a.Occurs? {
      EventKeeps(s, a.channel, a.data);
    }
  }

  lemma DispatchKeepsInv(s: State, more: seq<Queued>, meaning: string -> seq<Request>)
    requires Inv(s) && s.queue != [] && Quiet(more) && Dispatch(s, more, meaning).Some?
    ensures Inv(Dispatch(s, more, meaning).value)
  {
    var s1 := s.(queue := s.queue[1..]);
    assert s.queue == [s.queue[0]] + s1.queue;
    if s.queue[0].PROCESS_LINE? && s.input.line.Some? && !Blocked(s) {
      hide CliLine;
      CliLineKeepsInv(s1, s.input.line.value, meaning);
    }
  }

  // Runs

  /** No lost wake-up: every state that a run reaches meets the invariant. */
  function Run(s: State, run: seq<Action>, meaning: string -> seq<Request>): (r: Option<State>)
    requires Inv(s)
    ensures r.Some? ==> Inv(r.value)
    decreases |run|
  {
    if run == [] then Some(s)
    else if !Enabled(s, run[0]) then None
    else
      match Step(s, run[0], meaning)
      case None => None
      case Some(s1) => StepKeepsInv(s, run[0], meaning); Run(s1, run[1..], meaning)
  }

  // Bounded unblocking

  /** Handler steps before the first event of a kind. */
  function Ahead(queue: seq<Queued>, e: Queued := UNBLOCK): (k: nat)
    requires e in queue
    ensures k < |queue| && queue[k] == e && e !in queue[..k]
  {
    if queue[0] == e then 0 else
      assert queue == [queue[0]] + queue[1..];
      var k := Ahead(queue[1..], e);
      assert queue[..k + 1] == [queue[0]] + queue[1..][..k];
      1 + k
  }

  lemma {:induction false} AheadIsFirst(queue: seq<Queued>, k: nat, e: Queued := UNBLOCK)
    requires k < |queue| && queue[k] == e && e !in queue[..k]
    ensures e in queue && Ahead(queue, e) == k
  {
    if k > 0 {
      assert queue[0] == queue[..k][0] && queue[1..][..k - 1] == queue[..k][1..];
      AheadIsFirst(queue[1..], k - 1, e);
    }
  }

  /** While blocked with an unblock event k steps ahead, a handler step brings it one
      step nearer or clears the block; other actions leave it; no line runs. */
  lemma BlockedStep(s: State, a: Action, meaning: string -> seq<Request>)
    requires Inv(s) && s.gate.blocked && UNBLOCK in s.queue && Enabled(s, a) && Step(s, a, meaning).Some?
    ensures var s' := Step(s, a, meaning).value; var k := Ahead(s.queue);
            && s'.done.lines == s.done.lines
            && (a.Handle? && k == 0 ==> !s'.gate.blocked && !s'.gate.opcq && PROCESS_LINE in s'.queue
                                        && s'.done.answers == s.done.answers + if s.gate.opcq then 1 else 0)
            && (!(a.Handle? && k == 0) ==>
                  s'.gate.blocked && s'.gate.opcq == s.gate.opcq && s'.done.answers == s.done.answers
                  && UNBLOCK in s'.queue && Ahead(s'.queue) == if a.Handle? then k - 1 else k)
  {
    hide Step, Ahead;
    var s', k := Step(s, a, meaning).value, Ahead(s.queue);
    if a.Handle? {
      BlockedHandler(s, a.more, meaning);
      if k > 0 {
        assert s'.queue[k - 1] == s.queue[k] && s'.queue[..k - 1] == s.queue[..k][1..];
        AheadIsFirst(s'.queue, k - 1);
      }
    } else {
      OutsideStep(s, a, meaning);
      assert s'.queue[..k] == s.queue[..k];
      AheadIsFirst(s'.queue, k);
    }
  }

  lemma BlockedHandler(s: State, more: seq<Queued>, meaning: string -> seq<Request>)
    requires Inv(s) && s.gate.blocked && s.queue != [] && Quiet(more)
    ensures var r := Step(s, Handle(more), meaning);
            && r.Some? && r.value.done.lines == s.done.lines && s.queue[1..] <= r.value.queue
            && (s.queue[0] == UNBLOCK ==>
                  !r.value.gate.blocked && !r.value.gate.opcq && PROCESS_LINE in r.value.queue
                  && r.value.done.answers == s.done.answers + if s.gate.opcq then 1 else 0)
            && (s.queue[0] != UNBLOCK ==> r.value.gate == s.gate && r.value.done == s.done)
  {
    hide CliLine;
  }

  lemma OutsideStep(s: State, a: Action, meaning: string -> seq<Request>)
    requires Inv(s) && Enabled(s, a) && !a.Handle? && Step(s, a, meaning).Some?
    ensures var s' := Step(s, a, meaning).value;
            s'.gate.blocked == s.gate.blocked && s'.gate.opcq == s.gate.opcq && s'.done == s.done && s.queue <= s'.queue
  {
    hide Dispatch, RecordEvent;
    if a.Occurs? { EventKeeps(s, a.channel, a.data); }
  }

  function Handled(run: seq<Action>): nat {
    if run == [] then 0 else (if run[0].Handle? then 1 else 0) + Handled(run[1..])
  }

  /** With input blocked and an unblock event at queue position k: whatever else happens,
      the block holds and no line runs for k handler steps, and the next one clears it,
      answering a waiting *OPC?. */
  lemma {:induction false} BoundedUnblocking(s: State, run: seq<Action>, last: Action, meaning: string -> seq<Request>)
    requires Inv(s) && s.gate.blocked && UNBLOCK in s.queue
    requires last.Handle? && Handled(run) == Ahead(s.queue)
    requires Run(s, run, meaning).Some?
    requires var s1 := Run(s, run, meaning).value; Enabled(s1, last) && Step(s1, last, meaning).Some?
    ensures var s1 := Run(s, run, meaning).value; var s2 := Step(s1, last, meaning).value;
            && s1.gate.blocked && s2.done.lines == s1.done.lines == s.done.lines
            && !s2.gate.blocked && PROCESS_LINE in s2.queue
            && s2.done.answers == s.done.answers + if s.gate.opcq then 1 else 0
    decreases |run|
  {
    hide Step;
    if run == [] {
      BlockedStep(s, last, meaning);
    } else {
      BlockedStep(s, run[0], meaning);
      StepKeepsInv(s, run[0], meaning);
      BoundedUnblocking(Step(s, run[0], meaning).value, run[1..], last, meaning);
    }
  }
}
