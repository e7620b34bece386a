/** What blocks input and for how long: the requests of a line by what they mean, waits
    over whole runs, sleeping, dispatch and quitting. */
module WaitingLaws {
  import Receive
  import opened Blocking
  import opened BlockingLaws

  // What a line leaves behind

  /** What is under way, by the requests made: a sweep, an event recording, a recording set
      up. */
  datatype Busy = Busy(sweep: bool, recording: bool, setUp: bool)

  function BusyOf(s: State): Busy { Busy(s.acq.sweep, s.acq.recording, s.acq.rec.mask != {}) }

  function BusyAfter(b: Busy, r: Request): Busy {
    match r
    case Initiate(enabled) => b.(sweep := b.sweep || enabled, recording := b.recording || b.setUp)
    case InitiateImmediate(enabled) => b.(sweep := b.sweep || enabled)
    case AbortAll => Busy(false, false, b.setUp && !b.recording)
    case ConfigureEvents(_, _, mask) => b.(setUp := mask != {})
    case _ => b
  }

  /** The request blocks input: *OPC?, *WAI and `SENS:DATA?` during a sweep, a fetch of
      events during a recording. */
  predicate Waits(b: Busy, r: Request) {
    match r
    case OpcQuery => b.sweep
    case Wait => b.sweep
    case DataQuery => b.sweep
    case FetchEvents => b.recording
    case _ => false
  }

  /** What a whole line does: what is under way after it, whether it blocks input, leaves a
      *OPC? unanswered, sleeps or quits, the answers it gives to *OPC?, and the unblock
      events of its aborts. */
  datatype Outcome = Outcome(busy: Busy, blocks: bool, asks: bool, sleeps: bool, quits: bool, answers: nat, aborted: nat)

  function OutcomeOf(b: Busy, rs: seq<Request>): Outcome
    decreases |rs|
  {
    if rs == [] then Outcome(b, false, false, false, false, 0, 0) else
      var o := OutcomeOf(BusyAfter(b, rs[0]), rs[1..]);
      Outcome(o.busy,
              Waits(b, rs[0]) || o.blocks,
              (rs[0] == OpcQuery && b.sweep) || o.asks,
              rs[0] == Sleep || o.sleeps,
              rs[0] == Quit || o.quits,
              (if rs[0] == OpcQuery && !b.sweep then 1 else 0) + o.answers,
              (if rs[0] == AbortAll then (if b.sweep then 1 else 0) + (if b.recording then 1 else 0) else 0) + o.aborted)
  }

  function Unblocks(n: nat): seq<Queued> { seq(n, _ => UNBLOCK) }

  /** The state a line with this outcome leaves. */
  predicate Leaves(s: State, o: Outcome, s': State) {
    && BusyOf(s') == o.busy
    && s'.gate.blocked == (s.gate.blocked || o.blocks) && s'.gate.opcq == (s.gate.opcq || o.asks)
    && s'.gate.sleeping == (s.gate.sleeping || o.sleeps) && s'.quit == (s.quit || o.quits)
    && s'.done.answers == s.done.answers + o.answers && s'.done.lines == s.done.lines
    && s'.queue == s.queue + Unblocks(o.aborted) && s'.input == s.input
  }

  function OneOutcome(b: Busy, r: Request): Outcome {
    Outcome(BusyAfter(b, r), Waits(b, r), r == OpcQuery && b.sweep, r == Sleep, r == Quit,
            if r == OpcQuery && !b.sweep then 1 else 0,
            if r == AbortAll then (if b.sweep then 1 else 0) + (if b.recording then 1 else 0) else 0)
  }

  lemma AbortOutcome(s: State)
    requires Perform(s, AbortAll).Some?
    ensures Flags(s) ==> Leaves(s, OneOutcome(BusyOf(s), AbortAll), Perform(s, AbortAll).value)
  {
    assert Unblocks(0) == [] && Unblocks(1) == [UNBLOCK] && Unblocks(2) == [UNBLOCK, UNBLOCK];
    assert s.queue + [] == s.queue && s.queue + [UNBLOCK] + [UNBLOCK] == s.queue + [UNBLOCK, UNBLOCK];
  }

  lemma StartOutcome(s: State, r: Request)
    requires Flags(s) && (r.Initiate? || r.InitiateImmediate?)
    ensures Leaves(s, OneOutcome(BusyOf(s), r), Perform(s, r).value)
  {
    NothingQueued(s);
    hide Unblocks;
  }

  lemma WaitOutcome(s: State, r: Request)
    requires Flags(s) && (r.OpcQuery? || r.Wait? || r.DataQuery? || r.FetchEvents?) && Perform(s, r).Some?
    ensures Leaves(s, OneOutcome(BusyOf(s), r), Perform(s, r).value)
  {
    NothingQueued(s);
    hide Unblocks;
  }

  lemma OtherOutcome(s: State, r: Request)
    requires Flags(s) && (r.ConfigureEvents? || r.Sleep? || r.Quit? || r.Unrelated?) && Perform(s, r).Some?
    ensures Leaves(s, OneOutcome(BusyOf(s), r), Perform(s, r).value)
  {
    NothingQueued(s);
    hide Unblocks;
  }

  lemma NothingQueued(s: State)
    ensures s.queue + Unblocks(0) == s.queue
  {
  }

  lemma RequestOutcome(s: State, r: Request)
    requires Flags(s) && Perform(s, r).Some?
    ensures Leaves(s, OneOutcome(BusyOf(s), r), Perform(s, r).value)
  {
    hide Perform, Flags, Leaves, OneOutcome, BusyOf;
    match r
    case AbortAll => AbortOutcome(s);
    case Initiate(_) => StartOutcome(s, r);
    case InitiateImmediate(_) => StartOutcome(s, r);
    case OpcQuery => WaitOutcome(s, r);
    case Wait => WaitOutcome(s, r);
    case DataQuery => WaitOutcome(s, r);
    case FetchEvents => WaitOutcome(s, r);
    case _ => OtherOutcome(s, r);
  }

  lemma LeavesThen(s: State, s1: State, s2: State, r: Request, rs: seq<Request>)
    requires rs != [] && rs[0] == r && Leaves(s, OneOutcome(BusyOf(s), r), s1) && Leaves(s1, OutcomeOf(BusyOf(s1), rs[1..]), s2)
    ensures Leaves(s, OutcomeOf(BusyOf(s), rs), s2)
  {
    var x, y := OneOutcome(BusyOf(s), r), OutcomeOf(BusyOf(s1), rs[1..]);
    OutcomeStep(BusyOf(s), rs);
    QueuedTwice(s.queue, x.aborted, y.aborted);
    hide OneOutcome, OutcomeOf, BusyOf, Unblocks;
  }

  lemma QueuedTwice(q: seq<Queued>, x: nat, y: nat)
    ensures q + Unblocks(x) + Unblocks(y) == q + Unblocks(x + y)
  {
    assert Unblocks(x + y) == Unblocks(x) + Unblocks(y);
  }

  lemma OutcomeStep(b: Busy, rs: seq<Request>)
    requires rs != []
    ensures var x := OneOutcome(b, rs[0]); var y := OutcomeOf(x.busy, rs[1..]);
            OutcomeOf(b, rs) == Outcome(y.busy, x.blocks || y.blocks, x.asks || y.asks, x.sleeps || y.sleeps,
                                        x.quits || y.quits, x.answers + y.answers, x.aborted + y.aborted)
  {
    hide BusyAfter, Waits;
  }

  /** A line leaves what its requests mean, whatever they are. */
  lemma {:induction false} LineOutcome(s: State, rs: seq<Request>)
    requires Flags(s) && PerformAll(s, rs).Some?
    ensures Leaves(s, OutcomeOf(BusyOf(s), rs), PerformAll(s, rs).value)
    decreases |rs|
  {
    hide Perform, Flags, OutcomeOf, BusyOf, OneOutcome, Leaves;
    if rs == [] {
      NoOutcome(s);
    } else {
      var s1 := Perform(s, rs[0]).value;
      RequestOutcome(s, rs[0]);
      PerformKeepsFlags(s, rs[0]);
      LineOutcome(s1, rs[1..]);
      LeavesThen(s, s1, PerformAll(s, rs).value, rs[0], rs);
    }
  }

  lemma NoOutcome(s: State)
    ensures Leaves(s, OutcomeOf(BusyOf(s), []), s)
  {
    assert Unblocks(0) == [] && s.queue + [] == s.queue;
  }

  /** During a sweep, with no abort: a *OPC? waits, and nothing is answered. */
  lemma {:induction false} AsksDuringSweep(b: Busy, rs: seq<Request>)
    requires b.sweep && AbortAll !in rs
    ensures var o := OutcomeOf(b, rs);
            && o.answers == 0 && o.aborted == 0 && o.busy.sweep
            && (o.asks <==> OpcQuery in rs)
            && (OpcQuery in rs || Wait in rs || DataQuery in rs ==> o.blocks)
    decreases |rs|
  {
    if rs != [] {
      assert rs == [rs[0]] + rs[1..];
      AsksDuringSweep(BusyAfter(b, rs[0]), rs[1..]);
    }
  }

  function Count(rs: seq<Request>, r: Request): nat {
    if rs == [] then 0 else (if rs[0] == r then 1 else 0) + Count(rs[1..], r)
  }

  predicate StartsSweep(r: Request) { (r.Initiate? || r.InitiateImmediate?) && r.enabled }

  /** With no sweep, running or started: every *OPC? is answered at once. */
  lemma {:induction false} AnswersWhenIdle(b: Busy, rs: seq<Request>)
    requires !b.sweep && forall r :: r in rs ==> !StartsSweep(r)
    ensures var o := OutcomeOf(b, rs); o.answers == Count(rs, OpcQuery) && !o.asks && !o.busy.sweep
    decreases |rs|
  {
    if rs != [] {
      assert rs[0] in rs && forall r :: r in rs[1..] ==> r in rs;
      AnswersWhenIdle(BusyAfter(b, rs[0]), rs[1..]);
    }
  }

  /** `INIT:IMM;*OPC?` from idle waits. */
  lemma StartThenAsk(b: Busy)
    ensures var o := OutcomeOf(b, [InitiateImmediate(true), OpcQuery]); o.blocks && o.asks && o.answers == 0 && o.aborted == 0
  {
    var rs := [InitiateImmediate(true), OpcQuery];
    assert rs[1..] == [OpcQuery] && rs[1..][1..] == [];
  }

  lemma {:induction false} QuitsIff(b: Busy, rs: seq<Request>)
    ensures OutcomeOf(b, rs).quits <==> Quit in rs
    decreases |rs|
  {
    if rs != [] {
      assert rs == [rs[0]] + rs[1..];
      QuitsIff(BusyAfter(b, rs[0]), rs[1..]);
    }
  }

  // One line, run by its event

  lemma InUnblocks(q: seq<Queued>, n: nat)
    ensures UNBLOCK in q + Unblocks(n) <==> UNBLOCK in q || n > 0
  {
    if n > 0 { assert Unblocks(n)[0] == UNBLOCK; }
  }

  /** The event at the head of the queue runs a line: that line, and what its requests mean. */
  lemma LineRuns(s: State, more: seq<Queued>, meaning: string -> seq<Request>)
    requires Inv(s) && Enabled(s, Handle(more)) && RunsLine(s, Handle(more)).Some? && Step(s, Handle(more), meaning).Some?
    ensures var line := RunsLine(s, Handle(more)).value; var o := OutcomeOf(BusyOf(s), meaning(line));
            var s' := Step(s, Handle(more), meaning).value;
            && s'.done.lines == s.done.lines + [line] && s'.done.answers == s.done.answers + o.answers
            && s'.gate.blocked == o.blocks && s'.gate.opcq == o.asks && s'.gate.sleeping == o.sleeps
            && BusyOf(s') == o.busy && s'.quit == (s.quit || o.quits)
            && (UNBLOCK in s'.queue <==> UNBLOCK in s.queue || o.aborted > 0)
  {
    var line := RunsLine(s, Handle(more)).value;
    var start := LineStart(s, line);
    var o := OutcomeOf(BusyOf(s), meaning(line));
    assert s.queue == [PROCESS_LINE] + start.queue;
    LineStepIs(s, more, meaning);
    LineOutcome(start, meaning(line));
    InUnblocks(start.queue, o.aborted);
    hide OutcomeOf, Step, Unblocks;
  }

  /** What the step is, in terms of the line's requests. */
  lemma LineStepIs(s: State, more: seq<Queued>, meaning: string -> seq<Request>)
    requires Inv(s) && Enabled(s, Handle(more)) && RunsLine(s, Handle(more)).Some?
    ensures var line := RunsLine(s, Handle(more)).value;
            var r, r' := PerformAll(LineStart(s, line), meaning(line)), Step(s, Handle(more), meaning);
            && (r'.Some? <==> r.Some?)
            && (r'.Some? ==>
                  && r'.value.gate == r.value.gate && r'.value.done == r.value.done && r'.value.acq == r.value.acq
                  && r'.value.quit == r.value.quit
                  && (UNBLOCK in r'.value.queue <==> UNBLOCK in r.value.queue))
  {
    hide PerformAll, Eol;
  }

  /** Whatever answers or runs a line, and the end of input, queues a flush. */
  lemma AnswersAreFlushed(s: State, a: Action, meaning: string -> seq<Request>)
    requires Inv(s) && Enabled(s, a) && Step(s, a, meaning).Some?
    ensures Step(s, a, meaning).value.done != s.done || EndsInput(s, a) ==> OUTPUT_FLUSH in Step(s, a, meaning).value.queue
  {
    hide PerformAll, Eol;
    if a.Occurs? {
      EventKeeps(s, a.channel, a.data);
      hide RecordEvent;
    } else if a.Handle? {
      HandlerFlushes(s, a.more, meaning);
      hide Step;
    }
  }

  lemma HandlerFlushes(s: State, more: seq<Queued>, meaning: string -> seq<Request>)
    requires Inv(s) && Enabled(s, Handle(more)) && Step(s, Handle(more), meaning).Some?
    ensures var s' := Step(s, Handle(more), meaning).value;
            s'.done != s.done || EndsInput(s, Handle(more)) ==> OUTPUT_FLUSH in s'.queue
  {
    hide PerformAll, Eol;
  }

  // Waits over whole runs

  /** A capture ends, or an event fills the recorder. */
  predicate Finishes(s: State, a: Action) {
    a.CaptureEnds? || (a.Occurs? && a.channel in s.acq.rec.mask && |s.acq.rec.records| + 1 == s.acq.rec.max)
  }

  /** No capture ends and no recording fills. */
  predicate Unfinished(s: State, run: seq<Action>, meaning: string -> seq<Request>)
    requires Inv(s)
    decreases |run|
  {
    run == [] ||
    (!Finishes(s, run[0])
     && (Enabled(s, run[0]) && Step(s, run[0], meaning).Some? ==>
           (StepKeepsInv(s, run[0], meaning); Unfinished(Step(s, run[0], meaning).value, run[1..], meaning))))
  }

  /** Input is blocked and nothing has queued its release. */
  predicate Held(s: State) { s.gate.blocked && UNBLOCK !in s.queue }

  lemma HeldStep(s: State, a: Action, meaning: string -> seq<Request>)
    requires Inv(s) && Held(s) && !Finishes(s, a) && Enabled(s, a) && Step(s, a, meaning).Some?
    ensures var s' := Step(s, a, meaning).value;
            Held(s') && s'.gate.opcq == s.gate.opcq && s'.done == s.done && s'.acq.sweep == s.acq.sweep
  {
    hide CliLine;
    if a.Handle? {
      assert s.queue == [s.queue[0]] + s.queue[1..];
    } else if a.Occurs? {
      UnfilledStep(s, a.channel, a.data);
      hide RecordEvent;
    }
  }

  lemma UnfilledStep(s: State, channel: nat, data: nat)
    requires !Finishes(s, Occurs(channel, data)) && RecordEvent(s, channel, data).Some?
    ensures RecordEvent(s, channel, data).value.queue == s.queue
    ensures var s' := RecordEvent(s, channel, data).value;
            s'.gate == s.gate && s'.done == s.done && s'.acq.sweep == s.acq.sweep
  {
    EventKeeps(s, channel, data);
  }

  /** While nothing finishes, whatever else happens: nothing is answered, no line runs, and
      input stays blocked. */
  lemma {:induction false} HeldThroughout(s: State, run: seq<Action>, meaning: string -> seq<Request>)
    requires Inv(s) && Held(s) && Unfinished(s, run, meaning) && Run(s, run, meaning).Some?
    ensures var s' := Run(s, run, meaning).value;
            Held(s') && s'.gate.opcq == s.gate.opcq && s'.done == s.done && s'.acq.sweep == s.acq.sweep
    decreases |run|
  {
    hide Step, Held, Finishes;
    if run != [] {
      HeldStep(s, run[0], meaning);
      StepKeepsInv(s, run[0], meaning);
      HeldThroughout(Step(s, run[0], meaning).value, run[1..], meaning);
    }
  }

  /** What finishes queues the release, and is no longer under way. */
  lemma FinishQueues(s: State, a: Action, meaning: string -> seq<Request>)
    requires Inv(s) && Finishes(s, a) && Step(s, a, meaning).Some?
    ensures var s' := Step(s, a, meaning).value;
            && UNBLOCK in s'.queue && s'.gate == s.gate && s'.done == s.done
            && (if a.CaptureEnds? then !s'.acq.sweep && !s'.acq.overlapped && s'.acq.recording == s.acq.recording
                else !s'.acq.recording && s'.acq.rec.mask == {} && s'.acq.sweep == s.acq.sweep)
  {
  }

  /** A line that blocks, with no release queued: over every run in which nothing finishes,
      it is the last line to run, and a *OPC? that waits stays unanswered. */
  lemma LineWaits(s: State, more: seq<Queued>, run: seq<Action>, meaning: string -> seq<Request>)
    requires Inv(s) && Enabled(s, Handle(more)) && RunsLine(s, Handle(more)).Some? && UNBLOCK !in s.queue
    requires Step(s, Handle(more), meaning).Some? && Inv(Step(s, Handle(more), meaning).value)
    requires var s1 := Step(s, Handle(more), meaning).value; Unfinished(s1, run, meaning) && Run(s1, run, meaning).Some?
    requires var o := OutcomeOf(BusyOf(s), meaning(RunsLine(s, Handle(more)).value)); o.blocks && o.aborted == 0
    ensures var line := RunsLine(s, Handle(more)).value; var o := OutcomeOf(BusyOf(s), meaning(line));
            var s2 := Run(Step(s, Handle(more), meaning).value, run, meaning).value;
            && Held(s2) && s2.gate.opcq == o.asks
            && s2.done.lines == s.done.lines + [line] && s2.done.answers == s.done.answers + o.answers
  {
    LineRuns(s, more, meaning);
    hide Step, OutcomeOf, Run;
    HeldThroughout(Step(s, Handle(more), meaning).value, run, meaning);
  }

  /** *OPC? during a sweep: over every run in which no capture ends and no recording fills
      there is no answer and no further line; then the first unblock event gives exactly one
      answer and releases the input. */
  lemma OpcqAnswersOnce(s: State, more: seq<Queued>, run: seq<Action>, finish: Action, drain: seq<Action>, last: Action,
                        meaning: string -> seq<Request>)
    requires Inv(s) && Enabled(s, Handle(more)) && RunsLine(s, Handle(more)).Some? && UNBLOCK !in s.queue && s.acq.sweep
    requires var rs := meaning(RunsLine(s, Handle(more)).value); OpcQuery in rs && AbortAll !in rs
    requires Step(s, Handle(more), meaning).Some? && Inv(Step(s, Handle(more), meaning).value)
    requires var s1 := Step(s, Handle(more), meaning).value; Unfinished(s1, run, meaning) && Run(s1, run, meaning).Some?
    requires var s2 := Run(Step(s, Handle(more), meaning).value, run, meaning).value;
             Finishes(s2, finish) && Enabled(s2, finish) && Step(s2, finish, meaning).Some?
    ensures var line := RunsLine(s, Handle(more)).value;
            var s2 := Run(Step(s, Handle(more), meaning).value, run, meaning).value;
            var s3 := Step(s2, finish, meaning).value;
            && s2.done.answers == s.done.answers && s2.done.lines == s.done.lines + [line] && s2.gate.blocked
            && Inv(s3) && UNBLOCK in s3.queue
            && (Handled(drain) == Ahead(s3.queue) && Run(s3, drain, meaning).Some? && last.Handle?
                && Enabled(Run(s3, drain, meaning).value, last) ==>
                  var r := Step(Run(s3, drain, meaning).value, last, meaning);
                  r.Some? ==> r.value.done.answers == s.done.answers + 1 && r.value.done.lines == s.done.lines + [line]
                              && !r.value.gate.blocked)
  {
    hide Step, OutcomeOf, Run, Ahead;
    AsksDuringSweep(BusyOf(s), meaning(RunsLine(s, Handle(more)).value));
    LineWaits(s, more, run, meaning);
    var s2 := Run(Step(s, Handle(more), meaning).value, run, meaning).value;
    FinishQueues(s2, finish, meaning);
    StepKeepsInv(s2, finish, meaning);
    var s3 := Step(s2, finish, meaning).value;
    if Handled(drain) == Ahead(s3.queue) && Run(s3, drain, meaning).Some? && last.Handle?
       && Enabled(Run(s3, drain, meaning).value, last) && Step(Run(s3, drain, meaning).value, last, meaning).Some? {
      BoundedUnblocking(s3, drain, last, meaning);
    }
  }

  // Sleeping

  lemma SleepStep(s: State, a: Action, meaning: string -> seq<Request>)
    requires Inv(s) && s.gate.sleeping && a != Alarm && Enabled(s, a) && Step(s, a, meaning).Some?
    ensures Step(s, a, meaning).value.gate.sleeping && Step(s, a, meaning).value.done.lines == s.done.lines
  {
    hide CliLine;
    if a.Occurs? {
      EventKeeps(s, a.channel, a.data);
      hide RecordEvent;
    }
  }

  /** Until the alarm no line runs. */
  lemma {:induction false} SleepHolds(s: State, run: seq<Action>, meaning: string -> seq<Request>)
    requires Inv(s) && s.gate.sleeping && Alarm !in run && Run(s, run, meaning).Some?
    ensures Run(s, run, meaning).value.gate.sleeping && Run(s, run, meaning).value.done.lines == s.done.lines
    decreases |run|
  {
    hide Step;
    if run != [] {
      assert run[0] in run && forall a :: a in run[1..] ==> a in run;
      SleepStep(s, run[0], meaning);
      StepKeepsInv(s, run[0], meaning);
      SleepHolds(Step(s, run[0], meaning).value, run[1..], meaning);
    }
  }

  /** The alarm ends the sleep and changes nothing else. */
  lemma AlarmWakes(s: State, meaning: string -> seq<Request>)
    requires Inv(s)
    ensures var r := Step(s, Alarm, meaning);
            r.Some? && !r.value.gate.sleeping && r.value.(gate := s.gate) == s && r.value.gate.blocked == s.gate.blocked
  {
  }

  // Dispatch

  /** The line a text starts with, unless it is unfinished or empty. */
  function FirstLine(t: string): seq<string> { if Eol(t) < |t| then NonEmpty(t[..Eol(t)]) else [] }

  /** With a line held and input free: its event is k steps ahead; a handler step brings it
      one nearer, other actions leave it, and nothing runs. */
  lemma DispatchWaits(s: State, a: Action, meaning: string -> seq<Request>)
    requires Inv(s) && !Blocked(s) && s.input.line.Some? && PROCESS_LINE in s.queue && Enabled(s, a) && Step(s, a, meaning).Some?
    requires !(a.Handle? && s.queue[0] == PROCESS_LINE)
    ensures var s' := Step(s, a, meaning).value; var k := Ahead(s.queue, PROCESS_LINE);
            && !Blocked(s') && s'.input == s.input && s'.done.lines == s.done.lines && PROCESS_LINE in s'.queue
            && Ahead(s'.queue, PROCESS_LINE) == if a.Handle? then k - 1 else k
  {
    hide Ahead;
    var s', k := Step(s, a, meaning).value, Ahead(s.queue, PROCESS_LINE);
    FreeStep(s, a, meaning);
    hide Step;
    if a.Handle? {
      assert k > 0;
      assert s'.queue[k - 1] == s.queue[k] && s'.queue[..k - 1] == s.queue[..k][1..];
      AheadIsFirst(s'.queue, k - 1, PROCESS_LINE);
    } else {
      assert s'.queue[..k] == s.queue[..k];
      AheadIsFirst(s'.queue, k, PROCESS_LINE);
    }
  }

  lemma FreeStep(s: State, a: Action, meaning: string -> seq<Request>)
    requires Inv(s) && !Blocked(s) && s.input.line.Some? && Enabled(s, a) && Step(s, a, meaning).Some?
    requires !(a.Handle? && s.queue[0] == PROCESS_LINE)
    ensures var s' := Step(s, a, meaning).value;
            && !Blocked(s') && s'.input == s.input && s'.done.lines == s.done.lines
            && (if a.Handle? then s.queue[1..] <= s'.queue else s.queue <= s'.queue)
  {
    hide CliLine;
    if a.Occurs? {
      EventKeeps(s, a.channel, a.data);
      hide RecordEvent;
    }
  }

  /** A held line that nothing blocks runs within as many handler steps as its event is
      away, whatever else happens; and only its first line. */
  lemma {:induction false} BoundedDispatch(s: State, run: seq<Action>, last: Action, meaning: string -> seq<Request>)
    requires Inv(s) && !Blocked(s) && s.input.line.Some? && PROCESS_LINE in s.queue
    requires last.Handle? && Handled(run) == Ahead(s.queue, PROCESS_LINE) && Run(s, run, meaning).Some?
    requires var s1 := Run(s, run, meaning).value; Enabled(s1, last) && Step(s1, last, meaning).Some?
    ensures Run(s, run, meaning).value.done.lines == s.done.lines
    ensures var s2 := Step(Run(s, run, meaning).value, last, meaning).value;
            s2.done.lines == s.done.lines + FirstLine(s.input.line.value) && (s.input.line.value == "\0" ==> s2.quit)
    decreases |run|
  {
    hide Step, FirstLine;
    if run == [] {
      DispatchRuns(s, last.more, meaning);
    } else {
      assert run[0].Handle? ==> s.queue[0] != PROCESS_LINE;
      DispatchWaits(s, run[0], meaning);
      StepKeepsInv(s, run[0], meaning);
      BoundedDispatch(Step(s, run[0], meaning).value, run[1..], last, meaning);
    }
  }

  lemma DispatchRuns(s: State, more: seq<Queued>, meaning: string -> seq<Request>)
    requires Inv(s) && !Blocked(s) && s.input.line.Some? && Enabled(s, Handle(more)) && s.queue[0] == PROCESS_LINE
    requires Step(s, Handle(more), meaning).Some?
    ensures var s' := Step(s, Handle(more), meaning).value;
            s'.done.lines == s.done.lines + FirstLine(s.input.line.value) && (s.input.line.value == "\0" ==> s'.quit)
  {
    assert Eol("\0") == 1;
    if RunsLine(s, Handle(more)).Some? {
      LineRuns(s, more, meaning);
    } else {
      assert s.done.lines + [] == s.done.lines;
    }
  }

  /** The end of input holds its mark, with an event to dispatch it; so the server quits. */
  lemma EndOfInputIsHeld(s: State, meaning: string -> seq<Request>)
    requires Inv(s) && Enabled(s, EndOfInput)
    ensures var r := Step(s, EndOfInput, meaning);
            && r.Some? && Inv(r.value) && !Blocked(r.value) && r.value.input.line == Receive.Some("\0")
            && PROCESS_LINE in r.value.queue && r.value.done == s.done
  {
    StepKeepsInv(s, EndOfInput, meaning);
  }

  // Quitting

  /** The end of input is reached: its mark is the held line. */
  predicate EndsInput(s: State, a: Action) {
    && a.Handle? && s.queue != [] && s.queue[0] == PROCESS_LINE && s.input.line.Some? && !Blocked(s)
    && s.input.line.value != "" && Eol(s.input.line.value) == |s.input.line.value| && s.input.line.value[0] == '\0'
  }

  /** The server is asked to quit exactly by the end of input or by a line that says so. */
  lemma QuitExactly(s: State, a: Action, meaning: string -> seq<Request>)
    requires Inv(s) && Enabled(s, a) && Step(s, a, meaning).Some?
    ensures Step(s, a, meaning).value.quit
       <==> s.quit || EndsInput(s, a) || (RunsLine(s, a).Some? && Quit in meaning(RunsLine(s, a).value))
  {
    if RunsLine(s, a).Some? {
      LineRuns(s, a.more, meaning);
      QuitsIff(BusyOf(s), meaning(RunsLine(s, a).value));
      hide Step, OutcomeOf;
    } else if a.Occurs? {
      EventKeeps(s, a.channel, a.data);
      hide RecordEvent;
    } else {
      hide PerformAll;
    }
  }
}
