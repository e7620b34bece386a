/** Line dispatch and wake-up over every run of the blocking protocol. */
module BlockingLaws {
  import Receive
  import opened Blocking

  // Lines are dispatched once, in order

  /** A line, unless it is empty. */
  function NonEmpty(line: string): seq<string> { if line == "" then [] else [line] }

  /** The non-empty complete lines of a text. */
  function Lines(t: string): seq<string>
    decreases |t|
  {
    var n := Eol(t);
    if n == |t| then [] else NonEmpty(t[..n]) + Lines(t[n + 1..])
  }

  function Remaining(s: State): seq<string> {
    if s.input.line.None? then [] else Lines(s.input.line.value)
  }

  /** Lines run so far, then lines still to run. */
  function Account(s: State): seq<string> { s.done.lines + Remaining(s) }

  function LinesRead(run: seq<Action>): seq<string> {
    if run == [] then [] else (if run[0].Read? then Lines(run[0].text) else []) + LinesRead(run[1..])
  }

  lemma {:induction false} PerformAllKeepsLines(s: State, rs: seq<Request>)
    requires PerformAll(s, rs).Some?
    ensures PerformAll(s, rs).value.done.lines == s.done.lines && PerformAll(s, rs).value.input == s.input
    decreases |rs|
  {
    if rs != [] { PerformAllKeepsLines(Perform(s, rs[0]).value, rs[1..]); }
  }

  lemma ExecuteKeepsLines(s: State, line: string, meaning: string -> seq<Request>)
    requires Execute(s, line, meaning).Some?
    ensures Execute(s, line, meaning).value.done.lines == s.done.lines + [line]
    ensures Execute(s, line, meaning).value.input == s.input
  {
    PerformAllKeepsLines(s.(done := s.done.(lines := s.done.lines + [line])), meaning(line));
    hide PerformAll;
  }

  lemma CliLineAccounts(s: State, t: string, meaning: string -> seq<Request>)
    requires t != "" && s.input.line == Receive.Some(t) && CliLine(s, t, meaning).Some?
    ensures Account(CliLine(s, t, meaning).value) == Account(s)
  {
    hide Execute, Lines, Eol, Tail;
    var n := Eol(t);
    if n < |t| {
      var rest := t[n + 1..];
      LinesStep(t);
      LinesOfNothing();
      if n > 0 {
        ExecuteKeepsLines(s, t[..n], meaning);
        assert s.done.lines + ([t[..n]] + Lines(rest)) == s.done.lines + [t[..n]] + Lines(rest);
      } else {
        assert NonEmpty(t[..n]) + Lines(rest) == Lines(rest);
      }
    } else {
      LinesOfUnfinished(t);
    }
  }

  lemma LinesStep(t: string)
    requires Eol(t) < |t|
    ensures Lines(t) == NonEmpty(t[..Eol(t)]) + Lines(t[Eol(t) + 1..]) && Tail(t) == Tail(t[Eol(t) + 1..])
  {
  }

  lemma LinesOfUnfinished(t: string)
    requires Eol(t) == |t|
    ensures Lines(t) == [] && Tail(t) == t
  {
  }

  lemma LinesOfNothing()
    ensures Lines("") == []
  {
  }

  lemma StepAccounts(s: State, a: Action, meaning: string -> seq<Request>)
    requires Inv(s) && Enabled(s, a) && Step(s, a, meaning).Some?
    ensures Account(Step(s, a, meaning).value) == Account(s) + if a.Read? then Lines(a.text) else []
  {
    hide CliLine, Perform, Lines;
    assert Account(s) + [] == Account(s);
    if a.Handle? && s.queue[0].PROCESS_LINE? && s.input.line.Some? && !Blocked(s) {
      CliLineAccounts(s.(queue := s.queue[1..]), s.input.line.value, meaning);
    } else if a.EndOfInput? {
      NoLines();
    }
  }

  lemma NoLines()
    ensures Lines("\0") == []
  {
  }

  /** However reads, blocking and device activity interleave: the lines run, then those
      still waiting, are the complete non-empty lines read, each once and in order. */
  lemma {:induction false} LinesInOrder(s: State, run: seq<Action>, meaning: string -> seq<Request>)
    requires Inv(s) && Run(s, run, meaning).Some?
    ensures Account(Run(s, run, meaning).value) == Account(s) + LinesRead(run)
    decreases |run|
  {
    hide Step, Account, Lines;
    if run == [] {
      assert Account(s) + [] == Account(s);
    } else {
      StepAccounts(s, run[0], meaning);
      StepKeepsInv(s, run[0], meaning);
      LinesInOrder(Step(s, run[0], meaning).value, run[1..], meaning);
      var now, rest := if run[0].Read? then Lines(run[0].text) else [], LinesRead(run[1..]);
      assert Account(s) + (now + rest) == Account(s) + now + rest;
    }
  }

  // What the reads must look like

  /** What follows the last line feed. */
  function Tail(t: string): (r: string)
    ensures '\n' !in r && |r| <= |t|
    decreases |t|
  {
    var n := Eol(t);
    if n == |t| then t else Tail(t[n + 1..])
  }

  function Stream(chunks: seq<string>): string {
    if chunks == [] then "" else chunks[0] + Stream(chunks[1..])
  }

  function LinesOfChunks(chunks: seq<string>): seq<string> {
    if chunks == [] then [] else Lines(chunks[0]) + LinesOfChunks(chunks[1..])
  }

  /** No chunk with a line feed comes after an unfinished line (`carry` is one so far). */
  predicate Unbroken(carry: string, chunks: seq<string>)
    decreases |chunks|
  {
    chunks == [] ||
    if '\n' in chunks[0] then carry == "" && Unbroken(Tail(chunks[0]), chunks[1..])
    else Unbroken(carry + chunks[0], chunks[1..])
  }

  lemma {:induction false} EolAppend(a: string, b: string)
    ensures Eol(a + b) == if Eol(a) < |a| then Eol(a) else |a| + Eol(b)
  {
    if a == "" {
      assert a + b == b;
    } else if a[0] != '\n' {
      assert (a + b)[1..] == a[1..] + b;
      EolAppend(a[1..], b);
    }
  }

  lemma {:induction false} LinesAppend(a: string, b: string)
    ensures Lines(a + b) == Lines(a) + Lines(Tail(a) + b)
    decreases |a|
  {
    hide Eol, Lines, Tail;
    EolAppend(a, b);
    var n := Eol(a);
    if n < |a| {
      var rest := a[n + 1..];
      assert (a + b)[..n] == a[..n] && (a + b)[n + 1..] == rest + b;
      LinesStep(a);
      LinesStep(a + b);
      LinesAppend(rest, b);
      var x, y, z := NonEmpty(a[..n]), Lines(rest), Lines(Tail(rest) + b);
      assert x + (y + z) == x + y + z;
    } else {
      LinesOfUnfinished(a);
      assert [] + Lines(a + b) == Lines(a + b);
    }
  }

  lemma {:induction false} EolOfPlain(t: string)
    requires '\n' !in t
    ensures Eol(t) == |t|
  {
    if t != "" { EolOfPlain(t[1..]); }
  }

  function Size(lines: seq<string>): nat {
    if lines == [] then 0 else |lines[0]| + Size(lines[1..])
  }

  lemma {:induction false} SizeAppend(a: seq<string>, b: seq<string>)
    ensures Size(a + b) == Size(a) + Size(b)
  {
    if a == [] {
      assert a + b == b;
    } else {
      assert (a + b)[1..] == a[1..] + b;
      SizeAppend(a[1..], b);
    }
  }

  /** The first line of a text and the rest. */
  lemma SizeStep(t: string)
    requires Eol(t) < |t|
    ensures Size(Lines(t)) == Eol(t) + Size(Lines(t[Eol(t) + 1..]))
  {
    hide Eol, Lines, Tail, NonEmpty, Size;
    LinesStep(t);
    SizeAppend(NonEmpty(t[..Eol(t)]), Lines(t[Eol(t) + 1..]));
    SizeOfLine(t[..Eol(t)]);
  }

  /** A carried beginning makes the first line longer by itself. */
  lemma CarryGrowsFirst(carry: string, t: string)
    requires '\n' !in carry && '\n' in t
    ensures Tail(carry + t) == Tail(t) && Size(Lines(carry + t)) == |carry| + Size(Lines(t))
  {
    hide Eol, Lines, Tail, NonEmpty, Size;
    EolOfPlain(carry);
    EolAppend(carry, t);
    EolFinds(t);
    var n, whole := Eol(t), carry + t;
    assert whole[|carry| + n + 1..] == t[n + 1..];
    LinesStep(t);
    LinesStep(whole);
    SizeStep(t);
    SizeStep(whole);
  }

  lemma SizeOfLine(line: string)
    ensures Size(NonEmpty(line)) == |line|
  {
  }

  lemma EolFinds(t: string)
    requires '\n' in t
    ensures Eol(t) < |t|
  {
  }

  lemma {:induction false} CarryCounts(carry: string, chunks: seq<string>)
    requires '\n' !in carry
    ensures Size(Lines(carry + Stream(chunks))) >= Size(LinesOfChunks(chunks)) + if '\n' in Stream(chunks) then |carry| else 0
    decreases |chunks|
  {
    hide Eol, Lines, Tail;
    if chunks == [] {
      assert carry + Stream(chunks) == carry;
      EolOfPlain(carry);
      LinesOfUnfinished(carry);
    } else {
      var x, rest := chunks[0], chunks[1..];
      assert carry + Stream(chunks) == carry + x + Stream(rest);
      SizeAppend(Lines(x), LinesOfChunks(rest));
      if '\n' in x {
        CarryGrowsFirst(carry, x);
        LinesAppend(carry + x, Stream(rest));
        SizeAppend(Lines(carry + x), Lines(Tail(x) + Stream(rest)));
        CarryCounts(Tail(x), rest);
      } else {
        EolOfPlain(x);
        LinesOfUnfinished(x);
        CarryCounts(carry + x, rest);
      }
    }
  }

  lemma SameFront(a: seq<string>, b: seq<string>, c: seq<string>)
    ensures a + b == a + c <==> b == c
  {
    assert (a + b)[|a|..] == b && (a + c)[|a|..] == c;
  }

  lemma {:induction false} ChunksCarry(carry: string, chunks: seq<string>)
    requires '\n' !in carry
    ensures Lines(carry + Stream(chunks)) == LinesOfChunks(chunks) <==> Unbroken(carry, chunks)
    decreases |chunks|
  {
    hide Eol, Lines, Tail;
    if chunks == [] {
      assert carry + Stream(chunks) == carry;
      EolOfPlain(carry);
      LinesOfUnfinished(carry);
    } else {
      var x, rest := chunks[0], chunks[1..];
      assert carry + Stream(chunks) == carry + x + Stream(rest);
      if '\n' !in x {
        EolOfPlain(x);
        LinesOfUnfinished(x);
        assert [] + LinesOfChunks(rest) == LinesOfChunks(rest);
        ChunksCarry(carry + x, rest);
      } else if carry == "" {
        assert carry + x == x;
        LinesAppend(x, Stream(rest));
        ChunksCarry(Tail(x), rest);
        SameFront(Lines(x), Lines(Tail(x) + Stream(rest)), LinesOfChunks(rest));
      } else {
        CarryCounts(carry, chunks);
        assert '\n' in Stream(chunks);
      }
    }
  }

  /** Running each read's complete lines is running the lines of the whole input exactly
      when no read leaves an unfinished line that a later one would have finished. */
  lemma LinesIgnoreChunks(chunks: seq<string>)
    ensures Lines(Stream(chunks)) == LinesOfChunks(chunks) <==> Unbroken("", chunks)
  {
    assert "" + Stream(chunks) == Stream(chunks);
    ChunksCarry("", chunks);
  }

  // Wake-up

  predicate HasRoom(rec: Receive.Recorder) { |rec.records| < rec.max }

  /** The recorder can still fill: there is room, and the inputs are selected, whose changes
      the device always reports, or the interrupt is and the device is armed for it. */
  predicate Live(acq: Acquisition) {
    HasRoom(acq.rec)
    && (Receive.DIGITAL_DATA_CHANNEL in acq.rec.mask || (Receive.INTERRUPT_CHANNEL in acq.rec.mask && acq.armed))
  }

  predicate Healthy(s: State) { s.acq.recording ==> Live(s.acq) }

  /** Recording is started, or its set-up replaced while it runs, only for a recorder
      that can fill; starting arms the device, replacing does not. */
  predicate Usable(s: State, r: Request) {
    match r
    case Initiate(_) => s.acq.rec.mask == {} || (Receive.Selects(s.acq.rec.mask) && HasRoom(s.acq.rec))
    case ConfigureEvents(_, count, mask) =>
      s.acq.recording ==> count > 0 && (Receive.DIGITAL_DATA_CHANNEL in mask || (Receive.INTERRUPT_CHANNEL in mask && s.acq.armed))
    case _ => true
  }

  /** A request keeps recording healthy exactly when it is usable. */
  lemma RequestKeepsHealth(s: State, r: Request)
    requires Healthy(s) && Perform(s, r).Some?
    ensures Healthy(Perform(s, r).value) <==> Usable(s, r)
  {
    hide SweepDone, RecordingDone;
    if r.AbortAll? { AbortKeepsHealth(s); }
  }

  lemma AbortKeepsHealth(s: State)
    requires Healthy(s) && Perform(s, AbortAll).Some?
    ensures Healthy(Perform(s, AbortAll).value)
  {
    hide Live;
  }

  /** All requests of a line are usable where they happen. */
  predicate UsableLine(s: State, rs: seq<Request>)
    decreases |rs|
  {
    rs == [] || (Usable(s, rs[0]) && (Perform(s, rs[0]).Some? ==> UsableLine(Perform(s, rs[0]).value, rs[1..])))
  }

  lemma {:induction false} LineKeepsHealth(s: State, rs: seq<Request>)
    requires Healthy(s) && UsableLine(s, rs) && PerformAll(s, rs).Some?
    ensures Healthy(PerformAll(s, rs).value)
    decreases |rs|
  {
    hide Perform, Healthy, Usable;
    if rs != [] {
      RequestKeepsHealth(s, rs[0]);
      LineKeepsHealth(Perform(s, rs[0]).value, rs[1..]);
    }
  }

  /** What the device reports as an event: an interrupt as 256, the inputs as a byte. */
  predicate FromDevice(a: Action) {
    a.Occurs? ==> (a.channel == Receive.INTERRUPT_CHANNEL && a.data == Receive.DIGITAL_EVENT_INTERRUPT)
                  || (a.channel == Receive.DIGITAL_DATA_CHANNEL && a.data < 256)
  }

  /** The line a step runs, if it runs one. */
  function RunsLine(s: State, a: Action): Receive.Option<string> {
    if a.Handle? && s.queue != [] && s.queue[0] == PROCESS_LINE && s.input.line.Some? && !Blocked(s)
       && 0 < Eol(s.input.line.value) < |s.input.line.value|
    then Receive.Some(s.input.line.value[..Eol(s.input.line.value)])
    else Receive.None
  }

  /** The state a line starts in. */
  function LineStart(s: State, line: string): State
    requires s.queue != []
  {
    s.(queue := s.queue[1..], done := s.done.(lines := s.done.lines + [line]))
  }

  predicate UsableStep(s: State, a: Action, meaning: string -> seq<Request>) {
    FromDevice(a)
    && (RunsLine(s, a).Some? ==> UsableLine(LineStart(s, RunsLine(s, a).value), meaning(RunsLine(s, a).value)))
  }

  lemma StepKeepsHealth(s: State, a: Action, meaning: string -> seq<Request>)
    requires Inv(s) && Healthy(s) && Enabled(s, a) && UsableStep(s, a, meaning) && Step(s, a, meaning).Some?
    ensures Healthy(Step(s, a, meaning).value)
  {
    hide CliLine, Eol, UsableLine, Quiet;
    if a.Handle? && s.queue[0] == PROCESS_LINE && s.input.line.Some? && !Blocked(s) {
      LineStepKeepsHealth(s, a, meaning);
    }
  }

  lemma LineStepKeepsHealth(s: State, a: Action, meaning: string -> seq<Request>)
    requires Healthy(s) && a.Handle? && s.queue != [] && s.queue[0] == PROCESS_LINE && s.input.line.Some? && !Blocked(s)
    requires s.input.line.value != "" && UsableStep(s, a, meaning)
    ensures var r := CliLine(s.(queue := s.queue[1..]), s.input.line.value, meaning); r.Some? ==> Healthy(r.value)
  {
    hide PerformAll, UsableLine, Eol;
    var line := RunsLine(s, a);
    if line.Some? {
      var start := LineStart(s, line.value);
      if PerformAll(start, meaning(line.value)).Some? {
        LineKeepsHealth(start, meaning(line.value));
      }
    }
  }

  /** Every line that runs asks for recording only as it can be finished. */
  predicate UsableRun(s: State, run: seq<Action>, meaning: string -> seq<Request>)
    requires Inv(s)
    decreases |run|
  {
    run == [] ||
    (UsableStep(s, run[0], meaning)
     && (Enabled(s, run[0]) && Step(s, run[0], meaning).Some? ==>
           (StepKeepsInv(s, run[0], meaning); UsableRun(Step(s, run[0], meaning).value, run[1..], meaning))))
  }

  /** Then recording is healthy in every state the run reaches. */
  lemma {:induction false} RunKeepsHealth(s: State, run: seq<Action>, meaning: string -> seq<Request>)
    requires Inv(s) && Healthy(s) && UsableRun(s, run, meaning) && Run(s, run, meaning).Some?
    ensures Healthy(Run(s, run, meaning).value)
    decreases |run|
  {
    hide Step, Healthy, UsableStep;
    if run != [] {
      StepKeepsInv(s, run[0], meaning);
      StepKeepsHealth(s, run[0], meaning);
      RunKeepsHealth(Step(s, run[0], meaning).value, run[1..], meaning);
    }
  }

  function Handles(n: nat): seq<Action> { seq(n, i => Handle([])) }

  /** What the device can do next: report a capture only of a running sweep, and an
      interrupt only while armed. */
  predicate Allowed(s: State, a: Action) {
    && FromDevice(a) && (a.CaptureEnds? ==> s.acq.sweep)
    && (a.Occurs? && a.channel == Receive.INTERRUPT_CHANNEL ==> s.acq.armed)
  }

  /** A run the device can take part in. */
  predicate DeviceKeeps(s: State, run: seq<Action>, meaning: string -> seq<Request>)
    requires Inv(s)
    decreases |run|
  {
    run == [] ||
    (Allowed(s, run[0])
     && (Enabled(s, run[0]) && Step(s, run[0], meaning).Some? ==>
           (StepKeepsInv(s, run[0], meaning); DeviceKeeps(Step(s, run[0], meaning).value, run[1..], meaning))))
  }

  /** A run that the device can take part in and that releases the input. */
  predicate Releases(s: State, run: seq<Action>, meaning: string -> seq<Request>)
    requires Inv(s)
  {
    var r := Run(s, run, meaning);
    r.Some? && !r.value.gate.blocked && DeviceKeeps(s, run, meaning)
  }

  lemma RunOne(s: State, a: Action, run: seq<Action>, meaning: string -> seq<Request>)
    requires Inv(s) && Enabled(s, a) && Step(s, a, meaning).Some?
    ensures var s1 := Step(s, a, meaning).value;
            && Inv(s1) && Run(s, [a] + run, meaning) == Run(s1, run, meaning)
            && (Releases(s, [a] + run, meaning) <==> Allowed(s, a) && Releases(s1, run, meaning))
  {
    StepKeepsInv(s, a, meaning);
    assert ([a] + run)[1..] == run;
    hide Step, Inv, Enabled, Allowed;
  }

  lemma {:induction false} DrainUnblocks(s: State, meaning: string -> seq<Request>)
    requires Inv(s) && s.gate.blocked && UNBLOCK in s.queue
    ensures Releases(s, Handles(Ahead(s.queue) + 1), meaning)
    decreases Ahead(s.queue)
  {
    hide Step;
    var k := Ahead(s.queue);
    BlockedHandler(s, [], meaning);
    BlockedStep(s, Handle([]), meaning);
    assert Handles(k + 1) == [Handle([])] + Handles(k);
    RunOne(s, Handle([]), Handles(k), meaning);
    if k > 0 {
      DrainUnblocks(Step(s, Handle([]), meaning).value, meaning);
    }
  }

  /** An event of a recorder that can fill leaves one that can, or an unblock event. */
  lemma EventStep(s: State, channel: nat, data: nat, meaning: string -> seq<Request>)
    requires Inv(s) && s.gate.blocked && s.acq.recording && channel in s.acq.rec.mask && HasRoom(s.acq.rec)
    requires Allowed(s, Occurs(channel, data))
    ensures var r := Step(s, Occurs(channel, data), meaning);
            && r.Some? && r.value.gate.blocked
            && (UNBLOCK in r.value.queue
                || (r.value.acq.recording && r.value.acq.rec == s.acq.rec.(records := s.acq.rec.records + [data])
                    && HasRoom(r.value.acq.rec) && Allowed(r.value, Occurs(channel, data))))
  {
  }

  /** Enough events on a selected channel finish the recording, then the queue drains. */
  lemma {:induction false} EventsUnblock(s: State, channel: nat, data: nat, meaning: string -> seq<Request>)
    requires Inv(s) && s.gate.blocked && s.acq.recording && channel in s.acq.rec.mask && HasRoom(s.acq.rec)
    requires Allowed(s, Occurs(channel, data))
    ensures exists run :: Releases(s, run, meaning)
    decreases s.acq.rec.max - |s.acq.rec.records|
  {
    hide Step, Releases, Allowed;
    var a := Occurs(channel, data);
    EventStep(s, channel, data, meaning);
    var s1 := Step(s, a, meaning).value;
    RunOne(s, a, [], meaning);
    var run: seq<Action>;
    if UNBLOCK in s1.queue {
      DrainUnblocks(s1, meaning);
      run := Handles(Ahead(s1.queue) + 1);
    } else {
      EventsUnblock(s1, channel, data, meaning);
      run :| Releases(s1, run, meaning);
    }
    RunOne(s, a, run, meaning);
  }

  lemma CaptureUnblocks(s: State, meaning: string -> seq<Request>)
    requires Inv(s) && s.gate.blocked && s.acq.sweep
    ensures exists run :: Releases(s, run, meaning)
  {
    var s1 := Step(s, AddressEnds, meaning).value;
    RunOne(s, AddressEnds, [], meaning);
    var s2 := Step(s1, CaptureEnds, meaning).value;
    RunOne(s1, CaptureEnds, [], meaning);
    assert UNBLOCK in s2.queue && s2.gate.blocked;
    hide Step, Releases;
    DrainUnblocks(s2, meaning);
    var run := Handles(Ahead(s2.queue) + 1);
    RunOne(s1, CaptureEnds, run, meaning);
    RunOne(s, AddressEnds, [CaptureEnds] + run, meaning);
  }

  /** Blocked input can be released by what is still to come: the queue alone, the capture
      of a running sweep, or the events the recorder waits for. */
  lemma WakeUpIsReachable(s: State, meaning: string -> seq<Request>)
    requires Inv(s) && s.gate.blocked && (s.acq.sweep || UNBLOCK in s.queue || Live(s.acq))
    ensures exists run :: Releases(s, run, meaning)
  {
    hide Releases;
    if s.acq.sweep {
      CaptureUnblocks(s, meaning);
    } else if UNBLOCK in s.queue {
      DrainUnblocks(s, meaning);
    } else if Receive.DIGITAL_DATA_CHANNEL in s.acq.rec.mask {
      EventsUnblock(s, Receive.DIGITAL_DATA_CHANNEL, 0, meaning);
    } else {
      EventsUnblock(s, Receive.INTERRUPT_CHANNEL, Receive.DIGITAL_EVENT_INTERRUPT, meaning);
    }
  }

  /** Recording that cannot fill: no event channel is selected, there is no room, or the
      interrupt it waits for was never armed. */
  predicate Dead(s: State) {
    s.gate.blocked && !s.acq.sweep && s.acq.recording && !Live(s.acq) && UNBLOCK !in s.queue
  }

  /** Then input stays blocked for ever and no further line runs. */
  lemma {:induction false} DeadStaysBlocked(s: State, run: seq<Action>, meaning: string -> seq<Request>)
    requires Inv(s) && Dead(s) && DeviceKeeps(s, run, meaning) && Run(s, run, meaning).Some?
    ensures Dead(Run(s, run, meaning).value) && Run(s, run, meaning).value.done.lines == s.done.lines
    decreases |run|
  {
    hide Step, Allowed, Dead;
    if run != [] {
      DeadStep(s, run[0], meaning);
      StepKeepsInv(s, run[0], meaning);
      DeadStaysBlocked(Step(s, run[0], meaning).value, run[1..], meaning);
    }
  }

  lemma DeadStep(s: State, a: Action, meaning: string -> seq<Request>)
    requires Inv(s) && Dead(s) && Enabled(s, a) && Step(s, a, meaning).Some? && Allowed(s, a)
    ensures Dead(Step(s, a, meaning).value) && Step(s, a, meaning).value.done.lines == s.done.lines
  {
    hide CliLine;
    if a.Handle? {
      assert s.queue == [s.queue[0]] + s.queue[1..];
    }
  }

  /** Exactly when blocked input can still be released; always, while recording is healthy. */
  lemma WakeUpIffLive(s: State, meaning: string -> seq<Request>)
    requires Inv(s) && s.gate.blocked
    ensures (exists run :: Releases(s, run, meaning)) <==> s.acq.sweep || UNBLOCK in s.queue || Live(s.acq)
    ensures Healthy(s) ==> exists run :: Releases(s, run, meaning)
  {
    if s.acq.sweep || UNBLOCK in s.queue || Live(s.acq) {
      WakeUpIsReachable(s, meaning);
    } else {
      assert Dead(s);
      hide DeviceKeeps;
      forall run | Run(s, run, meaning).Some? && DeviceKeeps(s, run, meaning) ensures !Releases(s, run, meaning) {
        DeadStaysBlocked(s, run, meaning);
      }
    }
  }

  /** From the start: over every run whose lines ask for recording only as it can be
      finished, blocked input can always still be released. */
  lemma UsableRunsWakeUp(run: seq<Action>, meaning: string -> seq<Request>)
    requires UsableRun(INITIAL, run, meaning) && Run(INITIAL, run, meaning).Some?
    ensures var s := Run(INITIAL, run, meaning).value;
            s.gate.blocked ==> exists more :: Releases(s, more, meaning)
  {
    hide Releases, UsableRun, Run;
    RunKeepsHealth(INITIAL, run, meaning);
    var s := Run(INITIAL, run, meaning).value;
    if s.gate.blocked { WakeUpIffLive(s, meaning); }
  }

  /** Requests that set up a recording, start it and fetch it without it ever filling:
      with no event channel, or with the set-up replaced by an interrupt never armed. */
  predicate DeadEnd(rs: seq<Request>) {
    || rs == [ConfigureEvents('D', 1, {1}), Initiate(false), FetchEvents]
    || rs == [ConfigureEvents('D', 5, {Receive.DIGITAL_DATA_CHANNEL}), Initiate(false),
              ConfigureEvents('R', 1, {Receive.INTERRUPT_CHANNEL}), FetchEvents]
  }

  /** Such a state is reached from the start, in one line. */
  lemma DeadIsReachable(meaning: string -> seq<Request>)
    requires DeadEnd(meaning("R"))
    ensures var r := Run(INITIAL, [Read("R\n"), Handle([])], meaning); r.Some? && Dead(r.value)
  {
    var run := [Read("R\n"), Handle([])];
    assert run[1..] == [Handle([])] && run[1..][1..] == [];
    var s1 := Step(INITIAL, run[0], meaning).value;
    assert s1.queue == [PROCESS_LINE];
    EolOfCommand();
    var s2 := s1.(queue := []);
    assert s1.queue[1..] == [];
    DeadLine(s2.(done := History(["R"], 0)), meaning("R"));
    hide PerformAll;
    assert [] + ["R"] == ["R"];
    assert Step(s1, Handle([]), meaning) == CliLine(s2, "R\n", meaning);
  }

  lemma EolOfCommand()
    ensures Eol("R\n") == 1 && "R\n"[..1] == "R" && "R\n"[2..] == ""
  {
    assert "R\n"[1..] == "\n";
  }

  lemma DeadLine(s: State, rs: seq<Request>)
    requires s.queue == [] && s.acq == INITIAL.acq && s.gate == INITIAL.gate && DeadEnd(rs)
    ensures var r := PerformAll(s, rs);
            && r.Some? && r.value.queue == [] && r.value.gate.blocked && r.value.acq.recording && !r.value.acq.sweep
            && !Live(r.value.acq)
  {
    var s1 := Perform(s, rs[0]).value;
    var s2 := Perform(s1, rs[1]).value;
    if |rs| == 3 {
      assert rs[1..] == [rs[1], rs[2]] && rs[1..][1..] == [rs[2]] && rs[1..][1..][1..] == [];
      assert PerformAll(s2, [rs[2]]) == Perform(s2, rs[2]);
    } else {
      assert rs[1..] == [rs[1], rs[2], rs[3]] && rs[1..][1..] == [rs[2], rs[3]] && rs[1..][1..][1..] == [rs[3]];
      var s3 := Perform(s2, rs[2]).value;
      assert [rs[3]][1..] == [];
      assert PerformAll(s3, [rs[3]]) == Perform(s3, rs[3]);
    }
  }
}
