/** The blocking protocol as it runs: the input buffer, the event queue and the flags,
    updated in place by the handlers of the server's loop. */
module Driver {
  import Receive
  import opened Blocking
  import opened BlockingLaws

  type Option<T> = Receive.Option<T>

  /** What a held line can be: text, or the mark of the end of input. */
  predicate Holdable(t: string) { t == "\0" || (t != "" && '\0' !in t) }

  lemma EolStep(t: string)
    ensures Eol(t) == if t == "" || t[0] == '\n' then 0 else 1 + Eol(t[1..])
  {
  }

  class Info {
    const cliBuf: array<char>
    var cliLine: Option<nat>   // index into cliBuf
    var cliLineLen: nat
    var cliOffset: nat
    var queue: seq<Queued>     // the event pipe
    var gate: Gate
    var acq: Acquisition
    var quit: bool
    var done: History

    /** A held line is inside the buffer, and text has its terminator there. */
    ghost predicate Valid()
      reads this`cliLine, this`cliLineLen, this`cliOffset, cliBuf
    {
      && cliBuf.Length == CLI_LEN && cliOffset < CLI_LEN
      && (cliLine.Some? ==>
            && cliLine.value + cliLineLen <= CLI_LEN && Holdable(Line())
            && (Line() != "\0" ==> cliLine.value + cliLineLen < CLI_LEN && cliBuf[cliLine.value + cliLineLen] == '\0'))
    }

    /** The bytes of the held line. */
    ghost function Line(): string
      requires cliLine.Some? && cliLine.value + cliLineLen <= cliBuf.Length
      reads this`cliLine, this`cliLineLen, cliBuf
    {
      cliBuf[cliLine.value..cliLine.value + cliLineLen]
    }

    /** The held line and the room leftovers take, which a line's requests never touch. */
    ghost function Held(): Input
      requires Valid()
      reads this`cliLine, this`cliLineLen, this`cliOffset, cliBuf
    {
      Input(if cliLine.None? then Receive.None else Receive.Some(Line()), cliOffset)
    }

    lemma HeldIs()
      requires Valid()
      ensures Held().offset == cliOffset < CLI_LEN && (Held().line.None? <==> cliLine.None?)
      ensures Held().line.Some? ==> Held().line.value != ""
    {
    }

    ghost function Value(): State
      requires Valid()
      reads this, cliBuf
    {
      State(queue, Held(), gate, acq, quit, done)
    }

    ghost function Outcome(ok: bool): Option<State>
      requires Valid()
      reads this, cliBuf
    {
      if ok then Receive.Some(Value()) else Receive.None
    }

    constructor ()
      ensures Valid() && Value() == INITIAL && fresh(cliBuf)
    {
      cliBuf := new char[CLI_LEN](_ => '\0');
      cliLine, cliLineLen, cliOffset := Receive.None, 0, 0;
      queue, quit := [], false;
      gate := Gate(false, false, false);
      acq := Acquisition(false, false, false, false, false, Receive.Recorder({}, 'D', [], 0, false), false);
      done := History([], 0);
    }

    /** event_send. */
    method Send(e: Queued)
      requires Valid()
      modifies this`queue
      ensures Valid() && Value() == Post(old(Value()), e)
    {
      hide Valid, Held;
      queue := queue + [e];
    }

    // A line's requests

    /** cgr101_scope_data_done. */
    method ScopeDataDone() returns (ok: bool)
      requires Valid()
      modifies this`acq, this`queue
      ensures Valid() && Outcome(ok) == SweepDone(old(Value()))
    {
      hide Valid, Held;
      ok := acq.addrComplete;
      if ok {
        acq := acq.(overlapped := false, sweep := false);
        Send(UNBLOCK);
      }
    }

    /** cgr101_digital_event_done. */
    method DigitalEventDone()
      requires Valid()
      modifies this`acq, this`queue
      ensures Valid() && Value() == RecordingDone(old(Value()))
    {
      hide Valid, Held;
      acq := acq.(recording := false, rec := acq.rec.(mask := {}));
      Send(UNBLOCK);
    }

    method PerformOne(r: Request) returns (ok: bool)
      requires Valid()
      modifies this`queue, this`gate, this`acq, this`quit, this`done
      ensures Valid() && Outcome(ok) == Perform(old(Value()), r)
    {
      hide Valid, Held;
      ok := true;
      match r
      case OpcQuery =>
        if acq.overlapped {
          gate := gate.(blocked := true, opcq := true);
        } else {
          done := done.(answers := done.answers + 1);
        }
      case Wait =>
        if acq.overlapped {
          gate := gate.(blocked := true);
        }
      case Initiate(enabled) =>
        if enabled {
          acq := acq.(overlapped := true, sweep := true);
        }
        if Receive.INTERRUPT_CHANNEL in acq.rec.mask {
          acq := acq.(armed := true);
        }
        if acq.rec.mask != {} {
          acq := acq.(recording := true);
        }
      case InitiateImmediate(enabled) =>
        if enabled {
          acq := acq.(overlapped := true, sweep := true);
        }
      case AbortAll =>
        if acq.sweep {
          ok := ScopeDataDone();
        }
        if ok && acq.recording {
          DigitalEventDone();
        }
      case DataQuery =>
        if acq.sweep {
          acq, gate := acq.(scopePending := true), gate.(blocked := true);
        } else {
          ok := acq.addrComplete;
        }
      case ConfigureEvents(mode, count, mask) =>
        acq := acq.(rec := Receive.Recorder(mask, mode, [], count, false));
      case FetchEvents =>
        if acq.recording {
          gate, acq := gate.(blocked := true), acq.(rec := acq.rec.(pending := true));
        }
      case Sleep =>
        ok := !gate.sleeping;
        if ok {
          gate := gate.(sleeping := true);
        }
      case Quit => quit := true;
      case Unrelated =>
    }

    /** parser_scpi_send: all requests of a line, then a flush. */
    method ScpiSend(line: string, meaning: string -> seq<Request>) returns (ok: bool)
      requires Valid()
      modifies this`queue, this`gate, this`acq, this`quit, this`done
      ensures Valid() && Outcome(ok) == Execute(old(Value()), line, meaning)
    {
      hide Perform, Valid, Held;
      done := done.(lines := done.lines + [line]);
      var requests := meaning(line);
      ghost var start := Value();
      var i := 0;
      assert requests[0..] == requests;
      while i < |requests|
        invariant 0 <= i <= |requests| && Valid()
        invariant PerformAll(start, requests) == PerformAll(Value(), requests[i..])
      {
        assert requests[i..][1..] == requests[i + 1..];
        ok := PerformOne(requests[i]);
        if !ok {
          return;
        }
        i := i + 1;
      }
      Send(OUTPUT_FLUSH);
      ok := true;
    }

    // Lines

    /** strchr for the line feed: it stops inside the buffer, at the terminator at the latest. */
    method FindEol() returns (eol: Option<nat>)
      requires Valid() && cliLine.Some?
      ensures eol.Some? <==> Eol(Line()) < |Line()|
      ensures eol.Some? ==> eol.value == cliLine.value + Eol(Line())
    {
      hide Eol;
      var p := cliLine.value;
      ghost var t := Line();
      var i := p;
      assert t[0..] == t;
      while cliBuf[i] != '\n' && cliBuf[i] != '\0'
        invariant p <= i < CLI_LEN && i <= p + |t|
        invariant t == "\0" ==> i == p
        invariant Eol(t) == i - p + Eol(t[i - p..])
        decreases p + |t| - i
      {
        assert cliBuf[i] == t[i - p] && t[i - p..][1..] == t[i + 1 - p..];
        EolStep(t[i - p..]);
        i := i + 1;
      }
      assert i < p + |t| ==> t[i - p] == cliBuf[i];
      EolStep(t[i - p..]);
      if t == "\0" { EolStep(t); EolStep(""); }
      eol := if cliBuf[i] == '\n' then Receive.Some(i) else Receive.None;
    }

    /** The line after this one, if any, with an event to run it. */
    method StepPast(eol: nat)
      requires Valid() && cliLine.Some? && cliLine.value <= eol < cliLine.value + cliLineLen && cliBuf[eol] == '\n'
      modifies this`cliLine, this`cliLineLen, this`queue
      ensures Valid()
      ensures var rest := old(Line())[eol + 1 - old(cliLine.value)..];
              var s := old(Value()).(input := Input(if rest == "" then Receive.None else Receive.Some(rest), cliOffset));
              Value() == if rest == "" then s else Post(s, PROCESS_LINE)
    {
      ghost var t, p := Line(), cliLine.value;
      var llen := eol - cliLine.value;
      assert t[llen] == '\n';
      cliLine, cliLineLen := Receive.Some(eol + 1), cliLineLen - (llen + 1);
      assert Line() == t[llen + 1..];
      if cliLineLen == 0 {
        cliLine := Receive.None;
      } else {
        Send(PROCESS_LINE);
      }
    }

    /** What has no line feed moves to the front of the buffer. */
    method KeepLeftovers()
      requires Valid() && cliLine.Some? && Line() != "\0"
      modifies this`cliLine, this`cliLineLen, this`cliOffset, cliBuf
      ensures Valid() && Value() == old(Value()).(input := Input(Receive.None, |old(Line())|))
      ensures cliBuf[..cliOffset] == old(Line())
    {
      var p := cliLine.value;
      forall i | 0 <= i < cliLineLen { cliBuf[i] := cliBuf[p + i]; }
      cliOffset := cliLineLen;
      cliLine, cliLineLen := Receive.None, 0;
    }

    /** parser_cli_line: a line is run and stepped over, the end of input quits, and
        leftovers move to the front of the buffer.  No line is lost or run twice. */
    method ParseCliLine(meaning: string -> seq<Request>) returns (ok: bool)
      requires Valid() && cliLine.Some?
      modifies this, cliBuf
      ensures Valid() && Outcome(ok) == CliLine(old(Value()), old(Line()), meaning)
      ensures ok ==> Account(Value()) == Account(old(Value()))
      ensures Eol(old(Line())) == |old(Line())| && old(Line()) != "\0" ==> cliLine.None? && cliBuf[..cliOffset] == old(Line())
    {
      hide Execute, Eol, Account;
      ghost var t, start := Line(), Value();
      if CliLine(start, t, meaning).Some? { CliLineAccounts(start, t, meaning); }
      ok := true;
      var eol := FindEol();
      if eol.Some? {
        ok := RunLine(eol.value, meaning);
      } else if cliBuf[cliLine.value] == '\0' {
        quit := true;
        Send(OUTPUT_FLUSH);
      } else {
        KeepLeftovers();
      }
    }

    /** The line up to its line feed, unless it is empty; then on to the next. */
    method RunLine(eol: nat, meaning: string -> seq<Request>) returns (ok: bool)
      requires Valid() && cliLine.Some? && Eol(Line()) < |Line()| && eol == cliLine.value + Eol(Line())
      modifies this
      ensures Valid() && Outcome(ok) == CliLine(old(Value()), old(Line()), meaning)
    {
      hide Execute, Eol;
      ghost var t, n := Line(), Eol(Line());
      var llen := eol - cliLine.value;
      assert cliBuf[cliLine.value..eol] == t[..n];
      ok := true;
      if llen > 0 {
        ok := ScpiSend(cliBuf[cliLine.value..eol], meaning);
      }
      if ok {
        StepPast(eol);
      }
    }

    /** parser_process_line, its event being off the queue: blocked input is kept and its
        event queued again; no line is lost or run twice. */
    method ProcessLine(meaning: string -> seq<Request>) returns (ok: bool)
      requires Valid()
      modifies this, cliBuf
      ensures Valid() && Outcome(ok) == if old(cliLine.None?) then Receive.Some(old(Value()))
                                        else if Blocked(old(Value())) then Receive.Some(Post(old(Value()), PROCESS_LINE))
                                        else CliLine(old(Value()), old(Line()), meaning)
      ensures ok ==> Account(Value()) == Account(old(Value()))
      ensures Blocked(old(Value())) ==> ok && done == old(done) && Held() == old(Held()) && (cliLine.Some? ==> PROCESS_LINE in queue)
    {
      hide CliLine;
      ok := true;
      if cliLine.Some? {
        if gate.sleeping || gate.blocked {
          Send(PROCESS_LINE);
        } else {
          ok := ParseCliLine(meaning);
        }
      }
    }

    /** scpi_core_unblock. */
    method Unblock()
      requires Valid()
      modifies this`gate, this`done, this`queue
      ensures Valid() && Value() == Unblocked(old(Value()))
    {
      hide Valid, Held;
      gate := gate.(blocked := false);
      if gate.opcq {
        gate := gate.(opcq := false);
        done := done.(answers := done.answers + 1);
      }
      Send(OUTPUT_FLUSH);
      Send(PROCESS_LINE);
    }

    /** event_handler: the head of the queue and its handler. */
    method HandleEvent(more: seq<Queued>, meaning: string -> seq<Request>) returns (ok: bool)
      requires Valid() && queue != []
      modifies this, cliBuf
      ensures Valid() && Outcome(ok) == Dispatch(old(Value()), more, meaning)
    {
      hide CliLine;
      ok := true;
      var event := queue[0];
      queue := queue[1..];
      match event
      case UNBLOCK => Unblock();
      case PROCESS_LINE =>
        ok := ProcessLine(meaning);
      case OUTPUT_FLUSH =>
      case REPORT(_) => queue := queue + more;
    }

    /** The buffer after the leftovers is cleared and the text read into it. */
    method Fill(text: string)
      requires cliBuf.Length == CLI_LEN && |text| + cliOffset < CLI_LEN
      modifies cliBuf
      ensures cliBuf[..cliOffset] == old(cliBuf[..cliOffset]) && cliBuf[cliOffset..cliOffset + |text|] == text
      ensures forall i :: cliOffset + |text| <= i < CLI_LEN ==> cliBuf[i] == '\0'
    {
      var p := cliOffset;
      forall i | p <= i < CLI_LEN { cliBuf[i] := '\0'; }
      forall i | 0 <= i < |text| { cliBuf[p + i] := text[i]; }
    }

    /** parser_cli_read_worker and parser_cli_read: `text` is what read() brings, nothing
        at the end of input.  It goes after the leftovers, and only it is the new line. */
    method CliRead(text: string) returns (taken: bool)
      requires Valid() && |text| + cliOffset < CLI_LEN && '\0' !in text
      modifies this`cliLine, this`cliLineLen, this`queue, cliBuf
      ensures Valid() && (taken <==> old(cliLine.None?) && !Blocked(old(Value())))
      ensures !taken ==> Value() == old(Value())
      ensures taken ==> Value() == Post(old(Value()).(input := Input(Receive.Some(if text == "" then "\0" else text), cliOffset)),
                                        PROCESS_LINE)
      ensures taken ==> cliBuf[..cliOffset] == old(cliBuf[..cliOffset])
    {
      taken := cliLine.None? && !(gate.sleeping || gate.blocked);
      if taken {
        Fill(text);
        cliLine, cliLineLen := Receive.Some(cliOffset), if text == "" then 1 else |text|;
        assert Line() == if text == "" then "\0" else text;
        Send(PROCESS_LINE);
      }
    }

    // The server's loop

    /** The recorder's part of cgr101_digital_event, and the device's arming. */
    method Note(channel: nat, data: nat) returns (ok: bool, full: bool)
      modifies this`acq
      ensures Noted(old(acq), channel, data) == if ok then Receive.Some((acq, full)) else Receive.None
      ensures !ok ==> acq == old(acq)
    {
      ok, full := true, false;
      var armed := acq.armed && channel != Receive.INTERRUPT_CHANNEL;
      if channel in acq.rec.mask {
        ok := |acq.rec.records| < acq.rec.max;
        if !ok {
          return;
        }
        acq := acq.(rec := acq.rec.(records := acq.rec.records + [data]));
        full := |acq.rec.records| == acq.rec.max;
        if !full && data == Receive.DIGITAL_EVENT_INTERRUPT {
          armed := true;
        }
      }
      acq := acq.(armed := armed);
    }

    /** cgr101_digital_event, as far as blocking goes. */
    method DigitalEvent(channel: nat, data: nat) returns (ok: bool)
      requires Valid()
      modifies this`acq, this`queue
      ensures Valid() && Outcome(ok) == RecordEvent(old(Value()), channel, data)
    {
      hide Valid, Held, Noted;
      var full;
      ok, full := Note(channel, data);
      if ok && full {
        DigitalEventDone();
      }
    }

    /** server_select: whether this can happen now. */
    method CanServe(a: Action) returns (can: bool)
      requires Valid()
      ensures can <==> Enabled(Value(), a)
    {
      HeldIs();
      var open := cliLine.None? && !gate.sleeping && !gate.blocked;
      match a
      case Handle(more) => can := queue != [] && Quiet(more);
      case Read(text) => can := open && 0 < |text| && |text| + cliOffset < CLI_LEN && '\0' !in text;
      case EndOfInput => can := open;
      case _ => can := true;
    }

    /** server_action. */
    method Serve(a: Action, meaning: string -> seq<Request>) returns (ok: bool)
      requires Valid() && Enabled(Value(), a)
      modifies this, cliBuf
      ensures Valid() && Outcome(ok) == Step(old(Value()), a, meaning)
    {
      HeldIs();
      hide Dispatch, Valid, Held;
      ok := true;
      match a
      case Handle(more) => ok := HandleEvent(more, meaning);
      case Read(text) => ok := CliRead(text);
      case EndOfInput => ok := CliRead("");
      case AddressStarts => acq := acq.(addrComplete := false);
      case AddressEnds => acq := acq.(addrComplete := true);
      case CaptureEnds =>
        acq := acq.(scopePending := false);
        ok := ScopeDataDone();
      case Occurs(channel, data) => ok := DigitalEvent(channel, data);
      case Report(id) => Send(REPORT(id));
      case Alarm => gate := gate.(sleeping := false);
    }

    /** server_loop: any run of what can happen, on the fields themselves, is the run of
        the values, so every law of runs holds of it: the invariant is kept, and the lines
        run and waiting are those read. */
    method ServeAll(run: seq<Action>, meaning: string -> seq<Request>) returns (ok: bool)
      requires Valid() && Inv(Value())
      modifies this, cliBuf
      ensures Valid() && Outcome(ok) == Run(old(Value()), run, meaning)
      ensures ok ==> Inv(Value()) && Account(Value()) == Account(old(Value())) + LinesRead(run)
    {
      hide Step, Account, LinesRead, Enabled, Valid, Held;
      if Run(Value(), run, meaning).Some? { LinesInOrder(Value(), run, meaning); }
      ok := true;
      var i := 0;
      assert run[0..] == run;
      while i < |run|
        invariant 0 <= i <= |run| && Valid() && Inv(Value()) && ok
        invariant Run(Value(), run[i..], meaning) == Run(old(Value()), run, meaning)
      {
        assert run[i..][0] == run[i] && run[i..][1..] == run[i + 1..];
        ok := CanServe(run[i]);
        if ok {
          if Step(Value(), run[i], meaning).Some? { StepKeepsInv(Value(), run[i], meaning); }
          ok := Serve(run[i], meaning);
        }
        if !ok {
          return;
        }
        i := i + 1;
      }
    }
  }
}
