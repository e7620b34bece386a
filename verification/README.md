# CGR-101 SCPI driver: verified model

The driver sits between SCPI command lines and a byte-oriented instrument. This project
models its stateful and arithmetic parts in Dafny and proves what they promise over every
input and every run.

| file | what it models |
|---|---|
| HeaderGrammar, ParserLoop | the push parser's headers and hooks; the lexer/parser feedback loop |
| Compounding, StandardPath, CgrGrammar | whole messages; section 7.6.1.5 of IEEE 488.2; the grammar's own header tree |
| Receive, Framing, ReceiveLaws, ReadoutLaws, Device | the device byte machine on values; frames and their decoding; laws of its runs and of the volts it prints; the driver's fields updated in place |
| Blocking, BlockingLaws, WaitingLaws, DeviceActions, Driver | event queue, overlapped commands and input blocking on values; laws of its runs and waits; the byte machine as such runs; the input buffer, queue and flags updated in place |
| Conversion | ADC codes, voltages and the two offset conventions |
| UserList, Waveform | numeric lists compacted over their own header; interpolation and 8-bit codes |
| Acquisition | sweep bands, post-trigger count, control byte, coupled voltage range |
| ErrorQueue, Output | the error ring; the response buffer |

Conventions:

- A failed C assertion is an outcome: a method returns `ok == false`, a function returns
  `None`, the parser loop's trace is `crashed`. A write past a text buffer of the device
  counts as failing too. Nothing is claimed about the state after a failure.
- Classes hold the C fields and change them; structures embedded in a C structure are
  record-valued fields. Their methods are proved against the functions of the module
  beside them, and the lemmas are about those functions.
- Doubles are reals. `Round` rounds halves away from zero as C's `round` does.
- The device is armed for one interrupt by each `D !` command (doc/cgr101-scpi.org:614-616)
  and reports changes of its inputs unasked (src/cgr101.c:554-556).
- Formatted text, the lexer's tokens and the requests a line stands for are inputs.

Where the code and its documentation differ the model follows the code:

- doc/cgr101-scpi.org:402-412 gives the reference point a range of 1 to 4096 and names it
  POINTS/2 of 4096; the code takes 0 to 1023. A reference of 0 with no offset is accepted
  by the setter and then refused when the sweep starts (`PostTrigger`).
- src/parser.c:205-217 describes the header path of section 7.6.1.5. The code replays all
  hooked mnemonics passed so far. `StandardIffCompliant` and `Regularity` say for which
  commands the two agree; a relative unit after any other command or after a unit that
  left no path, or a common command after `;`, never does what the standard says
  (`CompoundingIsStandard`, `CommonAfterCommonFails`, `IrregularFails`).
- Event recording can be started with nothing to wait for, or replaced while it runs by
  an interrupt the device was never armed for (`DeadIsReachable`), and then blocked input
  is never released (`WakeUpIffLive`); a recording of zero events fails on
  its first event (`ConfigureHasRoom`).
- A reset of the error queue leaves the syndromes of cleared errors in their slots, and the
  next report of an empty queue can carry one (`StaleReport`, `ResetThenGet`). Every caller
  that posts an error gives a syndrome, so an entry never comes back with another's.
- A line may start with `;`, which then has no path to replay (`LeadingSeparator`); one
  that ends with `;` is refused at best (`OpenMessage`).
- A *OPC? that waited is answered after the flush of its line; if that flush sent
  something, the answer starts with a stray `,` (`LateElement`).
- Leftover input without a line feed is kept in the buffer but never read again
  (`LinesIgnoreChunks` says when that matters).

## Model

| member | source | states |
|---|---|---|
| ParserLoop.Loop.SendLine | src/parser.c:153-203 | for every token line and grammar, a leading `;` included: the tokens pushed, the final parser and the one possible assertion failure are those of `Meaning`, which inserts the whole path at once after `;` unless `:` follows |
| ParserLoop.Loop.ReplayPrefix | src/parser.c:99-113 | gives the next recorded token; after the last one the replay and the separator are off |
| ParserLoop.Loop.ReplayActive | src/parser.c:115-126 | a separator turns the replay on and stays |
| ParserLoop.Loop.SetSeparator | src/parser.c:128-149 | setting keeps the path; clearing empties it and cancels the replay |
| ParserLoop.Loop.AddKey | src/parser.c:626-640 | the array holds the path with the mnemonic appended, and is unchanged during a replay |
| ParserLoop.FitsStep | src/parser.c:626-632 | no push makes the path outgrow the array: never more hooked mnemonics than the header is deep |
| ParserLoop.ReplayMeaning | src/parser.c:184-193 | one replayed token: no separator hook, no hook at all on the last, and the parser ends inside the recorded header |
| Compounding.Message | src/parser.c:153-203 | a message of units pushes its expansion and runs its resolved commands exactly when all resolve; fails its assertion exactly on a unit with no path reached first; else is refused |
| Compounding.OpenMessage | src/scpi.y:181-190 | a message whose last `;` is followed by no unit, as by the end of the line: its commands run, and it fails the assertion exactly when it gets stuck or when all run and the last leaves no path; else it is refused |
| Compounding.LeadingSeparator | src/scpi.y:181-190 | a line that starts with `;` is legal and leaves no path: it fails the assertion exactly when its first unit has no `:` or a later unit gets stuck, and otherwise runs or is refused as its units resolve |
| Compounding.LeadingOpenMessage | src/scpi.y:181-190 | the same for a line with both; a line of `;` alone fails |
| Compounding.OneUnit | src/scpi.y:181-200 | one unit between separators: tokens pushed, command run, path handed on, or refusal |
| Compounding.ReadHeader | src/scpi.y:290-413 | reading a header fires exactly the hooks of its hooked mnemonics, in order, or is refused |
| Compounding.FeedOpen | src/parser.c:184-193 | replaying a path of branches puts the parser below it with no hook run |
| StandardPath.CompoundingIsStandard | src/parser.c:205-217 | for every message section 7.6.1.5 gives a meaning: it runs exactly those commands if and only if no later unit without `:` is a common command or follows a unit that is irregular or left no path |
| StandardPath.SpellingsAgree | src/parser.c:205-217 | spelled from the root a message always runs as the standard says, and its relative spelling runs the same commands under the same condition, and only then |
| StandardPath.HooksIffCompliant | src/scpi.y:286-413 | below any hooked path too: the hooks leave the standard's header path exactly when the whole command is compliant |
| StandardPath.StandardIffCompliant | src/scpi.y:286-413 | for a header that repeats no mnemonic: the hooks leave the standard's header path exactly when every mnemonic but the last is hooked |
| CgrGrammar.GrammarIsValid | src/parser.c:22-26 | the driver's header tree is prefix-closed, common commands stand alone, and its depth fits the prefix array |
| CgrGrammar.Regularity | src/scpi.y:259-413 | exactly which of the driver's commands keep the standard's path; none repeats a mnemonic |
| CgrGrammar.CommonAfterCommonFails | src/parser.c:103-105 | `*CLS;*RST` fails the replay's assertion |
| CgrGrammar.TrailingSeparatorFails | src/parser.c:103-105 | so does `*IDN?;` |
| CgrGrammar.LeadingCommonFails | src/parser.c:103-105 | so does `;*RST` |
| CgrGrammar.LeadingColonRuns | src/scpi.y:181-200 | `;:SYST:ERR?` runs |
| CgrGrammar.IrregularFails | src/scpi.y:323-331 | `FETC:DIG:DAT?;EVEN?` means FETC:DIG:EVEN? and is refused |
| Conversion.RoundIsNearest | src/cgr101.c:613-620 | rounding is within a half, no integer is nearer, and integers are fixed |
| Conversion.DataRoundTrip | src/cgr101.c:604-620 | data to volts and back is the identity for every midpoint, step and offset |
| Conversion.VoltageIsNearest | src/cgr101.c:613-620 | the code of a voltage is within half a step of it and no other code is nearer |
| Conversion.TriggerLevelFits | src/cgr101.c:2349-2356 | the trigger assertions hold exactly for voltages less than half a step outside the converter |
| Conversion.ConventionsAgree | src/cea.c:214-235 | both offset conventions give the same voltage, the sample and the offset code back, and every assertion of a2c and c2a holds, for all values |
| Receive.FeedAppend | src/cgr101.c:1281-1296 | feeding two runs of bytes is feeding their concatenation, failures included |
| Framing.DecodeFrame | src/cgr101.c:453-516 | feeding the bytes of any frame to an idle machine does what the frame means, with any payload, fails exactly when the frame does not fit, and ends idle |
| Framing.FeedCapture | src/cgr101.c:995-1060 | 4096 interleaved bytes become the two rings, a pending read-out is printed and the sweep ends |
| Framing.FeedIdent | src/cgr101.c:1125-1138 | identify text up to the line feed is appended without carriage returns, or overruns exactly past 32 |
| Framing.FeedError | src/cgr101.c:1066-1082 | error text is posted whole without carriage returns, or overruns its buffer |
| Framing.DecodeAll | src/cgr101.c:1241-1279 | from idle, the encoding of any frames and noise decodes to exactly those frames in order and ends idle |
| Framing.DecodeStream | src/cgr101.c:1298-1321 | the same for every way the bytes are split into reads |
| ReceiveLaws.StepKeepsCoupling | src/cgr101.c:1241-1279 | from a coupled state exactly the listed bytes fail, so no `assert(0)` is reachable, and every other byte keeps the coupling |
| ReceiveLaws.AbortKeepsCoupling | src/cgr101.c:1013-1021 | abort fails exactly in a sweep without an address and keeps the coupling exactly when no capture frame is cut short |
| ReceiveLaws.ByteAfterCutCapture | src/cgr101.c:1054-1057 | after an abort inside a capture frame any next byte fails |
| ReceiveLaws.CouplingOverRuns | src/cgr101.c:2431-2442 | a run of bytes, sweeps started and aborts, whose bytes are not refused and whose aborts meet their precondition, never fails an assertion and is coupled at every point |
| ReceiveLaws.StreamIsTaken | src/cgr101.c:927-1138 | from the frames alone: a stream never fails exactly when identification and error texts fit their buffers, an address comes before the first capture, and no event meets a recorder without room |
| ReceiveLaws.AbortsAreHarmless | src/cgr101.c:1013-1021 | the same with sweeps started and aborts anywhere between the bytes, each abort meeting its precondition, coupled at every point; exactly, given room in the recorder |
| ReceiveLaws.RecorderKeepsFirst | src/cgr101.c:405-434 | exactly the first n events on selected channels are kept in order, then mask and status clear |
| ReceiveLaws.RecorderSays | src/cgr101.c:405-434 | over any frames: one re-arm command in the mode set up for each interrupt taken without filling, and when a waiting recorder fills exactly its first events are printed, once |
| ReceiveLaws.FetchWhenever | src/cgr101.c:2444-2479 | whenever the fetch is made, before the recording fills or after, exactly the events set up for are printed, once and in order |
| ReceiveLaws.ByteSends | src/cgr101.c:430-432 | every byte: such an interrupt sends one re-arm, a whole address asks for the buffer, and no other byte sends anything |
| ReceiveLaws.RecorderStep | src/cgr101.c:535-548 | no frame fails because of a recorder with room |
| ReceiveLaws.ConfigureHasRoom | src/cgr101.c:2444-2470 | a set-up has room exactly for a positive count or no event channel; otherwise some event frame fails |
| ReceiveLaws.FrameKeepsRoom | src/cgr101.c:398-434 | every frame keeps room for the next event on a selected channel |
| ReceiveLaws.IdentityAccumulates | src/cgr101.c:1125-1138 | the identification is the text of all identify frames one after another |
| ReceiveLaws.OffsetsStoreBack | src/cgr101.c:2285-2311 | four offset bytes received and then stored come back the same, in the same order |
| ReceiveLaws.WriteSlides | src/cgr101.c:972-981 | one write to the ring slides the unrolled window by one sample |
| ReceiveLaws.RingIsChronological | src/cgr101.c:960-986 | a ring of any size written at least once round unrolls to its last samples, oldest first |
| ReceiveLaws.CaptureIsChronological | src/cgr101.c:927-993 | address and capture frames of such a ring print exactly the last 1024 samples of each selected channel, oldest first: as the capture ends if a read-out waits, else nothing then, and for any later read-out |
| ReceiveLaws.QueryWhenever | src/cgr101.c:1975-1982 | SENS:DATA? during the sweep or after it prints the same samples |
| ReadoutLaws.OffsetCancels | src/cgr101.c:742-761 | after an offset frame exactly the samples at the offset byte of their channel and range print as 0 V |
| ReadoutLaws.CodesFall | src/cgr101.c:799-815 | one code more is one step of the range in use less: 0.0521 V or 0.00592 V |
| ReadoutLaws.RangeIsCovered | src/cgr101.c:1598-1612 | with no offset, every voltage of a coupled range has a 10-bit code that prints within half a step of it |
| Device.Cgr101.RcvSm | src/cgr101.c:1241-1279 | one byte in place is one step of the value machine, or the failing assertion |
| Device.Cgr101.RcvData | src/cgr101.c:1281-1296 | a read in place is `Feed` of its bytes |
| Device.Cgr101.DataOutput | src/cgr101.c:960-986 | fails exactly without a complete address; else prints each selected channel's unrolled ring in volts |
| Device.Cgr101.SampleAt | src/cgr101.c:976-982 | the wrapped index reads sample j past the end of the capture |
| Device.Cgr101.RcvScopeData | src/cgr101.c:1023-1060 | one capture byte in place: rings, index, state, completion |
| Device.Cgr101.NoteEvent | src/cgr101.c:405-434 | one event in place, or the failing `current < max`; `RecorderSays` is about its function |
| Device.Cgr101.FetchDigitalEvent | src/cgr101.c:2472-2479 | the fetch in place: printed now or when the recording fills |
| Device.Cgr101.DigitizerDataq | src/cgr101.c:1975-1982 | the query in place: printed now, when the capture ends, or the failing assertion |
| Device.Cgr101.AbortCommands | src/cgr101.c:2431-2442 | abort in place, or its failing assertion |
| Device.Cgr101.OffsetCodes | src/cgr101.c:2285-2308 | offsets received as four bytes are stored as those bytes, in the same order |
| Blocking.StepKeepsInv | src/parser.c:400-417 | over every step: overlapped equals sweep, a waiting *OPC? is blocked, blocked input has an acquisition running or an unblock event queued, and held input has its event queued |
| Blocking.PerformKeepsFlags | src/scpi_core.c:114-157 | every request of a line keeps the flags' part and only appends events |
| WaitingLaws.LineOutcome | src/scpi_core.c:114-157 | what a whole line leaves, by what its requests mean: sweep and recording under way, input blocked, *OPC? waiting or answered, sleeping, quitting, unblock events of its aborts |
| WaitingLaws.AsksDuringSweep | src/scpi_core.c:114-122 | during a sweep a line without abort answers no *OPC?; one that asks it, or *WAI or SENS:DATA?, blocks |
| WaitingLaws.AnswersWhenIdle | src/scpi_core.c:114-122 | with no sweep, running or started, every *OPC? is answered at once |
| WaitingLaws.LineWaits | src/parser.c:400-417 | a line that blocks is the last to run, and its *OPC? stays unanswered, over every run in which no capture ends and no recording fills |
| WaitingLaws.FinishQueues | src/cgr101.c:1013-1021 | what ends a capture or fills a recording queues the unblock event and is no longer under way |
| WaitingLaws.OpcqAnswersOnce | src/scpi_core.c:260-271 | *OPC? during a sweep: no answer and no further line until something finishes; then the first unblock event gives exactly one answer and releases the input |
| WaitingLaws.AnswersAreFlushed | src/scpi_core.c:265-270 | an answer, a line run and the end of input queue a flush |
| WaitingLaws.SleepHolds | src/parser.c:400-417 | asleep, no line runs until the alarm |
| WaitingLaws.BoundedDispatch | src/parser.c:405-417 | a held line that nothing blocks runs within as many handler steps as its event is away, whatever else happens, and only it; the end-of-input mark quits |
| WaitingLaws.QuitExactly | src/parser.c:385-387 | the server is asked to quit exactly by the end of input or a line that says so |
| Blocking.Run | src/server.c:233-251 | every state a run of any steps reaches meets that invariant |
| Blocking.BlockedStep | src/scpi_core.c:260-271 | while blocked a handler step brings the first unblock event one nearer or clears the block and answers; anything else leaves it; no line runs |
| Blocking.BoundedUnblocking | src/parser.c:405-417 | with an unblock event at position k the block holds for k handler steps, whatever else happens, and the next clears it |
| BlockingLaws.LinesInOrder | src/parser.c:363-398 | lines run and lines waiting are the complete non-empty lines read, each once, in order, under every interleaving |
| BlockingLaws.LinesIgnoreChunks | src/parser.c:388-394 | that equals the lines of the whole input exactly when no unfinished line is followed by a line feed in a later read |
| BlockingLaws.RequestKeepsHealth | src/cgr101.c:1795-1823 | a request keeps recording able to fill exactly when it starts or replaces it with one that can: room, and the inputs, or an armed interrupt |
| BlockingLaws.RunKeepsHealth | src/cgr101.c:1795-1823 | so over every run of lines that ask for such recordings only |
| BlockingLaws.UsableRunsWakeUp | src/cgr101.c:398-434 | over such a run from the start, blocked input can always still be released |
| BlockingLaws.WakeUpIffLive | src/cgr101.c:390-434 | with a device that reports captures only of a running sweep and interrupts only while armed, blocked input can still be released exactly when a sweep runs, an unblock event is queued, or the recorder has room and waits for the inputs or an armed interrupt |
| BlockingLaws.DeadStaysBlocked | src/cgr101.c:2472-2479 | recording with no event channel, no room or an interrupt never armed blocks a fetch for ever: no further line runs |
| BlockingLaws.DeadIsReachable | src/cgr101.c:1810-1820 | one line reaches that state: a channel that brings no events, or a running set-up replaced by an interrupt |
| DeviceActions.BytesAreARun | src/cgr101.c:1241-1296 | whatever bytes the receive machine takes are a run of the blocking protocol: same flags, same events in the same order, and the wake-up invariant kept |
| DeviceActions.BytesArm | src/cgr101.c:390-434 | over any bytes the protocol's device is armed exactly when the commands sent and the interrupts received leave it so |
| DeviceActions.RequestsFollow | src/cgr101.c:2444-2479 | set-up, sweep start, fetch and data query do the same in both |
| DeviceActions.AbortFollows | src/cgr101.c:2431-2442 | an abort fails in both or does the same in both |
| Driver.Info.HandleEvent | src/event.c:31-56 | the head of the queue and its handler, in place |
| Driver.Info.ParseCliLine | src/parser.c:363-398 | on the input buffer itself: one line run and stepped over, end of input, or leftovers moved to its front; no line lost or run twice |
| BlockingLaws.StepAccounts | src/parser.c:405-417 | no step loses a line or runs one twice: lines run and waiting grow only by those read |
| Driver.Info.ScpiSend | src/parser.c:349-357 | all requests of a line, then a flush |
| Driver.Info.FindEol | src/parser.c:371-373 | the search stops inside the buffer, at the terminator at the latest, and finds the first line feed of the held line |
| Blocking.BlockedHandler | src/scpi_core.c:260-271 | while blocked, an unblock event clears the block, answers a waiting *OPC? and queues the line event; any other handler leaves block, answers and lines alone |
| Driver.Info.CliRead | src/parser.c:419-472 | reads exactly when no line is held and input is not blocked; the text goes behind the leftovers and alone becomes the held line |
| Driver.Info.ServeAll | src/server.c:233-251 | any run on the buffer, queue and flags is the run of the values: the invariant is kept, and lines run and waiting are those read |
| UserList.List.Append | src/scpi_core.c:388-393 | appends one value and touches no other |
| UserList.List.BlockCopy | src/scpi_input.c:116-143 | compaction over the header and the slots leaves the values in order; nothing is overwritten before it is read |
| UserList.ParseBlock | src/scpi_core.c:347-394 | a literal list of 2 to 256 numbers reaches the device unchanged |
| Waveform.InterpBetweenNeighbours | src/cgr101.c:1417-1459 | every interpolation assertion holds; the value lies between its two points and meets a point it falls on |
| Waveform.InterpOnLine | src/cgr101.c:1449-1456 | points around the phase that lie on a line put the sample on that line |
| Waveform.SampleOnLine | src/cgr101.c:1463-1475 | equally spaced points are reproduced exactly in every sample |
| Waveform.CodeFits | src/cgr101.c:1531-1535 | a code fits 8 bits exactly for values up to half a code outside [-1, 1] |
| Waveform.CodeIsAntitone | src/cgr101.c:1515-1518 | codes fall as values rise and are within one step of them |
| Waveform.Generator.CreateFn | src/cgr101.c:1463-1475 | the accumulated phase of sample i is i/256 |
| Waveform.Generator.SourceUser | src/cgr101.c:1937-1942 | 1 to 256 points program exactly when all samples fit, always for points in [-1, 1], one code per sample in order; equally spaced points send the codes of their line |
| Acquisition.BandIsUnique | src/cgr101.c:1621-1627 | a time is in at most one band |
| Acquisition.Timebase.SetSweepTime | src/cgr101.c:1614-1636 | succeeds exactly from the shortest sweep up to 2^16 times it, picks the band, changes nothing on failure |
| Acquisition.Timebase.SetBack | src/cgr101.c:2085-2110 | setting back a queried time or interval succeeds and changes nothing |
| Acquisition.Timebase.PostTrigger | src/cgr101.c:888-898 | two bytes carry the count whole; refused exactly when reference plus offset is outside 1 to 1024 |
| Acquisition.ControlDecodes | src/cgr101.c:822-839 | the packed value is 0 to 255 and gives its five fields back |
| Acquisition.Channels.SetOne | src/cgr101.c:1581-1612 | a setter keeps its own value, the one value it leaves alone, and the coupling of all five |
| Acquisition.Channels.Set | src/cgr101.c:2136-2200 | the same on every channel of the mask and on no other, with one preamp command each |
| Acquisition.AdjustMeans | src/cgr101.c:1581-1612 | what the code computes for a setting is its own value, the value left alone, and the coupling, from any state |
| Acquisition.WriteBackIffCoupled | src/cgr101.c:1581-1612 | writing back any queried value is a no-op exactly on a coupled channel |
| Acquisition.RangeStaysCoupled | src/cgr101.c:2136-2200 | over every run of the setters on any masks every channel stays coupled, and writing back a queried value changes nothing |
| ErrorQueue.Queue.Error | src/scpi_error.c:56-86 | posts to a FIFO of 31 with an overflow flag; on a clean ring each entry keeps its own syndrome |
| ErrorQueue.Queue.ErrorGet | src/scpi_error.c:131-155 | takes the oldest entry with its syndrome, else one overflow report, else none; on an empty queue the report is right exactly when the next slot holds no syndrome |
| ErrorQueue.Queue.ErrorCount | src/scpi_error.c:89-106 | live entries, plus one for an overflow on a non-empty queue |
| ErrorQueue.CountIsTakes | src/scpi_error.c:89-106 | that is the number of takes that give an error, on a queue that is not empty; later ones give none |
| ErrorQueue.Queue.Reset | src/scpi_error.c:166-169 | empties the queue; leaves dead slots clean exactly when no live entry had a syndrome |
| ErrorQueue.Queue.ResetThenGet | src/scpi_error.c:131-169 | after a reset the next report is clean exactly when the first slot held no syndrome: for a clean ring of entries with syndromes, when none was waiting there |
| ErrorQueue.StaleReport | src/scpi_error.c:150-151 | an error, a reset and a query: "no error" comes with the cleared error's syndrome |
| ErrorQueue.Accounts | src/scpi_error.c:56-169 | over every run of posts, takes and resets: kept entries leave once in order, taken or cleared; kept and dropped account for all posted; overflow is up exactly while a loss is unreported |
| Output.Buffer.Printf | src/scpi_output.c:58-102 | separators and text as `Print` says; error exactly when the text does not fit |
| Output.Buffer.Append | src/scpi_output.c:43-56 | one character or the overflow flag, and the room left |
| Output.ResponseIsLayout | src/scpi_output.c:58-124 | from a cleared buffer the text is the reference layout exactly when that leaves a byte to spare; the length never passes the last byte |
| Output.ResponseReadsBack | src/scpi_output.c:69-79 | a response that fits splits back into the elements of each command |
| Output.Buffer.FlushLine | src/scpi_output.c:136-153 | sends the line of `Flush`, or fails its assertion |
| Output.FlushedIsLine | src/scpi_output.c:76-79 | what is flushed is the reference layout, a `;` only if a separator is pending, and one line feed, and nothing from an empty layout, exactly when that leaves a byte to spare |
| Output.FlushedReadsBack | src/scpi_output.c:136-153 | less its line feed it splits back into the elements of each command |
| Output.LateElement | src/scpi_output.c:76-79 | an element printed after a flush that sent something starts with `,` |

## Left out

- Sockets, the select loop, pipes, processes, signals and delays; the handler table of src/event.c; the discarding of device output before the first command.
- The generated lexer and parser: argument syntax is taken as correct, and a command counts as run when its separator or the end of the line is read.
- Quoted strings (src/scanner.l:41-55): a single scan that shares no state with the parts modelled.
- UserList.List.Append: lists longer than 256 values, where the reallocation leaves the value pointer behind.
- Waveform: the sine, square, triangle and noise shapes.
- Acquisition.RangeStaysCoupled: agreement between the recorded preamp range and the device after *RST, which sends no command.
- Blocking.PerformKeepsFlags: the failing start of a sweep, which is `PostTrigger`'s error; printing and the status registers.
- WaitingLaws.OpcqAnswersOnce: no claim while an unblock event is already queued, as by an earlier abort, which can answer the *OPC? before the sweep ends.
- ErrorQueue.Queue.ErrorGet: the message text of an error number.
- Driver.Info.CliRead: a read that brings a NUL or fills the buffer to its last byte.
- Device.Cgr101.NoteEvent: timestamps.
- Device.Cgr101.RcvSm: the digital read, status and identify queries that consume its events.
- Channel ranges in ascending order, status registers, PWM, number formatting and rounding of doubles.
