# Verified models of the board's kernel drivers

This project models the four stateful kernel drivers of the layer and proves what they do over
every run:

- **pulsecap**, an interrupt handler that filters timer edges into an array, with start, cancel
  and read-out calls that take no lock (`Pulse*.dfy`);
- **kswfloppy**, which steps a floppy drive's head with bare GPIO writes and samples one
  revolution of a track by polling (`Floppy*.dfy`);
- **dma-proxy**, which starts and finishes asynchronous transfers on 32 descriptors
  (`Dma*.dfy`);
- **aximux**, a read-modify-write select register (`AxiMux.dfy`).

`Words.dfy` holds the 32-bit word that two of them share.

Each driver is a class (or methods over a class) that follows the C statement by statement, proved
equal to a function on plain values. The lemmas are about those functions. What the hardware does is
a parameter and is never restricted beyond what is said here:

- Interrupts arrive in any number, with any register contents, before every statement of an API
  call, including between the tests and reads of a query (`env`). The handler holds the spinlock and is one step.
- The TRK00 line may answer in any way that depends on the waveform emitted so far
  (`Sense = seq<Event> -> bool`). Only lemmas that say `Faithful` assume an honest drive.
- The DMA engine retires transfers and runs callbacks at any time, as lists of events around and
  inside each operation. What it cannot do (retire a transfer twice, call back before it retires)
  has no effect.
- Delays last at least as long as asked for; index and data readings are an arbitrary stream.

Assumed, because the code does not enforce it: an assignment to the pulsecap flags is indivisible,
and callers of one instance or channel are serialised with each other. The C integers that can wrap
are bounded in the model by their own range checks (`edge_ptr`, `edge_target`, `cur_track`), or are
taken modulo 2^32 (`dma_handle`, `buf_ptr`); raw counts and lengths are 32-bit words.

## Where the code differs from what it seems to mean

The models follow the code. Where that matters there is a lemma with the exact condition.

- **pulsecap.c:270-271.** Start sets ENABLE before it clears DONE. A capture that completes between
  the two loses its DONE and goes on reporting "running" until an edge comes that would follow the
  last one kept. `EarlyCompletionIsLost` gives the condition under which DONE is right, both ways
  and at every later time; `LostCompletionExample` is such a run. Pointer and cells are right even
  then (`CaptureOutcome`).
- **pulsecap.c:190-203.** One edge beyond the target is stored before DONE is set, so a capture of
  the admitted maximum writes one cell past the array, and only its completing write does
  (`EveryWrite`); `CompletingWrite` is a run that comes to that, and by `ArrayIsKeptIff` only
  captures of that maximum do.
- **pulsecap.c:298.** `!flags & ENABLE` reads as `(!flags) & 1`. Cancel is refused only before the
  first start, not whenever nothing runs (`BetweenCalls`, `CancelOutcome`).
- **pulsecap.c:286-291.** The function ends without a value when no flag is set, which is so exactly
  before the first start (`BetweenCalls`).
- **pulsecap.c:184-215.** A target of zero is admitted and keeps one edge. A read while DONE returns
  none of it, a read after cancel returns it (`CancelKeepsFinishedReads`).
- **kswfloppy.c:252-254.** The byte is cleared before it is stored and the index advances twice.
  `Zeroed` is the buffer as the code leaves it; `Pack` is what it seems to mean, and is only a
  reference. `DumpHoldsSamplesIff` says when they agree. Nothing stops the index at the buffer's
  end; `DumpFits` says for how many samples it stays inside. The count printed as "bytes read" is
  the index, twice the number of bytes (`Driver.DumpTrack`).
- **kswfloppy.c:222.** A dump on a drive that is not homed is not refused: the seek is, and the drive
  spins and samples where it stands. `SampledTrack` gives the condition under which the samples are
  of the track asked for: homed, or already there.
- **dma-proxy.c:176-182, 215.** A late callback of a timed-out transfer signals the descriptor's next
  transfer. `XferReportsItsOwnIff` and `StartFinishReportsItsOwnIff` give the condition under which
  the status is about the right transfer. ERROR can be about another one (`LateCallback`, and
  `LateCallbackHappens` for a run from a new channel).
- **dma-proxy.c:218-221, 378-381.** An XFER whose submission fails waits all the same. A late callback
  then ends the wait, and if the engine takes the error cookie for a completed one the status is
  NO_ERROR for no transfer at all (`WrongNoErrorHappens`). `RefusedSubmitIff` gives the exact
  conditions under which that cannot be, and under which the status is TIMEOUT. Beside the cookie
  of an accepted transfer NO_ERROR always means that this transfer has completed well
  (`NoErrorMeansComplete`).
- **dma-proxy.c:205-206, 215.** When the preparation fails the completion is not initialised: an XFER
  then reports on an earlier transfer if a signal of it waits or comes (`StaleReportHappens`), and
  TIMEOUT exactly if there is none (`RefusedPrepIff`).
- **dma-proxy.c:200.** The length comes from user space unchecked. `ConfinedIff` gives the lengths
  that keep a transfer off the status words.

## Model

| member | source | states |
|---|---|---|
| PulseFilter.TransitionsAreRunHeads | recipes-kernel/pulsecap/files/pulsecap.c:184-215 | the edges to keep, defined by level changes of the raw line, are those of the other description: wait for the first HIGH edge, then take the first edge of each run of equal levels |
| PulseFilter.TransitionsAlternate | recipes-kernel/pulsecap/files/pulsecap.c:184-215 | kept edges alternate from HIGH on, and the last one kept has the line's present level, for every edge sequence |
| PulseFilter.TransitionsGrow | recipes-kernel/pulsecap/files/pulsecap.c:184-204 | edges that come later never change what was kept before |
| PulseDevice.FlagStatements | recipes-kernel/pulsecap/files/pulsecap.c:39-42 | the byte operations of the driver set or clear exactly the flag they name; the negated byte has the ENABLE bit only for the all-clear byte |
| PulseDevice.OnIrq | recipes-kernel/pulsecap/files/pulsecap.c:153-227 | an interrupt keeps the target and the array's bounds, changes no flag but DONE, and with the gate shut changes nothing (what it stores: WriteStaysInside, CellsAreInterrupts) |
| PulseDevice.TracksStepFilling | recipes-kernel/pulsecap/files/pulsecap.c:165-216 | one interrupt keeps pointer and cells equal to the filter of the edges offered, and sets DONE exactly when the filter passes the goal |
| PulseDevice.TracksStepFull | recipes-kernel/pulsecap/files/pulsecap.c:165-216 | after a full capture has lost its DONE one interrupt keeps pointer and cells equal to the filter, and sets DONE exactly if its edge would follow the last one kept |
| PulseDevice.CaptureClosedForm | recipes-kernel/pulsecap/files/pulsecap.c:165-216 | for every interrupt sequence after the pointer is cleared, the whole device is a closed form of the filtered history: the first goal+1 transitions over the old cells, the pointer stopped at the goal, DONE exactly past it |
| PulseDevice.ChangesAreTransitions | recipes-kernel/pulsecap/files/pulsecap.c:165-215 | the kept edges are those of the interrupts at which T0INT changes, beginning with the first that has it set, each with the count of TLR0 if it is set and of TLR1 if not |
| PulseDevice.CellsAreInterrupts | recipes-kernel/pulsecap/files/pulsecap.c:165-216 | after any interrupts since the pointer was cleared the cells hold, in order, level and load register of those interrupts, up to the one that completes the capture; pointer and DONE count them |
| PulseDevice.WriteStaysInside | recipes-kernel/pulsecap/files/pulsecap.c:184-213 | a write lands at most one past the target, changes that one cell only, stores HIGH with TLR0 if T0INT is set and LOW with TLR1 if not, and reaches the cell past the array exactly when it completes a capture of maximal target |
| PulseMachine.ActKeeps | recipes-kernel/pulsecap/files/pulsecap.c:248-310 | every single statement of start, cancel and read-out, and every interrupt between statements, keeps an invariant with a clause for each statement |
| PulseRuns.RunKeeps | recipes-kernel/pulsecap/files/pulsecap.c:153-310 | the invariant holds in every state of every run |
| PulseRuns.OpenGateHoldsTransitions | recipes-kernel/pulsecap/files/pulsecap.c:252-276 | in every reachable state, inside calls too, an open gate means that pointer and cells are the filter of what was offered since the pointer was cleared: HIGH first, alternating |
| PulseRuns.EveryWrite | recipes-kernel/pulsecap/files/pulsecap.c:184-213 | in every run each handler write is at most one past the target, and leaves the C array exactly when it completes a capture of the maximal target |
| PulseRuns.BetweenCalls | recipes-kernel/pulsecap/files/pulsecap.c:282-328 | between calls of every run DONE implies ENABLE, ENABLE and CANCELLED exclude each other and one is set exactly after the first start; only before it cancel refuses and the count query falls through; otherwise the count is the filter's; the state is idle without ENABLE, and with it done exactly if the filter has passed the goal and, where start had wiped out a first DONE, an edge to follow the last one kept has come since |
| PulseRuns.ReadsAreRecent | recipes-kernel/pulsecap/files/pulsecap.c:330-354 | although the array is never cleared, what a read returns is, position by position, the count of the edge that the filter kept at that position since the pointer was cleared, and as many as were asked for, captured and meant to be captured |
| PulseRuns.ReadsAgree | recipes-kernel/pulsecap/files/pulsecap.c:330-354 | two reads agree whatever interrupts arrive between them |
| PulseRuns.CompleteKeeps | recipes-kernel/pulsecap/files/pulsecap.c:248-310 | a whole call, with any interrupts before each of its statements, keeps the invariant |
| PulseRuns.DeliverReflects | recipes-kernel/pulsecap/files/pulsecap.c:165-216 | any interrupts after start has opened the gate keep the machine's record in step with all that really arrived, whether or not the gate let it in |
| PulseOverrun.CompleteIsRun | recipes-kernel/pulsecap/files/pulsecap.c:248-310 | a whole call with interrupts before each of its statements is one of the runs |
| PulseOverrun.CompletingWrite | recipes-kernel/pulsecap/files/pulsecap.c:190-203 | for every admitted target of at least one, a first start with that target and as many alternating edges lead to a state in which the edge that completes the capture is written one past the target |
| PulseOverrun.ArrayIsKeptIff | recipes-kernel/pulsecap/files/pulsecap.c:190-203 | over all runs, no capture of n admitted edges writes past the array exactly if n is below the admitted maximum |
| PulseOverrun.ArrayIsLeft | recipes-kernel/pulsecap/files/pulsecap.c:190-203 | so some run reaches a state in which the handler writes past the array |
| PulseCalls.StartAdmission | recipes-kernel/pulsecap/files/pulsecap.c:248-260 | start returns EBUSY exactly if the running capture has not finished by the second test, EINVAL exactly if admitted with too large a count; a refusal changes nothing |
| PulseCalls.CaptureOutcome | recipes-kernel/pulsecap/files/pulsecap.c:262-278 | an admitted start returns 0, and at every later time pointer and cells are the filter of all edges offered since the gate opened, including those that came during start; DONE says that the filter has passed the goal and, if the capture completed before start cleared DONE, that an edge to follow the last one kept has come since the clearing |
| PulseCalls.EarlyCompletionIsLost | recipes-kernel/pulsecap/files/pulsecap.c:270-271 | at every later time before the next call DONE is right exactly if the capture did not complete between the two statements or an edge to follow the last one kept has come since |
| PulseCalls.LostCompletionExample | recipes-kernel/pulsecap/files/pulsecap.c:270-271 | a first capture of one edge that is complete and reported as running, until the next falling edge |
| PulseCalls.CancelOutcome | recipes-kernel/pulsecap/files/pulsecap.c:294-310 | cancel returns EIO exactly before the first start; otherwise it ends CANCELLED with the pointer and cells of the moment it dropped ENABLE |
| PulseCalls.CancelKeepsFinishedReads | recipes-kernel/pulsecap/files/pulsecap.c:302-309 | cancelling a finished capture leaves every read unchanged exactly if the target was at least one |
| PulseCalls.ReadOutOutcome | recipes-kernel/pulsecap/files/pulsecap.c:424-437 | a read-out changes nothing but EDGES_READ, and that only if there was something to read |
| PulseCapture.Capture.constructor | recipes-kernel/pulsecap/files/pulsecap.c:545-552 | a zeroed instance, flags, pointer and target included, is the initial state |
| PulseCapture.Capture.TimerIrq | recipes-kernel/pulsecap/files/pulsecap.c:153-227 | the handler on the driver's array and flag byte is the machine's interrupt step |
| PulseCapture.Capture.StartCapture | recipes-kernel/pulsecap/files/pulsecap.c:248-279 | start, with interrupts before every statement, ends in the state and with the code of the machine's call |
| PulseCapture.Capture.CancelCapture | recipes-kernel/pulsecap/files/pulsecap.c:294-310 | cancel likewise |
| PulseCapture.Capture.EdgesCaptured | recipes-kernel/pulsecap/files/pulsecap.c:282-291 | with interrupts after each test, returns the count, or falls through, as BetweenCalls describes for the state after them |
| PulseCapture.Capture.GetState | recipes-kernel/pulsecap/files/pulsecap.c:313-327 | with interrupts between its tests, returns idle, running or done as the flags say after them |
| PulseCapture.Capture.ReadEdges | recipes-kernel/pulsecap/files/pulsecap.c:330-354 | copies exactly the counts readable at the call, each from the cell of the same position, although interrupts arrive between the copies, and touches nothing behind them; or refuses and writes nothing |
| PulseCapture.Capture.EdgeDataShow | recipes-kernel/pulsecap/files/pulsecap.c:424-437 | reads what the target asks for, returns four bytes an edge, and marks the edges read |
| FloppyWave.StepMovesOnce | recipes-kernel/kswfloppy/files/kswfloppy.c:135-165 | on a drive fed only the waveform, one floppy_step is exactly one move, in its direction, if the drive is selected |
| FloppyWave.StepIsTimely | recipes-kernel/kswfloppy/files/kswfloppy.c:139-164 | appending a step to a timely waveform keeps all its pulses timely |
| FloppyWave.TimelyByTheClock | recipes-kernel/kswfloppy/files/kswfloppy.c:139-164 | on every real schedule of a timely waveform steps are at least 3010 us apart, DIR is settled for 1 us before and throughout each pulse, and STEP stays high for 8 us |
| FloppyWire.StepOnTheWire | recipes-kernel/kswfloppy/files/kswfloppy.c:135-165 | a step writes its direction to line 4, high for inward, and low, high, low to line 5, no other line, and takes at least 3010 us |
| FloppyWire.HomeOnTheWire | recipes-kernel/kswfloppy/files/kswfloppy.c:167-187 | a homing writes to line 1 high and low, to lines 4 and 5 what HomeSteps outward steps write, to no other line, and takes 3010 us a step and 2 |
| FloppyWire.SeekOnTheWire | recipes-kernel/kswfloppy/files/kswfloppy.c:189-206 | a seek that is not homed or is beyond track 79 does nothing at all; any other writes high and low to line 1, one step in the right direction for each track, nothing else, and takes 3010 us a track and 2 |
| FloppyWire.DumpOnTheWire | recipes-kernel/kswfloppy/files/kswfloppy.c:212-272 | a dump beyond track 79 does nothing at all; any other writes, after its seek, high and low to lines 1 and 3 only, and takes one microsecond a sample and 4 |
| FloppyWire.OnlyFourLines | recipes-kernel/kswfloppy/files/kswfloppy.c:107-272 | in every run each of the fifteen lines is driven low once, and after that no line but 1, 3, 4 and 5 is written, the write gate included |
| FloppyWire.RunIsOrderly | recipes-kernel/kswfloppy/files/kswfloppy.c:107-272 | in every run, whatever TRK00 answers, STEP rises only while the drive is selected with its motor off, the motor is turned on only while the drive is selected, and the drive is deselected only with the motor off |
| FloppyControl.FreshSettles | recipes-kernel/kswfloppy/files/kswfloppy.c:107-113 | once all fifteen lines have been driven low the drive is deselected and at rest and the waveform is timely, wherever the head is |
| FloppyControl.RunIsTimely | recipes-kernel/kswfloppy/files/kswfloppy.c:135-272 | the waveform of every sequence of home, seek and dump is timely, whatever the drive answers |
| FloppyControl.HomeSteps | recipes-kernel/kswfloppy/files/kswfloppy.c:168-185 | the least number of steps, up to 100, after which TRK00 reads asserted, else 101 |
| FloppyControl.HomeStepsIsHead | recipes-kernel/kswfloppy/files/kswfloppy.c:167-187 | on a faithful drive homing takes as many steps as the head is from track 0, however wrong the counter is, and is stuck exactly beyond 100 |
| FloppyControl.HomeSettles | recipes-kernel/kswfloppy/files/kswfloppy.c:167-187 | homing leaves the drive deselected and the counter on the head's track whenever homed; within reach it ends homed on track 0, beyond it leaves HOMED as it was |
| FloppyControl.SeekSettles | recipes-kernel/kswfloppy/files/kswfloppy.c:189-206 | a homed seek in range puts the physical head on the track asked for and deselects the drive |
| FloppyControl.SeekNeverOvershoots | recipes-kernel/kswfloppy/files/kswfloppy.c:197-203 | each step of a seek brings the counter one nearer the track and one further from where it began; it takes just as many as it was away |
| FloppyControl.MidwayCounterIsHead | recipes-kernel/kswfloppy/files/kswfloppy.c:141-151 | in the middle of a seek or a homing from a homed state the counter is the head's track below 80, and no step meets a saturated counter or a stopped head |
| FloppyControl.HomingIsSteps | recipes-kernel/kswfloppy/files/kswfloppy.c:167-187 | on a faithful drive a homing from a homed state is the select, as many outward steps as the counter says, and the deselect |
| FloppyWire.HomePulses | recipes-kernel/kswfloppy/files/kswfloppy.c:167-187 | for every TRK00, honest or not, and every drive: homing gives exactly as many STEP pulses as are needed until TRK00 reads asserted and ends homed with the counter at 0, or gives 101, leaves HOMED and lowers the counter by 101, not below 0 |
| FloppyControl.DumpSettles | recipes-kernel/kswfloppy/files/kswfloppy.c:212-272 | a dump leaves the drive deselected with its motor off, and the head on the track asked for exactly if it was homed or there already |
| FloppyControl.SampledTrack | recipes-kernel/kswfloppy/files/kswfloppy.c:221-263 | when each sample is taken the drive is selected with its motor on, and its head is on the track asked for exactly if the drive was homed or the head was there already |
| FloppyControl.RunSettles | recipes-kernel/kswfloppy/files/kswfloppy.c:167-272 | every sequence of operations on a faithful drive leaves it deselected, with its motor off and STEP low, and its head on the counter's track if homed |
| FloppyControl.CounterIsHead | recipes-kernel/kswfloppy/files/kswfloppy.c:135-272 | after every sequence of operations on a faithful drive of at least 80 tracks, wherever its head began, a homed counter is the track on which a drive fed only the waveform stands |
| FloppyControl.ProbeEndsHome | recipes-kernel/kswfloppy/files/kswfloppy.c:353-362 | probe takes each of its samples with the drive selected, its motor on and the head on track 40, and ends homed with counter and head on track 0 |
| FloppySampler.PollsOneRevolution | recipes-kernel/kswfloppy/files/kswfloppy.c:228-263 | for every stream of readings the state machine samples the turns after the first index assertion up to, not including, the first assertion after a deassertion, and ends exactly on streams that show both |
| FloppySampler.PackRoundTrip | recipes-kernel/kswfloppy/files/kswfloppy.c:249-255 | as meant: unpacking the complete bytes, least significant bit first, gives back the samples up to the last multiple of eight |
| FloppySampler.PackedBit | recipes-kernel/kswfloppy/files/kswfloppy.c:249-255 | as meant: bit b of byte k is sample 8k + b |
| FloppySampler.DumpHoldsSamplesIff | recipes-kernel/kswfloppy/files/kswfloppy.c:250-255 | as written: a zeroed buffer ends up with the packed samples exactly if all complete groups of samples are low |
| FloppySampler.ZeroedAtStores | recipes-kernel/kswfloppy/files/kswfloppy.c:250-255 | as written: the cells the stores go to are zero afterwards and all others as before |
| FloppySampler.DumpFits | recipes-kernel/kswfloppy/files/kswfloppy.c:80 | the stores of the dump stay inside the driver's own buffer exactly for fewer than 128008 samples; otherwise store 16000 is the first outside, right behind it |
| FloppyDriver.Driver.constructor | recipes-kernel/kswfloppy/files/kswfloppy.c:287-289 | a zeroed instance whose fifteen lines have been driven low |
| FloppyDriver.Driver.Step | recipes-kernel/kswfloppy/files/kswfloppy.c:135-165 | emits the step waveform and moves the saturating counter |
| FloppyDriver.Driver.HomeHead | recipes-kernel/kswfloppy/files/kswfloppy.c:167-187 | the loop with its stuck counter ends, and is the closed form Home for every TRK00 behaviour |
| FloppyDriver.Driver.SeekTrack | recipes-kernel/kswfloppy/files/kswfloppy.c:189-206 | the loop ends, with all steps in one direction and as many as the counter was away; refused seeks emit nothing |
| FloppyDriver.Driver.DumpTrack | recipes-kernel/kswfloppy/files/kswfloppy.c:212-272 | seeks, samples one revolution of any length, zeroes the even cells below twice the byte count and no other, stores where StorePositions says, reports twice the byte count modulo 2^32, and what the accumulator held at each clearing is the packed samples; a track out of range is refused and changes nothing |
| FloppyDriver.Driver.Sample | recipes-kernel/kswfloppy/files/kswfloppy.c:228-263 | the polling loop ends on every stream with a whole revolution, waits once for each sample, and stores where StorePositions says |
| DmaLayout.EntryIsPadded | recipes-kernel/dma-proxy/files/dma-proxy.h:37-41 | the entry size is the least multiple of 1024 that holds buffer, status and length |
| DmaLayout.HandleIsExact | recipes-kernel/dma-proxy/files/dma-proxy.c:526-528 | descriptor bd is given the buffer 132096 * bd bytes into the allocation, which is the one right before its own status and length words |
| DmaLayout.TransfersApart | recipes-kernel/dma-proxy/files/dma-proxy.c:526-528 | transfers of different descriptors, no longer than a buffer, never overlap |
| DmaLayout.ConfinedIff | recipes-kernel/dma-proxy/files/dma-proxy.c:199-200 | a transfer stays inside the allocation and off all status and length words exactly if its length is at most the buffer size |
| DmaChannel.OperationsStayApart | recipes-kernel/dma-proxy/files/dma-proxy.c:188-253 | to every other descriptor an operation is exactly what the engine does meanwhile: cookie, scatter entry, handle, signal count and shared words come out the same as without it |
| DmaRuns.FinishVerdict | recipes-kernel/dma-proxy/files/dma-proxy.c:231-253 | FINISH of a transfer that was started with nothing owed writes that transfer's own outcome, or TIMEOUT exactly if its callback has not come by then, also when an earlier FINISH has timed out; with nothing outstanding it writes TIMEOUT |
| DmaRuns.RunIsSound | recipes-kernel/dma-proxy/files/dma-proxy.c:176-253 | an invariant on cookies, outstanding callbacks and signal counts of all 32 descriptors holds after every interleaving of operations and engine events; a descriptor is exempt from its clauses on callbacks and signals only from a start with an earlier callback owed to the next start without |
| DmaRuns.SettledStatusIsOwn | recipes-kernel/dma-proxy/files/dma-proxy.c:241-252 | after every run a descriptor whose last transfer was started with nothing owed and finished on its callback, at once or after timeouts, shows that transfer's own outcome |
| DmaRuns.UseIsPhase | recipes-kernel/dma-proxy/files/dma-proxy.c:360-385 | a caller who starts no transfer before the last accepted one has been reported, repeating FINISH after a timeout, always ends settled after a report |
| DmaRuns.InTimeIsCalled | recipes-kernel/dma-proxy/files/dma-proxy.c:231-252 | a FINISH ends a use exactly if the engine has run the callback of that use's transfer before the status is asked for; otherwise the use goes on |
| DmaRuns.XferInTimeIsCalled | recipes-kernel/dma-proxy/files/dma-proxy.c:360-385 | likewise a use that is one XFER |
| DmaRuns.OrderDoesNotMatter | recipes-kernel/dma-proxy/files/dma-proxy.c:360-385 | two such uses of a descriptor, in any two runs, batch or one by one, with any use of the others in between and FINISH repeated after timeouts, leave the same status once reported if the outcomes are the same |
| DmaRuns.NoErrorMeansComplete | recipes-kernel/dma-proxy/files/dma-proxy.c:241-252 | in every run, late callbacks included, FINISH writes NO_ERROR only if the cookie the descriptor holds is that of a transfer of its own which has completed well, or if it is the error cookie of a failed submission and the engine claims it is complete |
| DmaRuns.XferReportsItsOwnIff | recipes-kernel/dma-proxy/files/dma-proxy.c:215-252 | XFER of an accepted transfer reports on that transfer, for everything the engine may do before and after the submission, exactly if no earlier transfer of the descriptor still owes a callback |
| DmaRuns.StartFinishReportsItsOwnIff | recipes-kernel/dma-proxy/files/dma-proxy.c:360-385 | in every run an accepted START and its FINISH report on their own transfer, for everything the engine and the other descriptors may do before, between and during them, exactly if no earlier transfer of the descriptor owes a callback at the start |
| DmaRuns.RefusedSubmitIff | recipes-kernel/dma-proxy/files/dma-proxy.c:215-252 | XFER with a failed submission reports TIMEOUT, for everything the engine may do, exactly if no earlier transfer of the descriptor owes a callback; it never reports NO_ERROR exactly if that is so or the engine does not claim the error cookie |
| DmaRuns.RefusedPrepIff | recipes-kernel/dma-proxy/files/dma-proxy.c:202-252 | XFER with a failed preparation reports TIMEOUT, for everything the engine may do, exactly if no signal waits on the descriptor and no transfer of it owes a callback |
| DmaRuns.WrongNoErrorHappens | recipes-kernel/dma-proxy/files/dma-proxy.c:217-252 | on every new channel, with an engine that takes the error cookie for complete, three operations end with NO_ERROR although the only transfer ever accepted has failed |
| DmaRuns.StaleReportHappens | recipes-kernel/dma-proxy/files/dma-proxy.c:202-252 | on every new channel three operations end with a refused XFER that reports the outcome of an earlier transfer |
| DmaRuns.LateCallback | recipes-kernel/dma-proxy/files/dma-proxy.c:176-182 | a callback owed by an earlier transfer makes FINISH report ERROR for a transfer that still runs |
| DmaRuns.LateCallbackHappens | recipes-kernel/dma-proxy/files/dma-proxy.c:176-182 | on every new channel a transfer given up after a timeout and one XFER more can end with ERROR for the second transfer, which still runs |
| DmaRuns.EngineStaysInBuffers | recipes-kernel/dma-proxy/files/dma-proxy.c:198-203 | in every run with lengths up to the buffer size all transfers are confined to their own buffers and pairwise apart between descriptors |
| DmaRequests.StartQueues | recipes-kernel/dma-proxy/files/dma-proxy.c:198-217 | an accepted start queues exactly one transfer, with its descriptor's buffer address and the length its word holds; a refused one queues none; all others stay as they were |
| DmaRequests.QueueIsRequests | recipes-kernel/dma-proxy/files/dma-proxy.c:198-217 | in every run the engine is asked, in order, for exactly what the accepted starts ask for: each for its descriptor's buffer and the length user space wrote last before that start |
| DmaSignals.ApplyConserves | recipes-kernel/dma-proxy/files/dma-proxy.c:176-182 | no engine event makes or loses a signal: waiting plus owed is constant for every descriptor |
| DmaSignals.StartSignals | recipes-kernel/dma-proxy/files/dma-proxy.c:205-217 | an accepted start leaves what is owed and one more, a failed submission what is owed; a failed preparation, or a start elsewhere, changes nothing |
| DmaSignals.FinishSignals | recipes-kernel/dma-proxy/files/dma-proxy.c:231-252 | FINISH uses up one signal of its own descriptor exactly if it does not report TIMEOUT, and none elsewhere |
| DmaSignals.ReportsAreBacked | recipes-kernel/dma-proxy/files/dma-proxy.c:176-252 | in every run, with late callbacks and refused attempts, a descriptor has an accepted transfer for each report but TIMEOUT and each signal waiting or owed, save what its completion held before anything was submitted |
| DmaProxy.Channel.constructor | recipes-kernel/dma-proxy/files/dma-proxy.c:526-533 | the loop gives each descriptor its buffer's address and changes nothing else |
| DmaProxy.Channel.EngineEvent | recipes-kernel/dma-proxy/files/dma-proxy.c:176-182 | a callback signals the completion the transfer was started with |
| DmaProxy.Channel.StartTransfer | recipes-kernel/dma-proxy/files/dma-proxy.c:188-227 | start_transfer on arrays, with engine events before the submission, is Start (what it submits: DmaRequests.StartQueues) and writes no status |
| DmaProxy.Channel.WaitForCompletion | recipes-kernel/dma-proxy/files/dma-proxy.c:241 | consumes one signal as soon as there is one, or runs into the deadline |
| DmaProxy.Channel.WaitForTransfer | recipes-kernel/dma-proxy/files/dma-proxy.c:231-253 | wait_for_transfer on arrays is Finish; it writes BUSY before anything the engine does meanwhile, and the verdict after all of it |
| DmaProxy.Channel.Ioctl | recipes-kernel/dma-proxy/files/dma-proxy.c:360-385 | each command does its transfer steps on the descriptor it names, with status writes and engine events in that order; an unknown one, with whatever index, touches no descriptor |
| AxiMux.SetSrcBit | recipes-kernel/aximux/files/aximux.c:91-94 | a call sets bit `port` of the register to its own source, and leaves the bits of the other ports |
| AxiMux.FirstBit | recipes-kernel/aximux/files/aximux.c:91-94 | on a register of 0 a call leaves 1 << port, or 0 |
| AxiMux.HighPort | recipes-kernel/aximux/files/aximux.c:91-94 | a call on ports 8 to 31 writes back what it read |
| AxiMux.RegisterIsMap | recipes-kernel/aximux/files/aximux.c:85-105 | after any calls on ports 0 to 31 each bit of the low byte, read off by shifting the register, is the source last asked for on the port of that number |
| AxiMux.AximuxSetSrc | recipes-kernel/aximux/files/aximux.c:85-95 | read, modify and write of the register is SetSrc; no device, no effect |
| AxiMux.AximuxGetSrc | recipes-kernel/aximux/files/aximux.c:98-105 | reads 1 or 0 as bit `port` of the register is set, which is 0 on ports the register lacks |
| AxiMux.SrcStore | recipes-kernel/aximux/files/aximux.c:109-130 | refuses values above the mask without effect, sets the port otherwise |

## Left out

- PulseDevice.WriteStaysInside: the write past the array at the maximal target has no meaning in C.
  The model gives it a cell of its own behind the array; in the C struct the pointer and target words
  lie there, and what happens to them is not modelled.
- PulseDevice.CaptureClosedForm: likewise, for the maximal target once the capture is complete.
- PulseRuns.BetweenCalls: likewise; the count after such a completion is the pointer that may be
  overwritten.
- PulseCalls.CaptureOutcome: likewise.
- AxiMux.AximuxSetSrc: ports of 32 and above, for which the C shift is undefined.
- DmaProxy.Channel.Ioctl: a transfer command with an index outside the table, which the driver does
  not check and which has no meaning in C, and a copy_from_user that fails.
- DmaProxy.Channel.WaitForCompletion: a FINISH before any submission waits on memory no one has
  initialised; the model lets it hold any count and claims nothing about the result.
- FloppyDriver.Driver.DumpTrack: a store past the buffer has no meaning in C; the model records where
  it would go and changes nothing. On a stream that never shows a whole revolution the driver polls
  for ever; PollsOneRevolution covers such streams up to any turn, the method only those that end.
- FloppyDriver.Driver.Sample: likewise.
- The AXI timer itself: whether it stops when told to, and the interrupt bits it holds. The driver's
  own gate decides which interrupts count.
- Memory ordering between processors, and torn updates of the flags byte.
- Null handles of pulsecap and aximux's null destination: a method has a receiver and a result.
- Engine internals, cache coherency, mmap and the loopback self-test of dma-proxy.
- Probe, remove, sysfs naming and device-tree code of all four drivers, apart from the order in which
  the floppy probe homes, dumps and homes again: registration calls without state of their own.
- The boot hooks, register tables and the PWM web page: vendor calls and constant tables.
