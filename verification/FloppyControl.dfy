/** What homing, seeking and dumping a track do, and how the track counter follows the head. */
module FloppyControl {
  import opened FloppyWave
  import opened FloppySampler

  const TRACKS: nat := 80
  const STUCK_LIMIT: nat := 100

  const ENABLE := [Set(SIG_DRVSB, true), Wait(1)]
  const DISABLE := [Set(SIG_DRVSB, false), Wait(1)]
  const SPIN_ON := [Set(SIG_MOTEB, true), Wait(1)]
  const SPIN_OFF := [Set(SIG_MOTEB, false), Wait(1)]

  /** The driver's state, and the waveform it has emitted so far. */
  datatype Floppy = Floppy(curTrack: nat, homed: bool, log: seq<Event>)

  /** TRK00 as the driver reads it. It may depend in any way on all that was emitted before. */
  type Sense = seq<Event> -> bool

  function Emit(f: Floppy, events: seq<Event>): Floppy { f.(log := f.log + events) }

  /** floppy_step; the counter saturates at both ends. */
  function StepOnce(f: Floppy, inward: bool): Floppy {
    var cur := if inward then if f.curTrack < TRACKS then f.curTrack + 1 else f.curTrack
               else if f.curTrack > 0 then f.curTrack - 1 else f.curTrack;
    Emit(f.(curTrack := cur), StepLog(inward))
  }

  function Stepped(f: Floppy, inward: bool, k: nat): Floppy {
    if k == 0 then f else StepOnce(Stepped(f, inward, k - 1), inward)
  }

  function Lower(cur: nat, k: nat): nat { if cur >= k then cur - k else 0 }

  /** The least number of outward steps, from k on, after which TRK00 reads asserted; one more
      than the limit if that takes too many. */
  function HomeSteps(sense: Sense, log: seq<Event>, k: nat): (r: nat)
    requires k <= STUCK_LIMIT + 1
    ensures k <= r <= STUCK_LIMIT + 1
    ensures r <= STUCK_LIMIT ==> sense(log + Steps(false, r))
    ensures forall j :: k <= j < r ==> !sense(log + Steps(false, j))
    decreases STUCK_LIMIT + 1 - k
  {
    if k > STUCK_LIMIT || sense(log + Steps(false, k)) then k else HomeSteps(sense, log, k + 1)
  }

  lemma HomeStepsTurn(sense: Sense, log: seq<Event>, k: nat)
    requires k <= STUCK_LIMIT + 1
    ensures HomeSteps(sense, log, k) ==
            if k > STUCK_LIMIT || sense(log + Steps(false, k)) then k
            else HomeSteps(sense, log, k + 1)
  {
  }

  lemma NoSteps(log: seq<Event>, inward: bool)
    ensures log == log + Steps(inward, 0)
  {
  }

  lemma StepsSnoc(log: seq<Event>, inward: bool, k: nat)
    ensures log + Steps(inward, k + 1) == log + Steps(inward, k) + StepLog(inward)
  {
  }

  /** floppy_home: as many steps as TRK00 asks for, and HOMED on track 0; or 101 steps, and
      HOMED as it was. */
  function Home(f: Floppy, sense: Sense): Floppy {
    var log := f.log + ENABLE;
    var k := HomeSteps(sense, log, 0);
    if k <= STUCK_LIMIT then
      Floppy(0, true, log + Steps(false, k) + DISABLE)
    else
      Floppy(Lower(f.curTrack, k), f.homed, log + Steps(false, k) + DISABLE)
  }

  function Distance(a: nat, b: nat): nat { if a >= b then a - b else b - a }

  /** floppy_seek: all steps in one direction, and just as many as the counter is away; nothing
      at all if not homed or out of range. */
  function Seek(f: Floppy, track: nat): Floppy {
    if track > TRACKS - 1 || !f.homed then
      f
    else
      Floppy(track, true,
             f.log + ENABLE + Steps(f.curTrack < track, Distance(f.curTrack, track)) + DISABLE)
  }

  function Waits(k: nat): (r: seq<Event>)
    ensures |r| == k && forall i :: 0 <= i < k ==> r[i] == Wait(1)
  {
    seq(k, _ => Wait(1))
  }

  /** floppy_dump_track on a stream that shows a whole revolution: one microsecond's wait for
      every sample. It spins and samples even if the seek was refused for want of homing. */
  function Dump(f: Floppy, track: nat, readings: seq<Reading>): Floppy {
    if track > TRACKS - 1 then f
    else
      Emit(Seek(f, track), ENABLE + SPIN_ON + Waits(|Samples(readings)|) + SPIN_OFF + DISABLE)
  }

  /** The waveform of such a dump up to its k-th sample. */
  function Sampling(f: Floppy, track: nat, k: nat): seq<Event> {
    Seek(f, track).log + ENABLE + SPIN_ON + Waits(k)
  }

  // ---- Runs ----

  datatype Op = HomeOp | SeekOp(track: nat) | DumpOp(track: nat, readings: seq<Reading>)

  function Do(f: Floppy, sense: Sense, op: Op): Floppy {
    match op
    case HomeOp => Home(f, sense)
    case SeekOp(track) => Seek(f, track)
    case DumpOp(track, readings) => Dump(f, track, readings)
  }

  function RunOps(f: Floppy, sense: Sense, ops: seq<Op>): Floppy {
    if ops == [] then f else Do(RunOps(f, sense, ops[..|ops| - 1]), sense, ops[|ops| - 1])
  }

  /** After deassert_all, which drives all fifteen lines low. */
  function LinesLow(k: nat): seq<Event> {
    if k == 0 then [] else LinesLow(k - 1) + [Set(k - 1, false)]
  }

  function Fresh(): Floppy { Floppy(0, false, LinesLow(SIG_COUNT) + [Wait(1)]) }

  // ---- The counter and the head ----

  /** The drive reports track 0 while it is selected, and truthfully. */
  ghost predicate Faithful(d: Drive, sense: Sense) {
    forall log :: sense(log) <==> Watch(d, log).select && Watch(d, log).head == 0
  }

  /** Between operations the drive is deselected with its motor off, and a homed counter is the
      head's track. */
  predicate Settled(d: Drive, f: Floppy) {
    var p := Watch(d, f.log);
    && !p.select && !p.motor && !p.step && p.head <= d.stop && f.curTrack <= TRACKS
    && (f.homed ==> f.curTrack == p.head < TRACKS)
  }

  /** k steps of a selected drive. */
  lemma {:induction false} WatchSteps(d: Drive, log: seq<Event>, inward: bool, k: nat)
    requires Watch(d, log).select && !Watch(d, log).step && Watch(d, log).head <= d.stop
    ensures var p, r := Watch(d, log), Watch(d, log + Steps(inward, k));
            r == Pins(true, p.motor, if k == 0 then p.dir else inward, false,
                      if inward then if p.head + k <= d.stop then p.head + k else d.stop
                      else Lower(p.head, k), p.moves + k)
  {
    hide Watch;
    if k == 0 {
      assert log + [] == log;
    } else {
      WatchSteps(d, log, inward, k - 1);
      StepMovesOnce(d, log + Steps(inward, k - 1), inward);
      assert log + Steps(inward, k) == log + Steps(inward, k - 1) + StepLog(inward);
    }
  }

  lemma WatchTwo(d: Drive, log: seq<Event>, line: nat, high: bool)
    ensures Watch(d, log + [Set(line, high), Wait(1)]) == Tick(d, Watch(d, log), Set(line, high))
  {
    hide Watch;
    WatchSnoc(d, log, Set(line, high));
    WatchSnoc(d, log + [Set(line, high)], Wait(1));
    assert log + [Set(line, high), Wait(1)] == log + [Set(line, high)] + [Wait(1)];
  }

  lemma {:induction false} WatchWaits(d: Drive, log: seq<Event>, k: nat)
    ensures Watch(d, log + Waits(k)) == Watch(d, log)
  {
    hide Watch;
    if k == 0 {
      assert log + Waits(0) == log;
    } else {
      WatchWaits(d, log, k - 1);
      WatchSnoc(d, log + Waits(k - 1), Wait(1));
      assert log + Waits(k) == log + Waits(k - 1) + [Wait(1)];
    }
  }

  /** TRK00 after k outward steps of a selected drive at rest. */
  lemma SenseAfterSteps(d: Drive, sense: Sense, log: seq<Event>, k: nat)
    requires Faithful(d, sense)
    requires Watch(d, log).select && !Watch(d, log).step && Watch(d, log).head <= d.stop
    ensures sense(log + Steps(false, k)) <==> Watch(d, log).head <= k
  {
    hide Watch;
    WatchSteps(d, log, false, k);
  }

  /** On a faithful drive homing takes as many steps as the head is away from track 0, however
      wrong the counter is, if that is at most the limit. */
  lemma HomeStepsIsHead(d: Drive, f: Floppy, sense: Sense)
    requires Faithful(d, sense) && Settled(d, f)
    ensures var head := Watch(d, f.log).head;
            HomeSteps(sense, f.log + ENABLE, 0)
            == if head <= STUCK_LIMIT then head else STUCK_LIMIT + 1
  {
    hide Watch, Steps, Faithful;
    var log, head := f.log + ENABLE, Watch(d, f.log).head;
    var r := HomeSteps(sense, log, 0);
    WatchTwo(d, f.log, SIG_DRVSB, true);
    SenseAfterSteps(d, sense, log, r);
    SenseAfterSteps(d, sense, log, head);
  }

  lemma HomeSettles(d: Drive, f: Floppy, sense: Sense)
    requires Faithful(d, sense) && Settled(d, f)
    ensures var head, r := Watch(d, f.log).head, Home(f, sense);
            && Settled(d, r)
            && r.homed == (f.homed || head <= STUCK_LIMIT)
            && (head <= STUCK_LIMIT ==> r.curTrack == 0 && Watch(d, r.log).head == 0)
  {
    hide Watch;
    var log := f.log + ENABLE;
    var k := HomeSteps(sense, log, 0);
    HomeStepsIsHead(d, f, sense);
    WatchTwo(d, f.log, SIG_DRVSB, true);
    WatchSteps(d, log, false, k);
    WatchTwo(d, log + Steps(false, k), SIG_DRVSB, false);
  }

  lemma SeekSettles(d: Drive, f: Floppy, track: nat)
    requires Settled(d, f) && d.stop >= TRACKS - 1
    ensures Settled(d, Seek(f, track))
    ensures f.homed && track < TRACKS ==> Watch(d, Seek(f, track).log).head == track
  {
    hide Watch;
    if track < TRACKS && f.homed {
      var log := f.log + ENABLE;
      var inward, k := f.curTrack < track, Distance(f.curTrack, track);
      WatchTwo(d, f.log, SIG_DRVSB, true);
      WatchSteps(d, log, inward, k);
      WatchTwo(d, log + Steps(inward, k), SIG_DRVSB, false);
    }
  }

  /** From the seek to the last sample the drive only sees its select and motor lines change. */
  lemma SamplingQuiet(d: Drive, f: Floppy, track: nat, k: nat)
    ensures Watch(d, Sampling(f, track, k)) ==
            Watch(d, Seek(f, track).log).(select := true, motor := true)
  {
    hide Watch;
    var log := Seek(f, track).log;
    WatchTwo(d, log, SIG_DRVSB, true);
    WatchTwo(d, log + ENABLE, SIG_MOTEB, true);
    WatchWaits(d, log + ENABLE + SPIN_ON, k);
  }

  /** All samples are taken from a selected, spinning drive. The head is then on the track asked
      for exactly if the drive was homed or its head happened to be there already. */
  lemma SampledTrack(d: Drive, f: Floppy, track: nat, readings: seq<Reading>, k: nat)
    requires Settled(d, f) && d.stop >= TRACKS - 1 && track < TRACKS && k <= |Samples(readings)|
    ensures Sampling(f, track, k) <= Dump(f, track, readings).log
    ensures var p := Watch(d, Sampling(f, track, k));
            && p.select && p.motor
            && (p.head == track <==> f.homed || Watch(d, f.log).head == track)
  {
    hide Watch, Samples;
    SeekSettles(d, f, track);
    var log, n := Seek(f, track).log, |Samples(readings)|;
    SamplingQuiet(d, f, track, k);
    assert Waits(n) == Waits(k) + Waits(n - k);
    assert Dump(f, track, readings).log
        == Sampling(f, track, k) + (Waits(n - k) + SPIN_OFF + DISABLE);
  }

  lemma DumpSettles(d: Drive, f: Floppy, track: nat, readings: seq<Reading>)
    requires Settled(d, f) && d.stop >= TRACKS - 1
    ensures Settled(d, Dump(f, track, readings))
    ensures track < TRACKS ==>
              (Watch(d, Dump(f, track, readings).log).head == track
               <==> f.homed || Watch(d, f.log).head == track)
  {
    hide Watch, Samples;
    SeekSettles(d, f, track);
    if track < TRACKS {
      var n := |Samples(readings)|;
      var l3 := Sampling(f, track, n);
      var l4 := l3 + SPIN_OFF;
      SampledTrack(d, f, track, readings, n);
      SamplingQuiet(d, f, track, n);
      WatchTwo(d, l3, SIG_MOTEB, false);
      WatchTwo(d, l4, SIG_DRVSB, false);
      assert Dump(f, track, readings).log == l4 + DISABLE;
    }
  }

  lemma {:induction false} RunSettles(d: Drive, f: Floppy, sense: Sense, ops: seq<Op>)
    requires Faithful(d, sense) && Settled(d, f) && d.stop >= TRACKS - 1
    ensures Settled(d, RunOps(f, sense, ops))
  {
    hide Settled, Home, Seek, Dump;
    if ops != [] {
      var before, op := ops[..|ops| - 1], ops[|ops| - 1];
      RunSettles(d, f, sense, before);
      var g := RunOps(f, sense, before);
      match op
      case HomeOp => HomeSettles(d, g, sense);
      case SeekOp(track) => SeekSettles(d, g, track);
      case DumpOp(track, readings) => DumpSettles(d, g, track, readings);
    }
  }

  /** After every sequence of operations on a faithful drive with at least 80 tracks, wherever
      its head began: a drive fed nothing but the waveform stands on the counter's track, if
      homing has ever succeeded. */
  lemma CounterIsHead(d: Drive, f: Floppy, sense: Sense, ops: seq<Op>)
    requires Faithful(d, sense) && Settled(d, f) && d.stop >= TRACKS - 1
    ensures var r := RunOps(f, sense, ops);
            r.homed ==> r.curTrack == Watch(d, r.log).head < TRACKS
  {
    RunSettles(d, f, sense, ops);
  }

  lemma {:induction false} LowLines(d: Drive, k: nat)
    ensures Watch(d, LinesLow(k)) == Watch(d, [])
    ensures Timely(LinesLow(k))
  {
    if k > 0 {
      LowLines(d, k - 1);
      WatchSnoc(d, LinesLow(k - 1), Set(k - 1, false));
      QuietEvent(LinesLow(k - 1), Set(k - 1, false));
    }
  }

  /** The state in which probe first homes the drive, wherever its head is. */
  lemma FreshSettles(d: Drive)
    requires d.start <= d.stop
    ensures Settled(d, Fresh()) && Timely(Fresh().log)
  {
    LowLines(d, SIG_COUNT);
    WatchSnoc(d, LinesLow(SIG_COUNT), Wait(1));
    QuietEvent(LinesLow(SIG_COUNT), Wait(1));
  }

  /** What probe does, on any drive within reach of homing: it ends homed on track 0, and
      takes every sample on the way with the drive selected, spinning and on track 40. */
  lemma ProbeEndsHome(d: Drive, sense: Sense, readings: seq<Reading>)
    requires Faithful(d, sense) && d.stop >= TRACKS - 1 && d.start <= d.stop
    requires d.start <= STUCK_LIMIT
    ensures var g := Dump(Home(Fresh(), sense), 40, readings);
            var r := Home(g, sense);
            && g.curTrack == 40
            && (forall k :: 0 <= k <= |Samples(readings)| ==>
                  var p := Watch(d, Sampling(Home(Fresh(), sense), 40, k));
                  p.select && p.motor && p.head == 40)
            && r.homed && r.curTrack == 0 == Watch(d, r.log).head
  {
    hide Watch;
    FreshSettles(d);
    LowLines(d, SIG_COUNT);
    WatchSnoc(d, LinesLow(SIG_COUNT), Wait(1));
    assert Watch(d, Fresh().log).head == d.start by { StartsAtStart(d); }
    HomeSettles(d, Fresh(), sense);
    DumpSettles(d, Home(Fresh(), sense), 40, readings);
    forall k | 0 <= k <= |Samples(readings)|
      ensures var p := Watch(d, Sampling(Home(Fresh(), sense), 40, k));
              p.select && p.motor && p.head == 40
    {
      SampledTrack(d, Home(Fresh(), sense), 40, readings, k);
    }
    HomeSettles(d, Dump(Home(Fresh(), sense), 40, readings), sense);
  }

  lemma StartsAtStart(d: Drive)
    ensures Watch(d, []).head == d.start
  {
  }

  // ---- Inside an operation ----

  lemma {:induction false} SteppedClosed(f: Floppy, inward: bool, k: nat)
    requires inward ==> f.curTrack + k <= TRACKS
    ensures Stepped(f, inward, k) ==
            Floppy(if inward then f.curTrack + k else Lower(f.curTrack, k), f.homed,
                   f.log + Steps(inward, k))
  {
    if k == 0 {
      assert f.log + [] == f.log;
    } else {
      SteppedClosed(f, inward, k - 1);
      assert f.log + Steps(inward, k) == f.log + Steps(inward, k - 1) + StepLog(inward);
    }
  }

  /** In the middle of a seek or of a homing from a homed state, after any j of its steps, the
      counter is still the head's track, and no step that follows meets a saturated counter. */
  lemma MidwayCounterIsHead(d: Drive, f: Floppy, inward: bool, j: nat)
    requires Settled(d, f) && d.stop >= TRACKS - 1 && f.homed
    requires if inward then f.curTrack + j < TRACKS else j <= f.curTrack
    ensures var m := Stepped(Emit(f, ENABLE), inward, j);
            && m.curTrack == Watch(d, m.log).head < TRACKS
            && m.curTrack == (if inward then f.curTrack + j else f.curTrack - j)
            && (inward && m.curTrack < TRACKS - 1 ==>
                  StepOnce(m, true).curTrack == m.curTrack + 1
                  && Watch(d, StepOnce(m, true).log).head == m.curTrack + 1)
            && (!inward && m.curTrack > 0 ==>
                  StepOnce(m, false).curTrack == m.curTrack - 1
                  && Watch(d, StepOnce(m, false).log).head == m.curTrack - 1)
  {
    hide Watch;
    var g := Emit(f, ENABLE);
    WatchTwo(d, f.log, SIG_DRVSB, true);
    SteppedClosed(g, inward, j);
    WatchSteps(d, g.log, inward, j);
    StepMovesOnce(d, g.log + Steps(inward, j), inward);
  }

  /** A homing from a homed state is its steps, as many as the counter says. */
  lemma HomingIsSteps(d: Drive, f: Floppy, sense: Sense)
    requires Faithful(d, sense) && Settled(d, f) && f.homed
    ensures Emit(Stepped(Emit(f, ENABLE), false, f.curTrack), DISABLE) == Home(f, sense)
  {
    HomeStepsIsHead(d, f, sense);
    SteppedClosed(Emit(f, ENABLE), false, f.curTrack);
  }

  /** A seek is its steps: `Distance` of them, the last of which reaches the track; none before
      does, and none leaves the stretch between the two tracks. */
  lemma SeekNeverOvershoots(f: Floppy, track: nat, j: nat)
    requires f.homed && f.curTrack <= TRACKS && track < TRACKS
    requires j <= Distance(f.curTrack, track)
    ensures var m := Stepped(Emit(f, ENABLE), f.curTrack < track, j);
            && Distance(m.curTrack, track) == Distance(f.curTrack, track) - j
            && Distance(m.curTrack, f.curTrack) == j
            && (j == Distance(f.curTrack, track) ==> Emit(m, DISABLE) == Seek(f, track))
  {
    SteppedClosed(Emit(f, ENABLE), f.curTrack < track, j);
  }

  // ---- Time ----

  lemma DoIsTimely(f: Floppy, sense: Sense, op: Op)
    requires Timely(f.log)
    ensures Timely(Do(f, sense, op).log)
  {
    hide Timely;
    match op
    case HomeOp =>
      var k := HomeSteps(sense, f.log + ENABLE, 0);
      QuietEvents(f.log, ENABLE);
      StepsAreTimely(f.log + ENABLE, false, k);
      QuietEvents(f.log + ENABLE + Steps(false, k), DISABLE);
    case SeekOp(track) => SeekIsTimely(f, track);
    case DumpOp(track, readings) =>
      SeekIsTimely(f, track);
      QuietEvents(Seek(f, track).log,
                  ENABLE + SPIN_ON + Waits(|Samples(readings)|) + SPIN_OFF + DISABLE);
  }

  lemma SeekIsTimely(f: Floppy, track: nat)
    requires Timely(f.log)
    ensures Timely(Seek(f, track).log)
  {
    hide Timely;
    var inward, k := f.curTrack < track, Distance(f.curTrack, track);
    QuietEvents(f.log, ENABLE);
    StepsAreTimely(f.log + ENABLE, inward, k);
    QuietEvents(f.log + ENABLE + Steps(inward, k), DISABLE);
  }

  /** In the waveform of every sequence of operations, whatever the drive answers: steps at least
      3010 us apart, DIR settled for 1 us before each pulse and through it, STEP high for 8 us.
      The initial waveform qualifies (see FreshSettles). */
  lemma {:induction false} RunIsTimely(f: Floppy, sense: Sense, ops: seq<Op>)
    requires Timely(f.log)
    ensures Timely(RunOps(f, sense, ops).log)
  {
    hide Timely;
    if ops != [] {
      RunIsTimely(f, sense, ops[..|ops| - 1]);
      DoIsTimely(RunOps(f, sense, ops[..|ops| - 1]), sense, ops[|ops| - 1]);
    }
  }
}
