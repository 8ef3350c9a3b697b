/** What each operation puts on each line of the cable, and how long it takes. */
module FloppyWire {
  import opened FloppyWave
  import opened FloppySampler
  import opened FloppyControl

  // The lines by their positions on the cable: 1 selects drive B, 3 turns its motor on, 4 is DIR
  // (high is inward), 5 is STEP.

  /** The levels written to a line, in order. */
  function Writes(log: seq<Event>, line: nat): seq<bool> {
    if log == [] then []
    else
      var e, before := log[|log| - 1], Writes(log[..|log| - 1], line);
      if e.Set? && e.line == line then before + [e.high] else before
  }

  lemma {:induction false} WritesJoin(a: seq<Event>, b: seq<Event>, line: nat)
    ensures Writes(a + b, line) == Writes(a, line) + Writes(b, line)
  {
    if b == [] {
      assert a + b == a;
    } else {
      var k := |b| - 1;
      WritesJoin(a, b[..k], line);
      assert (a + b)[..|a + b| - 1] == a + b[..k];
    }
  }

  lemma {:induction false} TotalJoin(a: seq<Event>, b: seq<Event>)
    ensures Total(a + b) == Total(a) + Total(b)
  {
    if b == [] {
      assert a + b == a;
    } else {
      var k := |b| - 1;
      TotalJoin(a, b[..k]);
      assert (a + b)[..|a + b| - 1] == a + b[..k];
    }
  }

  function Times<T>(s: seq<T>, k: nat): seq<T> {
    if k == 0 then [] else Times(s, k - 1) + s
  }

  lemma WriteThenWait(line: nat, high: bool, us: nat, l: nat)
    ensures Writes([Set(line, high), Wait(us)], l) == if l == line then [high] else []
    ensures Total([Set(line, high), Wait(us)]) == us
  {
    var e, w := [Set(line, high)], [Wait(us)];
    assert [Set(line, high), Wait(us)] == e + w;
    WritesJoin(e, w, l);
    TotalJoin(e, w);
    assert Writes(e, l) == (if l == line then [high] else []) by { assert e[..0] == []; }
    assert Writes(w, l) == [] by { assert w[..0] == []; }
    assert Total(e) == 0 by { assert e[..0] == []; }
    assert Total(w) == us by { assert w[..0] == []; }
  }

  /** One step: DIR says which way, STEP goes low, high and low; 3010 us at least. */
  lemma StepOnTheWire(inward: bool, line: nat)
    ensures Writes(StepLog(inward), line) ==
            (if line == 4 then [inward] else if line == 5 then [false, true, false] else [])
    ensures Total(StepLog(inward)) == 3010
  {
    hide Writes, Total;
    var a, b := [Set(SIG_STEP, false), Wait(1)], [Set(SIG_DIR, inward), Wait(1)];
    var c, d := [Set(SIG_STEP, true), Wait(8)], [Set(SIG_STEP, false), Wait(3000)];
    assert StepLog(inward) == a + b + (c + d);
    WritesJoin(a + b, c + d, line);
    WritesJoin(a, b, line);
    WritesJoin(c, d, line);
    TotalJoin(a + b, c + d);
    TotalJoin(a, b);
    TotalJoin(c, d);
    WriteThenWait(SIG_STEP, false, 1, line);
    WriteThenWait(SIG_DIR, inward, 1, line);
    WriteThenWait(SIG_STEP, true, 8, line);
    WriteThenWait(SIG_STEP, false, 3000, line);
  }

  /** What k steps write to a line. */
  function StepWrites(inward: bool, k: nat, line: nat): seq<bool> {
    if line == 4 then Times([inward], k) else if line == 5 then Times([false, true, false], k) else []
  }

  lemma {:induction false} StepsOnTheWire(inward: bool, k: nat, line: nat)
    ensures Writes(Steps(inward, k), line) == StepWrites(inward, k, line)
    ensures Total(Steps(inward, k)) == 3010 * k
  {
    hide StepLog;
    if k > 0 {
      StepsOnTheWire(inward, k - 1, line);
      WritesJoin(Steps(inward, k - 1), StepLog(inward), line);
      TotalJoin(Steps(inward, k - 1), StepLog(inward));
      StepOnTheWire(inward, line);
    }
  }

  /** Some events between selecting and deselecting the drive. */
  lemma Selected(log: seq<Event>, inside: seq<Event>, line: nat)
    ensures var r := log + ENABLE + inside + DISABLE;
            && Writes(r, line) ==
               (if line == 1 then Writes(log, 1) + [true] + Writes(inside, 1) + [false]
                else Writes(log, line) + Writes(inside, line))
            && Total(r) == Total(log) + Total(inside) + 2
  {
    hide Writes, Total;
    WriteThenWait(SIG_DRVSB, true, 1, line);
    WriteThenWait(SIG_DRVSB, false, 1, line);
    WritesJoin(log + ENABLE + inside, DISABLE, line);
    WritesJoin(log + ENABLE, inside, line);
    WritesJoin(log, ENABLE, line);
    TotalJoin(log + ENABLE + inside, DISABLE);
    TotalJoin(log + ENABLE, inside);
    TotalJoin(log, ENABLE);
  }

  /** k outward or inward steps on the selected drive. */
  lemma SelectedSteps(log: seq<Event>, inward: bool, k: nat, line: nat)
    ensures var r := log + ENABLE + Steps(inward, k) + DISABLE;
            && Writes(r, line) ==
               (if line == 1 then Writes(log, 1) + [true, false]
                else Writes(log, line) + StepWrites(inward, k, line))
            && Total(r) == Total(log) + 3010 * k + 2
  {
    hide Writes, Total, Steps;
    Selected(log, Steps(inward, k), line);
    StepsOnTheWire(inward, k, line);
  }

  /** A homing on the wire, for every TRK00: HomeSteps steps outward. */
  lemma HomeOnTheWire(f: Floppy, sense: Sense, line: nat)
    ensures var k, r := HomeSteps(sense, f.log + ENABLE, 0), Home(f, sense).log;
            && Writes(r, line) ==
               (if line == 1 then Writes(f.log, 1) + [true, false]
                else Writes(f.log, line) + StepWrites(false, k, line))
            && Total(r) == Total(f.log) + 3010 * k + 2
  {
    hide Writes, Total;
    SelectedSteps(f.log, false, HomeSteps(sense, f.log + ENABLE, 0), line);
  }

  /** A seek on the wire: one step per track, or nothing at all if it is refused. */
  lemma SeekOnTheWire(f: Floppy, track: nat, line: nat)
    ensures !f.homed || track > 79 ==> Seek(f, track) == f
    ensures f.homed && track <= 79 ==>
              var k, r := Distance(f.curTrack, track), Seek(f, track).log;
              && Writes(r, line) ==
                 (if line == 1 then Writes(f.log, 1) + [true, false]
                  else Writes(f.log, line) + StepWrites(f.curTrack < track, k, line))
              && Total(r) == Total(f.log) + 3010 * k + 2
  {
    hide Writes, Total;
    SelectedSteps(f.log, f.curTrack < track, Distance(f.curTrack, track), line);
  }

  lemma {:induction false} WaitsOnTheWire(n: nat, line: nat)
    ensures Writes(Waits(n), line) == [] && Total(Waits(n)) == n
  {
    if n == 0 {
      assert Waits(0) == [];
    } else {
      WaitsOnTheWire(n - 1, line);
      assert Waits(n)[..n - 1] == Waits(n - 1);
    }
  }

  /** A dump on the wire: the seek, then motor on and off while the drive is selected, and one
      microsecond for each sample; nothing at all for a track out of range. */
  lemma DumpOnTheWire(f: Floppy, track: nat, readings: seq<Reading>, line: nat)
    ensures track > 79 ==> Dump(f, track, readings) == f
    ensures track <= 79 ==>
              var g, r := Seek(f, track).log, Dump(f, track, readings).log;
              && Writes(r, line) ==
                 (if line == 1 || line == 3 then Writes(g, line) + [true, false] else Writes(g, line))
              && Total(r) == Total(g) + |Samples(readings)| + 4
  {
    hide Writes, Total, Samples, Waits;
    if track <= 79 {
      var g, n := Seek(f, track).log, |Samples(readings)|;
      var inside := SPIN_ON + Waits(n) + SPIN_OFF;
      assert Dump(f, track, readings).log == g + ENABLE + inside + DISABLE;
      Selected(g, inside, line);
      WritesJoin(SPIN_ON + Waits(n), SPIN_OFF, line);
      WritesJoin(SPIN_ON, Waits(n), line);
      TotalJoin(SPIN_ON + Waits(n), SPIN_OFF);
      TotalJoin(SPIN_ON, Waits(n));
      WriteThenWait(SIG_MOTEB, true, 1, line);
      WriteThenWait(SIG_MOTEB, false, 1, line);
      WaitsOnTheWire(n, line);
    }
  }

  lemma {:induction false} LowLinesOnTheWire(k: nat, line: nat)
    ensures Writes(LinesLow(k), line) == if line < k then [false] else []
  {
    if k > 0 {
      LowLinesOnTheWire(k - 1, line);
      WritesJoin(LinesLow(k - 1), [Set(k - 1, false)], line);
      assert [Set(k - 1, false)][..0] == [];
    }
  }

  /** In every run, whatever the drive answers, all fifteen lines are driven low once at first, and
      after that only the lines 1, 3, 4 and 5 are ever written: above all not the write gate. */
  lemma {:induction false} OnlyFourLines(sense: Sense, ops: seq<Op>, line: nat)
    requires line !in {1, 3, 4, 5}
    ensures Writes(RunOps(Fresh(), sense, ops).log, line) == if line < 15 then [false] else []
  {
    hide Writes, Home, Seek, Dump;
    if ops == [] {
      FreshOnTheWire(line);
    } else {
      var before, op := ops[..|ops| - 1], ops[|ops| - 1];
      OnlyFourLines(sense, before, line);
      QuietLine(RunOps(Fresh(), sense, before), sense, op, line);
    }
  }

  lemma FreshOnTheWire(line: nat)
    ensures Writes(Fresh().log, line) == if line < 15 then [false] else []
  {
    hide LinesLow;
    LowLinesOnTheWire(SIG_COUNT, line);
    WritesJoin(LinesLow(SIG_COUNT), [Wait(1)], line);
    assert [Wait(1)][..0] == [];
  }

  lemma QuietLine(f: Floppy, sense: Sense, op: Op, line: nat)
    requires line !in {1, 3, 4, 5}
    ensures Writes(Do(f, sense, op).log, line) == Writes(f.log, line)
  {
    hide Writes, Home, Seek, Dump;
    match op
    case HomeOp => HomeOnTheWire(f, sense, line);
    case SeekOp(track) => SeekOnTheWire(f, track, line);
    case DumpOp(track, readings) =>
      SeekOnTheWire(f, track, line);
      DumpOnTheWire(f, track, readings, line);
  }

  /** Homing on any drive, honest or not: exactly k pulses, where k is the least number of steps
      after which TRK00 reads asserted. If none of the first 101 readings does, 101 pulses, HOMED
      as it was, and the counter 101 lower, but not below 0. */
  lemma HomePulses(d: Drive, f: Floppy, sense: Sense, k: nat)
    requires Settled(d, f) && k <= 101
    requires forall j: nat :: j < k ==> !sense(f.log + ENABLE + Steps(false, j))
    requires k <= 100 ==> sense(f.log + ENABLE + Steps(false, k))
    ensures var r := Home(f, sense);
            && Watch(d, r.log).moves == Watch(d, f.log).moves + k
            && (k <= 100 ==> r.homed && r.curTrack == 0)
            && (k == 101 ==>
                  r.homed == f.homed && r.curTrack == if f.curTrack > 101 then f.curTrack - 101 else 0)
  {
    hide Watch, Steps;
    var log := f.log + ENABLE;
    var r := HomeSteps(sense, log, 0);
    assert r == k;
    WatchTwo(d, f.log, SIG_DRVSB, true);
    WatchSteps(d, log, false, k);
    WatchTwo(d, log + Steps(false, k), SIG_DRVSB, false);
  }

  // ---- The order of the lines ----

  /** The state of the lines does not depend on the drive; any will do to read it off. */
  const ANY := Drive(0, 0)

  /** STEP rises only while the drive is selected with its motor off; the motor is turned on only
      while the drive is selected, and the drive is never deselected with the motor on. */
  predicate Allowed(p: Pins, e: Event) {
    && (e == Set(5, true) ==> p.select && !p.motor)
    && (e == Set(3, true) ==> p.select)
    && (e == Set(1, false) ==> !p.motor)
  }

  predicate Orderly(log: seq<Event>) {
    forall i :: 0 <= i < |log| ==> Allowed(Watch(ANY, log[..i]), log[i])
  }

  lemma OrderlySnoc(log: seq<Event>, e: Event)
    requires Orderly(log) && Allowed(Watch(ANY, log), e)
    ensures Orderly(log + [e])
  {
    hide Watch, Allowed;
    var r := log + [e];
    forall i | 0 <= i < |r|
      ensures Allowed(Watch(ANY, r[..i]), r[i])
    {
      assert r[..i] == log[..i];
      assert log[..|log|] == log;
    }
  }

  lemma OrderlyTwo(log: seq<Event>, line: nat, high: bool)
    requires Orderly(log) && Allowed(Watch(ANY, log), Set(line, high))
    ensures Orderly(log + [Set(line, high), Wait(1)])
  {
    hide Watch, Orderly;
    OrderlySnoc(log, Set(line, high));
    OrderlySnoc(log + [Set(line, high)], Wait(1));
    assert log + [Set(line, high), Wait(1)] == log + [Set(line, high)] + [Wait(1)];
  }

  /** Only DIR, STEP and delays. */
  predicate OnlyStepping(more: seq<Event>) {
    forall i :: 0 <= i < |more| ==> more[i].Wait? || more[i].line == 4 || more[i].line == 5
  }

  lemma {:induction false} OrderlySteps(log: seq<Event>, more: seq<Event>)
    requires Orderly(log) && Watch(ANY, log).select && !Watch(ANY, log).motor && OnlyStepping(more)
    ensures Orderly(log + more)
    ensures Watch(ANY, log + more).select && !Watch(ANY, log + more).motor
  {
    hide Watch, Orderly;
    if more == [] {
      assert log + more == log;
    } else {
      var k := |more| - 1;
      OrderlySteps(log, more[..k]);
      OrderlySnoc(log + more[..k], more[k]);
      WatchSnoc(ANY, log + more[..k], more[k]);
      assert log + more == log + more[..k] + [more[k]];
    }
  }

  lemma {:induction false} StepsOnlyStep(inward: bool, k: nat)
    ensures OnlyStepping(Steps(inward, k))
  {
    if k > 0 {
      StepsOnlyStep(inward, k - 1);
    }
  }

  /** The lines between operations: as the waveform requires them, drive deselected, motor off. */
  predicate Rests(log: seq<Event>) {
    Orderly(log) && !Watch(ANY, log).select && !Watch(ANY, log).motor
  }

  lemma SelectedStepsRest(log: seq<Event>, inward: bool, k: nat)
    requires Rests(log)
    ensures Rests(log + ENABLE + Steps(inward, k) + DISABLE)
  {
    hide Watch, Orderly, Steps;
    OrderlyTwo(log, SIG_DRVSB, true);
    WatchTwo(ANY, log, SIG_DRVSB, true);
    StepsOnlyStep(inward, k);
    OrderlySteps(log + ENABLE, Steps(inward, k));
    OrderlyTwo(log + ENABLE + Steps(inward, k), SIG_DRVSB, false);
    WatchTwo(ANY, log + ENABLE + Steps(inward, k), SIG_DRVSB, false);
  }

  lemma {:induction false} WaitsRest(log: seq<Event>, n: nat)
    requires Orderly(log)
    ensures Orderly(log + Waits(n))
  {
    hide Watch, Orderly;
    if n == 0 {
      assert log + Waits(0) == log;
    } else {
      WaitsRest(log, n - 1);
      OrderlySnoc(log + Waits(n - 1), Wait(1));
      assert log + Waits(n) == log + Waits(n - 1) + [Wait(1)];
    }
  }

  lemma SampledRests(log: seq<Event>, n: nat)
    requires Rests(log)
    ensures Rests(log + ENABLE + SPIN_ON + Waits(n) + SPIN_OFF + DISABLE)
  {
    hide Watch, Orderly, Waits;
    var l1 := log + ENABLE;
    var l2 := l1 + SPIN_ON;
    var l3 := l2 + Waits(n);
    var l4 := l3 + SPIN_OFF;
    OrderlyTwo(log, SIG_DRVSB, true);
    WatchTwo(ANY, log, SIG_DRVSB, true);
    OrderlyTwo(l1, SIG_MOTEB, true);
    WatchTwo(ANY, l1, SIG_MOTEB, true);
    WaitsRest(l2, n);
    WatchWaits(ANY, l2, n);
    OrderlyTwo(l3, SIG_MOTEB, false);
    WatchTwo(ANY, l3, SIG_MOTEB, false);
    OrderlyTwo(l4, SIG_DRVSB, false);
    WatchTwo(ANY, l4, SIG_DRVSB, false);
  }

  lemma DoRests(f: Floppy, sense: Sense, op: Op)
    requires Rests(f.log)
    ensures Rests(Do(f, sense, op).log)
  {
    hide Rests;
    match op
    case HomeOp => SelectedStepsRest(f.log, false, HomeSteps(sense, f.log + ENABLE, 0));
    case SeekOp(track) => SeekRests(f, track);
    case DumpOp(track, readings) =>
      if track < TRACKS {
        SeekRests(f, track);
        var g, n := Seek(f, track).log, |Samples(readings)|;
        SampledRests(g, n);
        assert g + ENABLE + SPIN_ON + Waits(n) + SPIN_OFF + DISABLE
            == g + (ENABLE + SPIN_ON + Waits(n) + SPIN_OFF + DISABLE);
      }
  }

  lemma SeekRests(f: Floppy, track: nat)
    requires Rests(f.log)
    ensures Rests(Seek(f, track).log)
  {
    hide Rests;
    SelectedStepsRest(f.log, f.curTrack < track, Distance(f.curTrack, track));
  }

  lemma {:induction false} LinesLowRest(k: nat)
    ensures Rests(LinesLow(k))
  {
    hide Orderly, Watch;
    if k == 0 {
      NothingRests();
    } else {
      LinesLowRest(k - 1);
      OrderlySnoc(LinesLow(k - 1), Set(k - 1, false));
      WatchSnoc(ANY, LinesLow(k - 1), Set(k - 1, false));
    }
  }

  lemma NothingRests()
    ensures Rests([])
  {
  }

  /** In every run, whatever the drive answers, every event of the waveform is allowed where it
      comes, and between operations the drive is deselected with its motor off. */
  lemma {:induction false} RunIsOrderly(sense: Sense, ops: seq<Op>)
    ensures Rests(RunOps(Fresh(), sense, ops).log)
  {
    hide Rests, Home, Seek, Dump, LinesLow;
    if ops == [] {
      LinesLowRest(SIG_COUNT);
      OneMoreWait(LinesLow(SIG_COUNT));
    } else {
      RunIsOrderly(sense, ops[..|ops| - 1]);
      DoRests(RunOps(Fresh(), sense, ops[..|ops| - 1]), sense, ops[|ops| - 1]);
    }
  }

  lemma OneMoreWait(log: seq<Event>)
    requires Rests(log)
    ensures Rests(log + [Wait(1)])
  {
    hide Orderly, Watch;
    OrderlySnoc(log, Wait(1));
    WatchSnoc(ANY, log, Wait(1));
  }
}
