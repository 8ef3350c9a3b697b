/** The waveform the floppy driver emits, and what a drive and a clock make of it. */
module FloppyWave {
  const SIG_DRVSB: nat := 1
  const SIG_MOTEB: nat := 3
  const SIG_DIR: nat := 4
  const SIG_STEP: nat := 5
  const SIG_COUNT: nat := 15

  /** A GPIO write, or a delay of at least `us` microseconds. */
  datatype Event = Set(line: nat, high: bool) | Wait(us: nat)

  // ---- The drive ----

  /** A drive whose head starts on `start` and can move between track 0 and track `stop`. */
  datatype Drive = Drive(start: nat, stop: nat)

  /** What the drive sees of the cable, where its head is, and how many steps it has taken. */
  datatype Pins = Pins(select: bool, motor: bool, dir: bool, step: bool, head: nat, moves: nat)

  function Move(d: Drive, head: nat, inward: bool): nat {
    if inward then if head < d.stop then head + 1 else head
    else if head > 0 then head - 1 else head
  }

  /** A selected drive moves its head on a rising STEP edge, in the direction DIR gives. */
  function Tick(d: Drive, p: Pins, e: Event): Pins {
    match e
    case Wait(_) => p
    case Set(line, high) =>
      if line == SIG_DRVSB then p.(select := high)
      else if line == SIG_MOTEB then p.(motor := high)
      else if line == SIG_DIR then p.(dir := high)
      else if line == SIG_STEP then
        if high && !p.step then
          p.(step := true, moves := p.moves + 1,
             head := if p.select then Move(d, p.head, p.dir) else p.head)
        else
          p.(step := high)
      else p
  }

  /** The drive after the whole waveform; every line starts low. */
  function Watch(d: Drive, log: seq<Event>): Pins {
    if log == [] then Pins(false, false, false, false, d.start, 0)
    else Tick(d, Watch(d, log[..|log| - 1]), log[|log| - 1])
  }

  lemma WatchSnoc(d: Drive, log: seq<Event>, e: Event)
    ensures Watch(d, log + [e]) == Tick(d, Watch(d, log), e)
  {
    assert (log + [e])[..|log + [e]| - 1] == log;
  }

  /** The waveform of floppy_step. */
  function StepLog(inward: bool): seq<Event> {
    [Set(SIG_STEP, false), Wait(1), Set(SIG_DIR, inward), Wait(1),
     Set(SIG_STEP, true), Wait(8), Set(SIG_STEP, false), Wait(3000)]
  }

  lemma WatchFour(d: Drive, log: seq<Event>, a: Event, b: Event, c: Event, e: Event)
    ensures Watch(d, log + [a, b, c, e]) == Tick(d, Tick(d, Tick(d, Tick(d, Watch(d, log), a), b), c), e)
  {
    hide Tick, Watch;
    WatchSnoc(d, log, a);
    WatchSnoc(d, log + [a], b);
    WatchSnoc(d, log + [a] + [b], c);
    WatchSnoc(d, log + [a] + [b] + [c], e);
    assert log + [a, b, c, e] == log + [a] + [b] + [c] + [e];
  }

  /** One floppy_step is one rising edge: one move of a selected drive, in its direction. */
  lemma StepMovesOnce(d: Drive, log: seq<Event>, inward: bool)
    ensures var p, r := Watch(d, log), Watch(d, log + StepLog(inward));
            r == Pins(p.select, p.motor, inward, false,
                      if p.select then Move(d, p.head, inward) else p.head, p.moves + 1)
  {
    hide Watch;
    var s := StepLog(inward);
    WatchFour(d, log, s[0], s[1], s[2], s[3]);
    WatchFour(d, log + [s[0], s[1], s[2], s[3]], s[4], s[5], s[6], s[7]);
    assert log + s == log + [s[0], s[1], s[2], s[3]] + [s[4], s[5], s[6], s[7]];
  }

  /** k steps in one direction. */
  function Steps(inward: bool, k: nat): seq<Event> {
    if k == 0 then [] else Steps(inward, k - 1) + StepLog(inward)
  }

  // ---- Time ----

  /** The least time the waveform can take. */
  function Total(log: seq<Event>): nat {
    if log == [] then 0
    else
      var e := log[|log| - 1];
      Total(log[..|log| - 1]) + if e.Wait? then e.us else 0
  }

  function Level(log: seq<Event>, line: nat): bool {
    if log == [] then false
    else
      var e := log[|log| - 1];
      if e.Set? && e.line == line then e.high else Level(log[..|log| - 1], line)
  }

  /** Event i is a rising edge of STEP. */
  predicate Rises(log: seq<Event>, i: nat)
    requires i < |log|
  {
    log[i] == Set(SIG_STEP, true) && !Level(log[..i], SIG_STEP)
  }

  function Elapsed(log: seq<Event>, i: nat, j: nat): int
    requires i <= |log| && j <= |log|
  {
    Total(log[..j]) - Total(log[..i])
  }

  /** Event f ends the pulse that event i begins: until then neither STEP nor DIR is written,
      and at least 8 us pass. */
  predicate Pulse(log: seq<Event>, i: nat, f: nat)
    requires i < f < |log|
  {
    && log[f] == Set(SIG_STEP, false) && Elapsed(log, i, f) >= 8
    && forall k :: i < k < f && log[k].Set? ==> log[k].line != SIG_STEP && log[k].line != SIG_DIR
  }

  /** What a drive may demand of the STEP and DIR lines, for the pulse that starts at i. */
  ghost predicate GoodPulse(log: seq<Event>, i: nat)
    requires i < |log|
  {
    && (exists f :: i < f < |log| && Pulse(log, i, f))
    && (forall w :: 0 <= w < i && log[w].Set? && log[w].line == SIG_DIR ==> Elapsed(log, w, i) >= 1)
    && (forall j :: 0 <= j < i && Rises(log, j) ==> Elapsed(log, j, i) >= 3010)
  }

  /** Every pulse is good, STEP is low, and at least 3008 us have passed since the last rise. */
  ghost predicate Timely(log: seq<Event>) {
    && !Level(log, SIG_STEP)
    && forall i :: 0 <= i < |log| && Rises(log, i) ==>
         GoodPulse(log, i) && Elapsed(log, i, |log|) >= 3008
  }

  lemma Prefixes(log: seq<Event>, more: seq<Event>)
    ensures forall i :: 0 <= i <= |log| ==> (log + more)[..i] == log[..i]
    ensures forall i :: 0 <= i < |log| ==> Rises(log + more, i) == Rises(log, i)
  {
    assert forall i :: 0 <= i <= |log| ==> (log + more)[..i] == log[..i];
  }

  lemma GoodPulseStays(log: seq<Event>, more: seq<Event>, i: nat)
    requires i < |log| && GoodPulse(log, i)
    ensures GoodPulse(log + more, i)
  {
    Prefixes(log, more);
    var f :| i < f < |log| && Pulse(log, i, f);
    assert Pulse(log + more, i, f);
  }

  /** Anything that does not raise STEP keeps the waveform timely. */
  lemma QuietEvent(log: seq<Event>, e: Event)
    requires Timely(log) && e != Set(SIG_STEP, true)
    ensures Timely(log + [e])
    ensures Total(log + [e]) == Total(log) + if e.Wait? then e.us else 0
  {
    var r := log + [e];
    Prefixes(log, [e]);
    assert r[..|log|] == log == log[..|log|];
    assert r[..|r|] == r;
    forall i | 0 <= i < |r| && Rises(r, i)
      ensures GoodPulse(r, i) && Elapsed(r, i, |r|) >= 3008
    {
      GoodPulseStays(log, [e], i);
    }
  }

  lemma {:induction false} QuietEvents(log: seq<Event>, more: seq<Event>)
    requires Timely(log) && Set(SIG_STEP, true) !in more
    ensures Timely(log + more)
  {
    if more == [] {
      assert log + more == log;
    } else {
      var k := |more| - 1;
      QuietEvents(log, more[..k]);
      QuietEvent(log + more[..k], more[k]);
      assert log + more == (log + more[..k]) + [more[k]];
    }
  }

  lemma TotalSnoc(log: seq<Event>, e: Event)
    ensures Total(log + [e]) == Total(log) + if e.Wait? then e.us else 0
    ensures forall line :: Level(log + [e], line) ==
              if e.Set? && e.line == line then e.high else Level(log, line)
  {
    assert (log + [e])[..|log + [e]| - 1] == log;
  }

  function PulseLog(): seq<Event> {
    [Set(SIG_STEP, true), Wait(8), Set(SIG_STEP, false), Wait(3000)]
  }

  /** The only rising edge that the pulse adds, and how long it takes. */
  lemma PulseShape(log: seq<Event>)
    ensures var n, r := |log|, log + PulseLog();
            && r[..n] == log && r[..|r|] == r && !Level(r, SIG_STEP)
            && Total(r) == Total(log) + 3008 && Total(r[..n + 2]) == Total(log) + 8
            && (forall i :: n <= i < |r| && Rises(r, i) ==> i == n)
  {
    var n, r := |log|, log + PulseLog();
    TotalSnoc(log, Set(SIG_STEP, true));
    TotalSnoc(r[..n + 1], Wait(8));
    TotalSnoc(r[..n + 2], Set(SIG_STEP, false));
    TotalSnoc(r[..n + 3], Wait(3000));
    assert r[..n + 1] == log + [Set(SIG_STEP, true)];
    assert r[..n + 2] == r[..n + 1] + [Wait(8)];
    assert r[..n + 3] == r[..n + 2] + [Set(SIG_STEP, false)];
    assert r == r[..n + 3] + [Wait(3000)];
  }

  /** The pulse itself, after at least 2 us of rest and 1 us after the last DIR write. */
  lemma PulseIsTimely(log: seq<Event>)
    requires Timely(log)
    requires forall j :: 0 <= j < |log| && Rises(log, j) ==> Elapsed(log, j, |log|) >= 3010
    requires forall w :: 0 <= w < |log| && log[w].Set? && log[w].line == SIG_DIR ==>
               Elapsed(log, w, |log|) >= 1
    ensures Timely(log + PulseLog())
  {
    hide Total, Level;
    var n, r := |log|, log + PulseLog();
    PulseShape(log);
    Prefixes(log, PulseLog());
    assert log[..n] == log;
    assert GoodPulse(r, n) by {
      assert Pulse(r, n, n + 2);
    }
    forall i | 0 <= i < |r| && Rises(r, i)
      ensures GoodPulse(r, i) && Elapsed(r, i, |r|) >= 3008
    {
      if i < n {
        GoodPulseStays(log, PulseLog(), i);
      }
    }
  }

  lemma {:induction false} TotalGrows(a: seq<Event>, b: seq<Event>)
    requires a <= b
    ensures Total(a) <= Total(b)
  {
    if |a| < |b| {
      TotalGrows(a, b[..|b| - 1]);
    } else {
      assert a == b;
    }
  }

  /** The first half of a step leaves the rest before the rising edge that the drive needs. */
  lemma SetupIsTimely(log: seq<Event>, inward: bool)
    requires Timely(log)
    ensures var r := log + [Set(SIG_STEP, false), Wait(1), Set(SIG_DIR, inward), Wait(1)];
            && Timely(r)
            && (forall j :: 0 <= j < |r| && Rises(r, j) ==> Elapsed(r, j, |r|) >= 3010)
            && (forall w :: 0 <= w < |r| && r[w].Set? && r[w].line == SIG_DIR ==>
                  Elapsed(r, w, |r|) >= 1)
  {
    var l1 := log + [Set(SIG_STEP, false)];
    var l2 := l1 + [Wait(1)];
    var l3 := l2 + [Set(SIG_DIR, inward)];
    var l4 := l3 + [Wait(1)];
    QuietEvent(log, Set(SIG_STEP, false));
    QuietEvent(l1, Wait(1));
    QuietEvent(l2, Set(SIG_DIR, inward));
    QuietEvent(l3, Wait(1));
    var more := [Set(SIG_STEP, false), Wait(1), Set(SIG_DIR, inward), Wait(1)];
    assert l4 == log + more;
    Prefixes(log, more);
    Prefixes(l3, [Wait(1)]);
    assert l3[..|l3|] == l3 && l4[..|l4|] == l4 && log[..|log|] == log;
    forall j | 0 <= j < |l4| && Rises(l4, j)
      ensures Elapsed(l4, j, |l4|) >= 3010
    {
      assert j < |log|;
      assert Elapsed(log, j, |log|) >= 3008;
    }
    forall w | 0 <= w < |l4| && l4[w].Set? && l4[w].line == SIG_DIR
      ensures Elapsed(l4, w, |l4|) >= 1
    {
      assert w < |l3|;
      TotalGrows(l3[..w], l3);
    }
  }

  lemma StepIsTimely(log: seq<Event>, inward: bool)
    requires Timely(log)
    ensures Timely(log + StepLog(inward))
  {
    hide Timely;
    var setup := [Set(SIG_STEP, false), Wait(1), Set(SIG_DIR, inward), Wait(1)];
    SetupIsTimely(log, inward);
    PulseIsTimely(log + setup);
    assert log + StepLog(inward) == (log + setup) + PulseLog();
  }

  lemma {:induction false} StepsAreTimely(log: seq<Event>, inward: bool, k: nat)
    requires Timely(log)
    ensures Timely(log + Steps(inward, k))
  {
    hide Timely;
    if k == 0 {
      assert log + [] == log;
    } else {
      StepsAreTimely(log, inward, k - 1);
      StepIsTimely(log + Steps(inward, k - 1), inward);
      assert log + Steps(inward, k) == (log + Steps(inward, k - 1)) + StepLog(inward);
    }
  }

  /** Times at which the events happen: t[i] for event i and t[|log|] for the end, where no delay
      is shorter than asked for. */
  ghost predicate Schedule(log: seq<Event>, t: seq<int>) {
    && |t| == |log| + 1
    && forall i :: 0 <= i < |log| ==> t[i + 1] >= t[i] + if log[i].Wait? then log[i].us else 0
  }

  /** On every real schedule at least the elapsed time passes; so what Timely says of Elapsed
      holds of the clock, however late the delays end. */
  lemma {:induction false} ElapsedPasses(log: seq<Event>, t: seq<int>, i: nat, j: nat)
    requires Schedule(log, t) && i <= j <= |log|
    ensures t[j] - t[i] >= Elapsed(log, i, j)
  {
    if i < j {
      ElapsedPasses(log, t, i, j - 1);
      assert log[..j] == log[..j - 1] + [log[j - 1]];
      TotalSnoc(log[..j - 1], log[j - 1]);
      assert t[(j - 1) + 1] >= t[j - 1];
    }
  }

  /** The demands, on the clock: steps at least 3010 us apart, DIR settled for 1 us, STEP high
      for 8 us. */
  lemma TimelyByTheClock(log: seq<Event>, t: seq<int>, i: nat)
    requires Timely(log) && Schedule(log, t) && i < |log| && Rises(log, i)
    ensures forall j :: 0 <= j < i && Rises(log, j) ==> t[i] - t[j] >= 3010
    ensures forall w :: 0 <= w < i && log[w].Set? && log[w].line == SIG_DIR ==> t[i] - t[w] >= 1
    ensures exists f :: i < f < |log| && Pulse(log, i, f) && t[f] - t[i] >= 8
  {
    forall j | 0 <= j <= i
      ensures t[i] - t[j] >= Elapsed(log, j, i)
    {
      ElapsedPasses(log, t, j, i);
    }
    var f :| i < f < |log| && Pulse(log, i, f);
    ElapsedPasses(log, t, i, f);
  }
}
