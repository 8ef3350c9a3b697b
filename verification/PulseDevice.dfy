/** The capture device: what one timer interrupt does to it, and what any number of them do. */
module PulseDevice {
  import opened PulseFilter
  import opened Words

  // PAGE_SIZE / sizeof(edge_count_t), with the 4096-byte pages and 4-byte counts of this board
  const MAX_COUNT: nat := 1024

  // ---- The flags byte ----

  const ENABLE: bv8 := 0x01
  const DONE: bv8 := 0x02
  const EDGES_READ: bv8 := 0x04
  const CANCELLED: bv8 := 0x08

  datatype Flags = Flags(enable: bool, done: bool, read: bool, cancelled: bool)

  const CLEAR := Flags(false, false, false, false)

  /** The flags a byte stands for; the driver uses the low four bits only. */
  function Decode(byte: bv8): Flags {
    Flags(byte & ENABLE != 0, byte & DONE != 0, byte & EDGES_READ != 0, byte & CANCELLED != 0)
  }

  /** The driver's |= and &= ~ statements change the one flag they name, and the C test
      `!flags & ENABLE`, which negates the whole byte first, holds of the all-clear byte only. */
  lemma FlagStatements(byte: bv8)
    requires byte & 0xF0 == 0
    ensures Decode(byte | ENABLE) == Decode(byte).(enable := true)
    ensures Decode(byte | DONE) == Decode(byte).(done := true)
    ensures Decode(byte | EDGES_READ) == Decode(byte).(read := true)
    ensures Decode(byte | CANCELLED) == Decode(byte).(cancelled := true)
    ensures Decode(byte & !ENABLE) == Decode(byte).(enable := false)
    ensures Decode(byte & !DONE) == Decode(byte).(done := false)
    ensures Decode(byte & !EDGES_READ) == Decode(byte).(read := false)
    ensures Decode(byte & !CANCELLED) == Decode(byte).(cancelled := false)
    ensures (if byte == 0 then 1 as bv8 else 0) & ENABLE != 0 <==> Decode(byte) == CLEAR
    ensures (byte | ENABLE | DONE | EDGES_READ | CANCELLED) & 0xF0 == 0
  {
  }

  /** The bits of the byte. */
  lemma FlagValues()
    ensures Decode(0x00) == CLEAR
    ensures Decode(0x01) == CLEAR.(enable := true) && Decode(0x02) == CLEAR.(done := true)
    ensures Decode(0x04) == CLEAR.(read := true) && Decode(0x08) == CLEAR.(cancelled := true)
  {
  }

  // ---- The device ----

  /** What the handler reads from the timers: T0INT of TCSR0, and the two load registers. */
  datatype Irq = Irq(t0int: bool, tlr0: Word, tlr1: Word)

  function EdgeOf(irq: Irq): Edge {
    if irq.t0int then Edge(High, irq.tlr0) else Edge(Low, irq.tlr1)
  }

  /** The edge is what an interrupt shows: TLR0 belongs to HIGH, TLR1 to LOW. */
  predicate Records(e: Edge, irq: Irq) {
    && (e.level == High <==> irq.t0int)
    && (irq.t0int ==> e.count == irq.tlr0) && (!irq.t0int ==> e.count == irq.tlr1)
  }

  function EdgesOf(irqs: seq<Irq>): (edges: seq<Edge>)
    ensures |edges| == |irqs|
  {
    seq(|irqs|, i requires 0 <= i < |irqs| => EdgeOf(irqs[i]))
  }

  /** The driver's fields. `stored` has one cell more than the C array: it stands for the
      memory just behind the array, which the handler can reach (see WriteStaysInside). */
  datatype Device = Device(stored: seq<Edge>, ptr: nat, target: nat, flags: Flags)

  predicate Fits(d: Device) {
    |d.stored| == MAX_COUNT + 1 && d.ptr <= MAX_COUNT && d.target <= MAX_COUNT
  }

  /** The handler acts on an interrupt only while this holds. */
  predicate Gate(d: Device) { d.flags.enable && !d.flags.done }

  /** The cell the handler writes on `irq`, if it writes one. */
  function WriteIndex(d: Device, irq: Irq): (r: int)
    requires Fits(d)
  {
    if !Gate(d) then -1
    else if d.ptr > 0 then if d.stored[d.ptr - 1].level != EdgeOf(irq).level then d.ptr else -1
    else if EdgeOf(irq).level == High then 0 else -1
  }

  /** timer_irq_handler, which runs under the spinlock and so is one step. */
  function OnIrq(d: Device, irq: Irq): (r: Device)
    requires Fits(d)
    ensures Fits(r) && r.target == d.target
    ensures r.flags == d.flags.(done := r.flags.done)
    ensures !Gate(d) ==> r == d
  {
    if !Gate(d) then
      d
    else
      var e := EdgeOf(irq);
      if d.ptr > 0 then
        if d.stored[d.ptr - 1].level != e.level then
          var w := d.stored[d.ptr := e];
          if d.ptr < d.target then
            d.(stored := w, ptr := d.ptr + 1)
          else
            d.(stored := w, flags := d.flags.(done := true))
        else
          d
      else if e.level == High then
        d.(stored := d.stored[0 := e], ptr := 1)
      else
        d
  }

  function OnIrqs(d: Device, irqs: seq<Irq>): (r: Device)
    requires Fits(d)
    ensures Fits(r) && r.target == d.target
    ensures !Gate(d) ==> r == d
  {
    if irqs == [] then d else OnIrq(OnIrqs(d, irqs[..|irqs| - 1]), irqs[|irqs| - 1])
  }

  function Min(a: int, b: int): int { if a <= b then a else b }

  /** How many edges a capture holds when it is full: asking for none still keeps one. */
  function Goal(target: nat): nat { if target == 0 then 1 else target }

  /** The level of the last edge a full capture keeps. */
  function LastLevel(goal: nat): Level { if goal % 2 == 1 then High else Low }

  /** One of the edges would follow the last edge of a full capture. */
  predicate Opposed(edges: seq<Edge>, goal: nat) {
    exists i :: 0 <= i < |edges| && edges[i].level != LastLevel(goal)
  }

  lemma OpposedSnoc(edges: seq<Edge>, e: Edge, goal: nat)
    ensures Opposed(edges + [e], goal) <==> Opposed(edges, goal) || e.level != LastLevel(goal)
  {
    var r := edges + [e];
    assert r[|edges|] == e;
    if Opposed(edges, goal) {
      var i :| 0 <= i < |edges| && edges[i].level != LastLevel(goal);
      assert r[i] == edges[i];
    }
  }

  /** The pointer and the cells below it, as a function of the edges offered since the pointer
      was cleared. */
  predicate Tracks(d: Device, seen: seq<Edge>)
    requires Fits(d)
  {
    var f := Transitions(seen);
    d.ptr == Min(|f|, Goal(d.target)) && d.stored[..d.ptr] == f[..d.ptr]
  }

  /** A device that is in step and still below, or just at, its goal. */
  lemma TracksStepFilling(d: Device, seen: seq<Edge>, irq: Irq)
    requires Fits(d) && Tracks(d, seen) && Gate(d) && |Transitions(seen)| <= Goal(d.target)
    ensures var r, f, g := OnIrq(d, irq), Transitions(seen + [EdgeOf(irq)]), Goal(d.target);
            && Tracks(r, seen + [EdgeOf(irq)])
            && (r.flags.done <==> |f| > g)
  {
    var e, f, r := EdgeOf(irq), Transitions(seen), OnIrq(d, irq);
    TransitionsSnoc(seen, e);
    assert d.stored[..d.ptr] == f;
    if d.ptr > 0 {
      assert d.stored[d.ptr - 1] == f[d.ptr - 1];
      if e.level != LineLevel(f) {
        assert r.stored == d.stored[d.ptr := e];
        assert r.stored[..d.ptr] == f;
        assert r.stored[..d.ptr + 1] == f + [e];
      }
    } else if e.level == High {
      assert r.stored[..1] == [e];
    }
  }

  /** A device whose full capture lost its DONE flag: the readable prefix stays put, and DONE
      comes back with the next edge that would follow it. */
  lemma TracksStepFull(d: Device, seen: seq<Edge>, irq: Irq)
    requires Fits(d) && Tracks(d, seen) && Gate(d) && |Transitions(seen)| > Goal(d.target)
    ensures Tracks(OnIrq(d, irq), seen + [EdgeOf(irq)])
    ensures |Transitions(seen + [EdgeOf(irq)])| > Goal(d.target)
    ensures OnIrq(d, irq).flags.done <==> EdgeOf(irq).level != LastLevel(Goal(d.target))
  {
    hide Transitions, EdgeOf;
    var e, f, r := EdgeOf(irq), Transitions(seen), OnIrq(d, irq);
    TransitionsSnoc(seen, e);
    TransitionsAlternate(seen);
    assert d.ptr == Goal(d.target) == r.ptr;
    assert d.stored[d.ptr - 1] == d.stored[..d.ptr][d.ptr - 1] == f[d.ptr - 1];
    assert r.stored[..d.ptr] == d.stored[..d.ptr];
    assert (f + [e])[..d.ptr] == f[..d.ptr];
  }

  lemma EdgesOfSnoc(irqs: seq<Irq>)
    requires irqs != []
    ensures EdgesOf(irqs) == EdgesOf(irqs[..|irqs| - 1]) + [EdgeOf(irqs[|irqs| - 1])]
  {
  }

  /** `d` after a capture was offered `seen`: the first Goal + 1 transitions over the old cells,
      the pointer stopped at the goal, and DONE once a transition beyond the goal came. */
  function ClosedForm(d: Device, seen: seq<Edge>): Device
    requires Fits(d)
  {
    var f, g := Transitions(seen), Goal(d.target);
    var k := Min(|f|, g + 1);
    Device(f[..k] + d.stored[k..], Min(|f|, g), d.target,
           if |f| > g then d.flags.(done := true) else d.flags)
  }

  lemma ClosedFormStep(d: Device, seen: seq<Edge>, irq: Irq)
    requires Fits(d) && Gate(d) && Fits(ClosedForm(d, seen))
    ensures OnIrq(ClosedForm(d, seen), irq) == ClosedForm(d, seen + [EdgeOf(irq)])
  {
    hide Transitions, EdgeOf;
    var p, e, f, g := ClosedForm(d, seen), EdgeOf(irq), Transitions(seen), Goal(d.target);
    TransitionsSnoc(seen, e);
    if |f| > g {
      assert !Gate(p);
      assert Transitions(seen + [e])[..g + 1] == f[..g + 1];
    } else {
      assert p.stored == f + d.stored[|f|..];
      assert |f| > 0 ==> p.stored[|f| - 1].level == LineLevel(f);
      if e.level != LineLevel(f) {
        assert p.stored[|f| := e] == (f + [e]) + d.stored[|f| + 1..];
        assert (f + [e])[..|f| + 1] == f + [e];
      }
    }
  }

  /** Everything any number of interrupts leave behind once the pointer has been cleared. */
  lemma {:induction false} CaptureClosedForm(d: Device, irqs: seq<Irq>)
    requires Fits(d) && Gate(d) && d.ptr == 0
    ensures OnIrqs(d, irqs) == ClosedForm(d, EdgesOf(irqs))
  {
    if irqs == [] {
      assert [] + d.stored[0..] == d.stored;
    } else {
      var n := |irqs| - 1;
      CaptureClosedForm(d, irqs[..n]);
      EdgesOfSnoc(irqs);
      ClosedFormStep(d, EdgesOf(irqs[..n]), irqs[n]);
    }
  }

  // ---- The same, said with the interrupts themselves ----

  predicate Positions(at: seq<nat>, n: nat) {
    && (forall i :: 0 <= i < |at| ==> at[i] < n)
    && (forall i, j :: 0 <= i < j < |at| ==> at[i] < at[j])
  }

  /** Where the run of levels that begins at at[i] ends. */
  function RunEnd(at: seq<nat>, n: nat, i: nat): nat { if i + 1 < |at| then at[i + 1] else n }

  /** `at` are the positions of the interrupts that change the line: T0INT is clear before the
      first, set from it to the second, clear again from there to the third, and so on. */
  ghost predicate Changes(irqs: seq<Irq>, at: seq<nat>) {
    && Positions(at, |irqs|)
    && (forall k :: 0 <= k < |irqs| && (at == [] || k < at[0]) ==> !irqs[k].t0int)
    && (forall i, k :: 0 <= i < |at| && at[i] <= k < |irqs| && k < RunEnd(at, |irqs|, i) ==>
          (irqs[k].t0int <==> i % 2 == 0))
  }

  /** Where in the interrupts the transitions are. */
  function ChangesOf(irqs: seq<Irq>): seq<nat> {
    if irqs == [] then []
    else
      var k := |irqs| - 1;
      if EdgeOf(irqs[k]).level != LineLevel(EdgesOf(irqs[..k])) then ChangesOf(irqs[..k]) + [k]
      else ChangesOf(irqs[..k])
  }

  /** An interrupt that changes the line. */
  lemma ChangesGrow(irqs: seq<Irq>, at: seq<nat>, irq: Irq)
    requires Changes(irqs, at) && irq.t0int != (|at| % 2 == 1)
    ensures Changes(irqs + [irq], at + [|irqs|])
  {
    var all, more, n := irqs + [irq], at + [|irqs|], |irqs|;
    forall i, k | 0 <= i < |more| && more[i] <= k < |all| && k < RunEnd(more, |all|, i)
      ensures all[k].t0int <==> i % 2 == 0
    {
      if k < n {
        assert at[i] <= k < RunEnd(at, n, i);
      }
    }
  }

  /** One that does not. */
  lemma ChangesStay(irqs: seq<Irq>, at: seq<nat>, irq: Irq)
    requires Changes(irqs, at) && irq.t0int == (|at| % 2 == 1)
    ensures Changes(irqs + [irq], at)
  {
    var all, n := irqs + [irq], |irqs|;
    forall i, k | 0 <= i < |at| && at[i] <= k < |all| && k < RunEnd(at, |all|, i)
      ensures all[k].t0int <==> i % 2 == 0
    {
      if k < n {
        assert at[i] <= k < RunEnd(at, n, i);
      }
    }
  }

  lemma ChangesOfUnfold(irqs: seq<Irq>, irq: Irq)
    ensures EdgesOf(irqs + [irq]) == EdgesOf(irqs) + [EdgeOf(irq)]
    ensures ChangesOf(irqs + [irq]) ==
            if EdgeOf(irq).level != LineLevel(EdgesOf(irqs)) then ChangesOf(irqs) + [|irqs|]
            else ChangesOf(irqs)
  {
    hide LineLevel, EdgeOf;
    assert (irqs + [irq])[..|irqs + [irq]| - 1] == irqs;
    EdgesOfSnoc(irqs + [irq]);
  }

  /** Positions and transitions grow together. */
  lemma ChangesOfSnoc(irqs: seq<Irq>, irq: Irq)
    ensures var f, at := Transitions(EdgesOf(irqs)), ChangesOf(irqs);
            var all, turns := irqs + [irq], irq.t0int != (|f| % 2 == 1);
            && ChangesOf(all) == (if turns then at + [|irqs|] else at)
            && Transitions(EdgesOf(all)) == (if turns then f + [EdgeOf(irq)] else f)
  {
    hide Transitions, ChangesOf, EdgesOf;
    ChangesOfUnfold(irqs, irq);
    TransitionsSnoc(EdgesOf(irqs), EdgeOf(irq));
    TransitionsAlternate(EdgesOf(irqs));
  }

  lemma {:induction false} ChangesAreTransitions(irqs: seq<Irq>)
    ensures var at, f := ChangesOf(irqs), Transitions(EdgesOf(irqs));
            && Changes(irqs, at) && |at| == |f|
            && forall i :: 0 <= i < |f| ==> at[i] < |irqs| && Records(f[i], irqs[at[i]])
  {
    hide Changes, ChangesOf, Transitions, EdgesOf;
    if irqs == [] {
      NoChanges();
    } else {
      var k := |irqs| - 1;
      assert irqs == irqs[..k] + [irqs[k]];
      ChangesAreTransitions(irqs[..k]);
      ChangesOfSnoc(irqs[..k], irqs[k]);
      var at := ChangesOf(irqs[..k]);
      if irqs[k].t0int != (|at| % 2 == 1) {
        ChangesGrow(irqs[..k], at, irqs[k]);
      } else {
        ChangesStay(irqs[..k], at, irqs[k]);
      }
    }
  }

  lemma NoChanges()
    ensures Changes([], []) && ChangesOf([]) == [] && Transitions(EdgesOf([])) == []
  {
  }

  /** A capture in the interrupts' own terms: the cells hold, in order, level and load register of
      the interrupts that change the line, up to the one that completes it. */
  lemma CellsAreInterrupts(d: Device, irqs: seq<Irq>)
    requires Fits(d) && Gate(d) && d.ptr == 0
    ensures var r, at, g := OnIrqs(d, irqs), ChangesOf(irqs), Goal(d.target);
            && Changes(irqs, at)
            && r.ptr == Min(|at|, g) && (r.flags.done <==> |at| > g)
            && forall i :: 0 <= i < |at| && i <= g ==>
                 at[i] < |irqs| && Records(r.stored[i], irqs[at[i]])
  {
    hide Changes, ChangesOf, OnIrqs, Transitions;
    CaptureClosedForm(d, irqs);
    ChangesAreTransitions(irqs);
  }

  /** Where the handler writes: one past the target at most, and there only to finish the
      capture. So the C array is left exactly when the target is the admitted maximum. What it
      writes: the level T0INT tells, and the load register that belongs to it. */
  lemma WriteStaysInside(d: Device, seen: seq<Edge>, irq: Irq)
    requires Fits(d) && Tracks(d, seen)
    ensures var w := WriteIndex(d, irq);
            && w <= Goal(d.target)
            && (w >= 0 ==> OnIrq(d, irq).stored == d.stored[w := EdgeOf(irq)])
            && (w < 0 ==> OnIrq(d, irq).stored == d.stored)
            && (w >= 0 ==> Records(OnIrq(d, irq).stored[w], irq))
            && (w == MAX_COUNT <==> && d.target == MAX_COUNT
                                    && Gate(d) && OnIrq(d, irq).flags.done)
  {
  }
}
