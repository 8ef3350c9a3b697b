/** The outcome of a whole start, cancel or read-out, with interrupts between its statements. */
module PulseCalls {
  import opened PulseFilter
  import opened PulseDevice
  import opened PulseMachine
  import opened PulseRuns
  import opened Words

  /** Edges that can reach a capture while its own start is still running. */
  function LateWindow(env: Stmt -> seq<Irq>): seq<Edge> {
    EdgesOf(env(ClearRead)) + (EdgesOf(env(ClearCancelled)) + EdgesOf(env(StartTimer)))
  }

  /** What reaches the capture between SetEnable and ClearDone. */
  function EarlyWindow(before: Device, env: Stmt -> seq<Irq>): seq<Edge> {
    if before.flags.enable then [] else EdgesOf(env(ClearDone))
  }

  /** The gate opens with SetEnable, unless a finished capture still holds DONE; then it opens
      with ClearDone. */
  function OpenWindow(before: Device, env: Stmt -> seq<Irq>): seq<Edge> {
    EarlyWindow(before, env) + LateWindow(env)
  }

  /** The capture ran to its end after SetEnable and before ClearDone. */
  predicate CompletesEarly(before: Device, n: Word, env: Stmt -> seq<Irq>) {
    !before.flags.enable && |Transitions(EdgesOf(env(ClearDone)))| > Goal(n)
  }

  lemma CompleteStep(m: Machine, env: Stmt -> seq<Irq>)
    requires Sane(m) && m.pc.At?
    ensures Complete(m, env) == Complete(Advance(m, env(m.pc.stmt)), env)
  {
  }

  function Prepared(m: Machine, n: Word): Machine
  {
    m.(dev := m.dev.(target := n, ptr := 0), seen := [], lost := false, late := [],
       pc := At(SetEnable, n))
  }

  /** An admitted start reaches SetEnable with the gate still shut. */
  lemma StartPrepares(m: Machine, env: Stmt -> seq<Irq>)
    requires Inv(m) && m.pc.At? && m.pc.stmt == TestCount
    ensures m.pc.n > MAX_COUNT ==> Complete(m, env) == Return(m, EINVAL)
    ensures m.pc.n <= MAX_COUNT ==>
              Inv(Prepared(m, m.pc.n)) && Complete(m, env) == Complete(Prepared(m, m.pc.n), env)
  {
    hide Complete;
    var n := m.pc.n;
    CompleteStep(m, env);
    if n > MAX_COUNT {
      CompleteIdle(Return(m, EINVAL), env);
    } else {
      var m1 := m.(pc := At(InitTimer, n));
      assert Advance(m, env(TestCount)) == m1;
      CompleteStep(m1, env);
      var m2 := m.(pc := At(SetTarget, n));
      assert Advance(m1, env(InitTimer)) == m2;
      CompleteStep(m2, env);
      var m3 := m.(dev := m.dev.(target := n), pc := At(ClearPtr, n));
      assert Advance(m2, env(SetTarget)) == m3;
      CompleteStep(m3, env);
      assert Advance(m3, env(ClearPtr)) == Prepared(m, n);
      AdvanceKeeps(m, env(TestCount));
      AdvanceKeeps(m1, env(InitTimer));
      AdvanceKeeps(m2, env(SetTarget));
      AdvanceKeeps(m3, env(ClearPtr));
    }
  }

  /** Clearing DONE turns a record of what was shown into a record of what is lost. */
  lemma ClearedReflects(d: Machine, offered: seq<Edge>, late: seq<Edge>)
    requires InStep(d) && d.dev.flags.enable && !d.lost && Reflects(d, offered, late)
    ensures var r := SetFlags(d, d.dev.flags.(done := false))
                     .(lost := d.dev.flags.done && d.seen != []);
            && (r.lost <==> |Transitions(offered)| > Goal(d.dev.target))
            && Reflects(r, offered, [])
  {
    hide Tracks, Opposed;
    if d.dev.flags.done {
      assert |Transitions(d.seen)| > Goal(d.dev.target);
      assert d.late == [];
    }
  }

  lemma NothingOffered(e: Machine)
    requires Inv(e) && e.pc.At? && e.pc.stmt == ClearDone && e.seen == []
    ensures !e.lost && e.late == [] && Transitions([]) == [] && Shows([], [], Goal(e.dev.target))
    ensures Gate(e.dev) ==> InStep(e)
  {
  }

  /** ClearDone wipes out a DONE that the capture itself has set in the meantime. */
  lemma ClearDoneReflects(e: Machine, irqs: seq<Irq>, offered: seq<Edge>)
    requires Inv(e) && e.pc.At? && e.pc.stmt == ClearDone && e.dev.flags.enable && e.seen == []
    requires offered == if Gate(e.dev) then EdgesOf(irqs) else []
    ensures var live := Advance(e, irqs);
            && live.dev.flags.enable && !live.dev.flags.done
            && (live.lost <==> |Transitions(offered)| > Goal(e.dev.target))
            && Reflects(live, offered, [])
  {
    hide InStep, Transitions, Opposed, Shows, SameFill, Inv;
    NothingOffered(e);
    InvSane(e);
    if Gate(e.dev) {
      DeliverReflects(e, irqs, [], []);
      assert [] + EdgesOf(irqs) == EdgesOf(irqs);
      DeliverLate(e, irqs);
      ClearedReflects(Deliver(e, irqs), offered, offered);
    }
  }

  lemma {:induction false} DeliverLate(m: Machine, irqs: seq<Irq>)
    requires Sane(m) && !m.lost
    ensures Deliver(m, irqs).late == m.late
  {
    if irqs != [] {
      DeliverLate(m, irqs[..|irqs| - 1]);
    }
  }

  /** From SetEnable on: the state in which start executes ClearRead. */
  lemma StartOpens(m: Machine, env: Stmt -> seq<Irq>)
    requires Inv(m) && m.pc.At? && m.pc.stmt == SetEnable
    ensures var n, live := m.pc.n, Advance(Advance(m, env(SetEnable)), env(ClearDone));
            && Inv(live) && Complete(m, env) == Complete(live, env)
            && live.pc == At(ClearRead, n) && live.dev.target == n
            && live.dev.flags.enable && !live.dev.flags.done
            && (live.lost <==> CompletesEarly(m.dev, n, env))
            && Reflects(live, EarlyWindow(m.dev, env), [])
  {
    hide Complete, Reflects, Deliver;
    var n := m.pc.n;
    var e := Advance(m, env(SetEnable));
    CompleteStep(m, env);
    AdvanceKeeps(m, env(SetEnable));
    assert e == m.(dev := m.dev.(flags := m.dev.flags.(enable := true)), started := true,
                   pc := At(ClearDone, n));
    CompleteStep(e, env);
    AdvanceKeeps(e, env(ClearDone));
    ClearDoneReflects(e, env(ClearDone), EarlyWindow(m.dev, env));
  }

  /** One of start's last three statements, after DONE has been cleared. */
  lemma TailStep(m: Machine, irqs: seq<Irq>, offered: seq<Edge>, late: seq<Edge>)
    requires Inv(m) && m.pc.At? && m.pc.stmt in {ClearRead, ClearCancelled, StartTimer}
    requires Reflects(m, offered, late)
    ensures var r, f := Advance(m, irqs), m.dev.flags.(done := Advance(m, irqs).dev.flags.done);
            && Inv(r) && r.dev.target == m.dev.target && r.lost == m.lost
            && (match m.pc.stmt
                case ClearRead => r.pc == At(ClearCancelled, m.pc.n) && r.dev.flags == f.(read := false)
                case ClearCancelled =>
                  r.pc == At(StartTimer, m.pc.n) && r.dev.flags == f.(cancelled := false)
                case _ => r.pc.Idle? && r.ret == Ok && r.dev.flags == f)
            && Reflects(r, offered + EdgesOf(irqs), late + EdgesOf(irqs))
  {
    AdvanceKeeps(m, irqs);
    DeliverReflects(m, irqs, offered, late);
  }

  /** From ClearRead on: start returns 0, whatever has been lost before, and the record goes on. */
  lemma StartFinishes(m: Machine, env: Stmt -> seq<Irq>, offered: seq<Edge>, late: seq<Edge>)
    requires Inv(m) && m.pc.At? && m.pc.stmt == ClearRead && m.dev.flags.enable
    requires Reflects(m, offered, late)
    ensures var r := Complete(m, env);
            && Inv(r) && r.pc.Idle? && r.ret == Ok && r.dev.target == m.dev.target && r.lost == m.lost
            && r.dev.flags == Flags(true, r.dev.flags.done, false, false)
            && Reflects(r, offered + LateWindow(env), late + LateWindow(env))
  {
    hide Complete, Advance, Inv, Reflects;
    InvSane(m);
    var w1, w2, w3 := EdgesOf(env(ClearRead)), EdgesOf(env(ClearCancelled)), EdgesOf(env(StartTimer));
    var m1 := Advance(m, env(ClearRead));
    TailStep(m, env(ClearRead), offered, late);
    CompleteStep(m, env);
    var m2 := Advance(m1, env(ClearCancelled));
    TailStep(m1, env(ClearCancelled), offered + w1, late + w1);
    CompleteStep(m1, env);
    var m3 := Advance(m2, env(StartTimer));
    TailStep(m2, env(StartTimer), offered + w1 + w2, late + w1 + w2);
    CompleteStep(m2, env);
    CompleteIdle(m3, env);
    assert offered + w1 + w2 + w3 == offered + LateWindow(env);
    assert late + w1 + w2 + w3 == late + LateWindow(env);
  }

  // ---- Start ----

  /** The state in which start's admission test is decided, and whether it refuses. */
  function AtAdmission(m: Machine, env: Stmt -> seq<Irq>): (r: Machine)
    requires Sane(m)
    ensures Sane(r)
  {
    if m.dev.flags.enable then Deliver(Deliver(m, env(TestEnable)), env(TestDone))
    else Deliver(m, env(TestEnable))
  }

  /** Start refuses with EBUSY exactly when the running capture has still not finished by the
      second test, with EINVAL exactly when it is admitted and asks for too many edges, and a
      refusal changes nothing. */
  lemma StartAdmission(m: Machine, n: Word, env: Stmt -> seq<Irq>)
    requires Inv(m) && m.pc.Idle?
    ensures var q, r := AtAdmission(m, env), Complete(Act(m, CallStart(n)), env);
            && Inv(q)
            && (Gate(q.dev) ==> r == q.(ret := EBUSY))
            && (!Gate(q.dev) && n > MAX_COUNT ==> r == q.(ret := EINVAL))
            && (!Gate(q.dev) && n <= MAX_COUNT ==>
                  Inv(Prepared(q, n)) && r == Complete(Prepared(q, n), env))
  {
    hide Complete;
    var m0 := m.(pc := At(TestEnable, n));
    var q := AtAdmission(m, env);
    DeliverKeeps(m, env(TestEnable));
    DeliverFlags(m.dev, env(TestEnable));
    DeliverOtherPc(m, m0.pc, env(TestEnable));
    CompleteStep(m0, env);
    AdvanceKeeps(m0, env(TestEnable));
    if m.dev.flags.enable {
      var m1 := Advance(m0, env(TestEnable));
      assert m1 == Deliver(m, env(TestEnable)).(pc := At(TestDone, n));
      DeliverKeeps(Deliver(m, env(TestEnable)), env(TestDone));
      DeliverOtherPc(Deliver(m, env(TestEnable)), m1.pc, env(TestDone));
      DeliverFlags(m1.dev, env(TestDone));
      CompleteStep(m1, env);
      AdvanceKeeps(m1, env(TestDone));
      if Gate(q.dev) {
        assert Advance(m1, env(TestDone)) == q.(pc := Idle, ret := EBUSY);
        CompleteIdle(q.(ret := EBUSY), env);
      } else {
        assert Advance(m1, env(TestDone)) == q.(pc := At(TestCount, n));
        StartPrepares(q.(pc := At(TestCount, n)), env);
      }
    } else {
      assert Advance(m0, env(TestEnable)) == q.(pc := At(TestCount, n));
      StartPrepares(q.(pc := At(TestCount, n)), env);
    }
  }

  lemma {:induction false} DeliverOtherPc(m: Machine, pc: Pc, irqs: seq<Irq>)
    requires Sane(m) && Sane(m.(pc := pc))
    ensures Deliver(m.(pc := pc), irqs) == Deliver(m, irqs).(pc := pc)
  {
    if irqs != [] {
      DeliverOtherPc(m, pc, irqs[..|irqs| - 1]);
    }
  }

  /** An admitted capture, seen at any later time before the next call. Pointer and cells are the
      filter of all that the gate was offered. DONE is too, unless the capture completed early:
      then it takes one more edge to follow the last one kept. */
  lemma CaptureOutcome(m: Machine, n: Word, env: Stmt -> seq<Irq>, after: seq<Irq>)
    requires Inv(m) && m.pc.Idle? && !Gate(AtAdmission(m, env).dev) && n <= MAX_COUNT
    ensures var q, r := AtAdmission(m, env), Complete(Act(m, CallStart(n)), env);
            var d, g := Deliver(r, after).dev, Goal(n);
            var f := Transitions(OpenWindow(q.dev, env) + EdgesOf(after));
            && r.ret == Ok && d.target == n
            && d.flags == Flags(true, d.flags.done, false, false)
            && d.ptr == Min(|f|, g) && d.stored[..d.ptr] == f[..d.ptr]
            && (d.flags.done <==>
                && |f| > g
                && (CompletesEarly(q.dev, n, env) ==> Opposed(LateWindow(env) + EdgesOf(after), g)))
  {
    hide Complete, Advance, Reflects, Transitions, CompletesEarly;
    var q := AtAdmission(m, env);
    StartAdmission(m, n, env);
    var p := Prepared(q, n);
    StartOpens(p, env);
    var live := Advance(Advance(p, env(SetEnable)), env(ClearDone));
    StartFinishes(live, env, EarlyWindow(q.dev, env), []);
    var r := Complete(live, env);
    assert EarlyWindow(p.dev, env) + LateWindow(env) == OpenWindow(q.dev, env);
    assert [] + LateWindow(env) == LateWindow(env);
    assert CompletesEarly(p.dev, n, env) == CompletesEarly(q.dev, n, env) by { SameEarly(q, n, env); }
    DeliverReflects(r, after, OpenWindow(q.dev, env), LateWindow(env));
    ReflectsDevice(Deliver(r, after), OpenWindow(q.dev, env) + EdgesOf(after),
                   LateWindow(env) + EdgesOf(after));
  }

  lemma SameEarly(q: Machine, n: Word, env: Stmt -> seq<Irq>)
    ensures CompletesEarly(Prepared(q, n).dev, n, env) == CompletesEarly(q.dev, n, env)
  {
  }

  /** DONE says at every later time that the filter has passed the goal, exactly if the capture
      did not complete before its own start cleared DONE, or an edge that follows the last one
      kept has come since. */
  lemma EarlyCompletionIsLost(m: Machine, n: Word, env: Stmt -> seq<Irq>, after: seq<Irq>)
    requires Inv(m) && m.pc.Idle? && !Gate(AtAdmission(m, env).dev) && n <= MAX_COUNT
    ensures var q, r := AtAdmission(m, env), Complete(Act(m, CallStart(n)), env);
            var f := Transitions(OpenWindow(q.dev, env) + EdgesOf(after));
            (Deliver(r, after).dev.flags.done <==> |f| > Goal(n))
            <==> (!CompletesEarly(q.dev, n, env)
                  || Opposed(LateWindow(env) + EdgesOf(after), Goal(n)))
  {
    hide Complete, Transitions, Inv, Opposed, Deliver, AtAdmission;
    InvSane(m);
    var q := AtAdmission(m, env);
    CaptureOutcome(m, n, env, after);
    if CompletesEarly(q.dev, n, env) {
      var early, rest := EdgesOf(env(ClearDone)), LateWindow(env) + EdgesOf(after);
      TransitionsGrow(early, rest);
      assert OpenWindow(q.dev, env) + EdgesOf(after) == early + rest;
    }
  }

  function EarlyIrqs(s: Stmt): seq<Irq> {
    if s == ClearDone then [Irq(true, 5, 0), Irq(false, 0, 9)] else []
  }

  lemma UpDown(up: Edge, down: Edge)
    requires up.level == High && down.level == Low
    ensures |Transitions([up] + [down])| == 2
  {
    hide Transitions;
    TransitionsSnoc([], up);
    TransitionsSnoc([up], down);
    TransitionsAlternate([]);
    assert [] + [up] == [up];
  }

  lemma EarlyEdges()
    ensures LateWindow(EarlyIrqs) == [] && EarlyIrqs(TestEnable) == [] && EarlyIrqs(TestDone) == []
    ensures |Transitions(EdgesOf(EarlyIrqs(ClearDone)))| == 2
  {
    var up, down := Edge(High, 5), Edge(Low, 9);
    assert EdgesOf(EarlyIrqs(ClearDone)) == [up] + [down];
    UpDown(up, down);
  }

  /** One edge up and one down between lines 270 and 271: the first capture of one edge has all
      it needs, and the driver goes on reporting that it runs, until the next falling edge. */
  lemma LostCompletionExample()
    ensures var r := Complete(Act(Initial(), CallStart(1)), EarlyIrqs);
            && r.ret == Ok && GetState(r.dev) == RUN
            && |Transitions(OpenWindow(Initial().dev, EarlyIrqs))| == 2
            && GetState(Deliver(r, [Irq(false, 0, 11)]).dev) == FINISHED
  {
    hide Complete, Advance, EarlyIrqs, Transitions, LateWindow, Inv, Deliver;
    InitialHolds();
    EarlyEdges();
    var m := Initial();
    NothingAtAdmission();
    var w, down := EdgesOf(EarlyIrqs(ClearDone)), Irq(false, 0, 11);
    assert OpenWindow(m.dev, EarlyIrqs) == w + [] == w;
    assert w + EdgesOf([]) == w;
    CaptureOutcome(m, 1, EarlyIrqs, []);
    assert !Opposed([] + EdgesOf([]), 1);
    DeliverNothing(Complete(Act(m, CallStart(1)), EarlyIrqs));
    CaptureOutcome(m, 1, EarlyIrqs, [down]);
    assert Opposed([] + EdgesOf([down]), 1) by {
      assert ([] + EdgesOf([down]))[0] == Edge(Low, 11);
    }
    TransitionsGrow(w, EdgesOf([down]));
  }

  lemma NothingAtAdmission()
    ensures AtAdmission(Initial(), EarlyIrqs) == Initial()
  {
  }

  lemma DeliverNothing(m: Machine)
    requires Sane(m)
    ensures Deliver(m, []) == m
  {
  }

  // ---- Cancel ----

  /** The state in which cancel drops ENABLE, that is, shuts the gate. */
  function AtDrop(m: Machine, env: Stmt -> seq<Irq>): (r: Machine)
    requires Sane(m)
    ensures Sane(r)
  {
    Deliver(Deliver(Deliver(Deliver(m, env(TestAnyFlag)), env(DisableInterrupts)),
                    env(StopTimer)), env(DropEnable))
  }

  /** Cancel's last two statements, with the gate shut. */
  lemma CancelEnd(m: Machine, env: Stmt -> seq<Irq>)
    requires Sane(m) && m.pc.At? && m.pc.stmt == DropDone && !m.dev.flags.enable
    ensures Complete(m, env) ==
            m.(dev := m.dev.(flags := m.dev.flags.(done := false, cancelled := true)),
               pc := Idle, ret := Ok)
  {
    hide Complete;
    var m1 := m.(dev := m.dev.(flags := m.dev.flags.(done := false)), pc := At(SetCancelled, m.pc.n));
    CompleteStep(m, env);
    assert Advance(m, env(DropDone)) == m1;
    CompleteStep(m1, env);
    CompleteIdle(Advance(m1, env(SetCancelled)), env);
  }

  lemma CancelTail(m: Machine, env: Stmt -> seq<Irq>)
    requires Sane(m) && m.pc.At? && m.pc.stmt == DropEnable
    ensures var q := Deliver(m, env(DropEnable));
            var f := q.dev.flags.(enable := false, done := false, cancelled := true);
            Complete(m, env) == q.(dev := q.dev.(flags := f), pc := Idle, ret := Ok)
  {
    hide Complete;
    var q := Deliver(m, env(DropEnable));
    var m1 := q.(dev := q.dev.(flags := q.dev.flags.(enable := false)), pc := At(DropDone, m.pc.n));
    CompleteStep(m, env);
    assert Advance(m, env(DropEnable)) == m1;
    CancelEnd(m1, env);
  }

  /** Cancel's test of the whole flags byte tells whether any start has happened yet. */
  lemma CancelTest(m: Machine, irqs: seq<Irq>)
    requires Inv(m) && m.pc.Idle?
    ensures var q := Deliver(m, irqs);
            Advance(m.(pc := At(TestAnyFlag, 0)), irqs) ==
            if m.started then q.(pc := At(DisableInterrupts, 0)) else m.(ret := EIO)
  {
    DeliverKeeps(m, irqs);
    DeliverOtherPc(m, At(TestAnyFlag, 0), irqs);
    DeliverFlags(m.dev, irqs);
  }

  /** Cancel refuses only before the first start; otherwise it ends CANCELLED with the pointer
      and cells of the moment the gate shut. That includes a capture already cancelled, where
      the test as written does not refuse. */
  lemma CancelOutcome(m: Machine, env: Stmt -> seq<Irq>)
    requires Inv(m) && m.pc.Idle?
    ensures var q, r := AtDrop(m, env), Complete(Act(m, CallCancel), env);
            && Inv(q)
            && (!m.started ==> r == m.(ret := EIO))
            && (m.started ==>
                  r == q.(dev := q.dev.(flags := Flags(false, false, q.dev.flags.read, true)),
                          ret := Ok))
  {
    hide Complete, Advance, Inv;
    InvSane(m);
    var m0 := m.(pc := At(TestAnyFlag, 0));
    var q1 := Deliver(m, env(TestAnyFlag));
    var q2 := Deliver(q1, env(DisableInterrupts));
    var q3 := Deliver(q2, env(StopTimer));
    DeliverKeeps(m, env(TestAnyFlag));
    DeliverKeeps(q1, env(DisableInterrupts));
    DeliverKeeps(q2, env(StopTimer));
    DeliverKeeps(q3, env(DropEnable));
    CompleteStep(m0, env);
    CancelTest(m, env(TestAnyFlag));
    if m.started {
      CancelSteps(q1, q2, q3, env);
      CancelTail(q3.(pc := At(DropEnable, 0)), env);
      DeliverOtherPc(q3, At(DropEnable, 0), env(DropEnable));
    } else {
      CompleteIdle(m.(ret := EIO), env);
    }
  }

  lemma CancelSteps(q1: Machine, q2: Machine, q3: Machine, env: Stmt -> seq<Irq>)
    requires Sane(q1) && q2 == Deliver(q1, env(DisableInterrupts)) && q3 == Deliver(q2, env(StopTimer))
    ensures Complete(q1.(pc := At(DisableInterrupts, 0)), env)
            == Complete(q3.(pc := At(DropEnable, 0)), env)
  {
    hide Complete;
    DeliverOtherPc(q1, At(DisableInterrupts, 0), env(DisableInterrupts));
    CompleteStep(q1.(pc := At(DisableInterrupts, 0)), env);
    DeliverOtherPc(q2, At(StopTimer, 0), env(StopTimer));
    CompleteStep(q2.(pc := At(StopTimer, 0)), env);
  }

  /** Cancelling a finished capture leaves every read as it was exactly if the capture asked for
      at least one edge: asked for none, it kept one, and only cancel makes that one readable. */
  lemma CancelKeepsFinishedReads(m: Machine, env: Stmt -> seq<Irq>)
    requires Inv(m) && m.pc.Idle? && m.dev.flags.done
    ensures var r := Complete(Act(m, CallCancel), env);
            (forall count: nat :: ReadEdges(r.dev, count) == ReadEdges(m.dev, count))
            <==> m.dev.target >= 1
  {
    hide Complete;
    CancelOutcome(m, env);
    var r := Complete(Act(m, CallCancel), env);
    if m.dev.target == 0 {
      assert ReadEdges(m.dev, 1) == Got(Counts(m.dev.stored[..0]));
      assert ReadEdges(r.dev, 1) == Got(Counts(m.dev.stored[..1]));
    }
  }

  // ---- Read-out ----

  /** A read-out changes nothing but EDGES_READ, and that only if there was something to read. */
  lemma ReadOutOutcome(m: Machine, env: Stmt -> seq<Irq>)
    requires Inv(m) && m.pc.Idle?
    ensures var r := Complete(Act(m, CallReadOut), env);
            if Readable(m.dev) then
              r == m.(dev := m.dev.(flags := m.dev.flags.(read := true)), ret := Ok)
            else
              r == m.(ret := EBUSY)
  {
    var called := Act(m, CallReadOut);
    if Readable(m.dev) {
      CompleteStep(called, env);
    }
  }
}
