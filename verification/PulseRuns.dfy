/** What holds over every run of the capture driver, and what whole calls do. */
module PulseRuns {
  import opened PulseFilter
  import opened PulseDevice
  import opened PulseMachine
  import opened Words

  function Run(m: Machine, actions: seq<Action>): (r: Machine)
    requires Sane(m)
    ensures Sane(r)
    decreases |actions|
  {
    if actions == [] then m else Run(Act(m, actions[0]), actions[1..])
  }

  lemma {:induction false} RunKeeps(m: Machine, actions: seq<Action>)
    requires Inv(m)
    ensures Inv(Run(m, actions))
    decreases |actions|
  {
    if actions != [] {
      ActKeeps(m, actions[0]);
      RunKeeps(Act(m, actions[0]), actions[1..]);
    }
  }

  function Reached(actions: seq<Action>): Machine { Run(Initial(), actions) }

  /** Whenever the gate is open, in the middle of a call or not, the pointer and the cells below
      it are the transitions offered since the pointer was cleared: HIGH first, alternating. */
  lemma OpenGateHoldsTransitions(actions: seq<Action>)
    ensures var m := Reached(actions);
            var d, f := m.dev, Transitions(m.seen);
            Gate(d) ==>
              && d.ptr == Min(|f|, Goal(d.target)) && d.stored[..d.ptr] == f[..d.ptr]
              && (forall i :: 0 <= i < d.ptr ==>
                    d.stored[i].level == if i % 2 == 0 then High else Low)
  {
    InitialHolds();
    RunKeeps(Initial(), actions);
    var m := Reached(actions);
    TransitionsAlternate(m.seen);
    if Gate(m.dev) {
      forall i | 0 <= i < m.dev.ptr
        ensures m.dev.stored[i].level == if i % 2 == 0 then High else Low
      {
        assert m.dev.stored[i] == m.dev.stored[..m.dev.ptr][i];
      }
    }
  }

  /** In every run each handler write lands at most one past the target, and it leaves the C
      array exactly when it completes a capture of the maximal target. */
  lemma EveryWrite(actions: seq<Action>, irq: Irq)
    ensures var d := Reached(actions).dev;
            && WriteIndex(d, irq) <= Goal(d.target)
            && (WriteIndex(d, irq) == MAX_COUNT <==>
                d.target == MAX_COUNT && Gate(d) && OnIrq(d, irq).flags.done)
  {
    InitialHolds();
    RunKeeps(Initial(), actions);
    var m := Reached(actions);
    if Gate(m.dev) {
      WriteStaysInside(m.dev, m.seen, irq);
    }
  }

  // ---- Query functions ----

  /** pulsecap_edges_captured; NoReturn is the fall through its end. */
  datatype Captured = Count(n: nat) | NoReturn

  function EdgesCaptured(d: Device): Captured {
    if d.flags.enable || d.flags.cancelled then Count(d.ptr)
    else if d.flags.done then Count(d.target)
    else NoReturn
  }

  datatype State = IDLE | RUN | FINISHED

  function GetState(d: Device): State {
    if d.flags.enable then if d.flags.done then FINISHED else RUN else IDLE
  }

  /** Between calls of every run: the flags are coherent; cancel refuses, and the count query
      falls through, only before the first start; otherwise the count is the filter's. */
  lemma BetweenCalls(actions: seq<Action>)
    requires Reached(actions).pc.Idle?
    ensures var m := Reached(actions);
            var f := m.dev.flags;
            && (f.done ==> f.enable) && !(f.enable && f.cancelled)
            && (m.started <==> f.enable || f.cancelled)
            && (m.started <==> f != CLEAR)
            && (Act(Act(m, CallCancel), Next).ret == EIO && Act(Act(m, CallCancel), Next).pc.Idle?
                <==> !m.started)
            && EdgesCaptured(m.dev) ==
               (if m.started then Count(Min(|Transitions(m.seen)|, Goal(m.dev.target)))
                else NoReturn)
            && GetState(m.dev) ==
               (if !f.enable then IDLE
                else if |Transitions(m.seen)| > Goal(m.dev.target)
                        && (m.lost ==> Opposed(m.late, Goal(m.dev.target))) then FINISHED
                else RUN)
  {
    InitialHolds();
    RunKeeps(Initial(), actions);
  }

  // ---- Reading ----

  datatype ReadResult = Busy | Got(counts: seq<Word>)

  function Counts(edges: seq<Edge>): (r: seq<Word>)
    ensures |r| == |edges|
  {
    seq(|edges|, i requires 0 <= i < |edges| => edges[i].count)
  }

  /** pulsecap_read_edges. */
  function ReadEdges(d: Device, count: nat): ReadResult
    requires Fits(d)
  {
    if d.flags.done then Got(Counts(d.stored[..Min(count, d.target)]))
    else if d.flags.cancelled then Got(Counts(d.stored[..Min(count, d.ptr)]))
    else Busy
  }

  /** Although start never clears the array, a read returns only counts of edges offered since
      the latest start, in the filter's order. */
  lemma ReadsAreRecent(m: Machine, count: nat)
    requires Inv(m) && (m.pc.Idle? || m.pc.stmt.MarkRead?) && Readable(m.dev)
    ensures var f, d := Transitions(m.seen), m.dev;
            var k := Min(count, if d.flags.done then d.target else d.ptr);
            && k <= |f| && ReadEdges(d, count) == Got(Counts(f[..k]))
            && |ReadEdges(d, count).counts| == k
            && forall j :: 0 <= j < k ==> ReadEdges(d, count).counts[j] == f[j].count
  {
    var d := m.dev;
    var k := Min(count, if d.flags.done then d.target else d.ptr);
    assert d.stored[..k] == d.stored[..d.ptr][..k];
  }

  function Deliver(m: Machine, irqs: seq<Irq>): (r: Machine)
    requires Sane(m)
    ensures Sane(r) && r.pc == m.pc && r.ret == m.ret
    ensures r.started == m.started && r.lost == m.lost
    ensures r.dev == OnIrqs(m.dev, irqs)
    ensures !Gate(m.dev) ==> r == m
  {
    if irqs == [] then m else OnInterrupt(Deliver(m, irqs[..|irqs| - 1]), irqs[|irqs| - 1])
  }

  lemma {:induction false} DeliverKeeps(m: Machine, irqs: seq<Irq>)
    requires Inv(m)
    ensures Inv(Deliver(m, irqs))
  {
    if irqs != [] {
      DeliverKeeps(m, irqs[..|irqs| - 1]);
      InterruptKeeps(Deliver(m, irqs[..|irqs| - 1]), irqs[|irqs| - 1]);
    }
  }

  lemma {:induction false} DeliverFlags(d: Device, irqs: seq<Irq>)
    requires Fits(d)
    ensures OnIrqs(d, irqs).flags == d.flags.(done := OnIrqs(d, irqs).flags.done)
  {
    if irqs != [] {
      DeliverFlags(d, irqs[..|irqs| - 1]);
    }
  }

  /** Repeated reads agree whatever interrupts arrive between them. */
  lemma ReadsAgree(m: Machine, irqs: seq<Irq>, count: nat)
    requires Inv(m) && m.pc.Idle? && ReadEdges(m.dev, count) != Busy
    ensures ReadEdges(Deliver(m, irqs).dev, count) == ReadEdges(m.dev, count)
  {
    assert !Gate(m.dev);
  }

  // ---- Whole calls ----

  function Rank(pc: Pc): nat {
    if pc.Idle? then 0
    else match pc.stmt
      case TestEnable => 11 case TestDone => 10 case TestCount => 9 case InitTimer => 8
      case SetTarget => 7 case ClearPtr => 6 case SetEnable => 5 case ClearDone => 4
      case ClearRead => 3 case ClearCancelled => 2 case StartTimer => 1
      case TestAnyFlag => 6 case DisableInterrupts => 5 case StopTimer => 4
      case DropEnable => 3 case DropDone => 2 case SetCancelled => 1
      case MarkRead => 1
  }

  lemma StartRankDrops(m: Machine)
    requires Sane(m) && m.pc.At? && IsStart(m.pc.stmt)
    ensures Rank(ExecuteStart(m).pc) < Rank(m.pc)
  {
  }

  /** Lets interrupts arrive and then runs one statement of the call in progress. */
  function Advance(m: Machine, irqs: seq<Irq>): (r: Machine)
    requires Sane(m) && m.pc.At?
    ensures Sane(r) && Rank(r.pc) < Rank(m.pc)
  {
    var p := Deliver(m, irqs);
    if IsStart(p.pc.stmt) then StartRankDrops(p); ExecuteStart(p) else ExecuteOther(p)
  }

  lemma AdvanceKeeps(m: Machine, irqs: seq<Irq>)
    requires Inv(m) && m.pc.At?
    ensures Inv(Advance(m, irqs))
  {
    DeliverKeeps(m, irqs);
    ExecuteKeeps(Deliver(m, irqs));
  }

  /** Runs the call in progress to its end, with the interrupts env(s) arriving just before
      statement s. */
  function Complete(m: Machine, env: Stmt -> seq<Irq>): (r: Machine)
    requires Sane(m)
    ensures Sane(r) && r.pc.Idle?
    decreases Rank(m.pc)
  {
    if m.pc.Idle? then m else Complete(Advance(m, env(m.pc.stmt)), env)
  }

  lemma CompleteIdle(m: Machine, env: Stmt -> seq<Irq>)
    requires Sane(m) && m.pc.Idle?
    ensures Complete(m, env) == m
  {
  }

  lemma {:induction false} CompleteKeeps(m: Machine, env: Stmt -> seq<Irq>)
    requires Inv(m)
    ensures Inv(Complete(m, env))
    decreases Rank(m.pc)
  {
    if m.pc.At? {
      AdvanceKeeps(m, env(m.pc.stmt));
      CompleteKeeps(Advance(m, env(m.pc.stmt)), env);
    }
  }

  /** `seen` tells of `offered` all that matters: its transitions up to one past the goal. */
  predicate Shows(seen: seq<Edge>, offered: seq<Edge>, goal: nat) {
    var f := Transitions(offered);
    Transitions(seen) == f[..Min(|f|, goal + 1)]
  }

  /** Both sequences fill the same capture. */
  predicate SameFill(seen: seq<Edge>, offered: seq<Edge>, goal: nat) {
    var f, g := Transitions(seen), Transitions(offered);
    |f| > goal && |g| > goal && f[..goal] == g[..goal]
  }

  lemma ShowsSnoc(seen: seq<Edge>, offered: seq<Edge>, goal: nat, e: Edge)
    requires Shows(seen, offered, goal)
    ensures |Transitions(seen)| <= goal ==> Shows(seen + [e], offered + [e], goal)
    ensures |Transitions(seen)| > goal ==> Shows(seen, offered + [e], goal)
  {
    TransitionsSnoc(seen, e);
    TransitionsSnoc(offered, e);
    var f := Transitions(offered);
    if |f| > goal {
      assert (f + [e])[..goal + 1] == f[..goal + 1];
    } else {
      assert f[..|f|] == f;
      assert (f + [e])[..|f| + 1] == f + [e];
    }
  }

  lemma SameFillSnoc(seen: seq<Edge>, offered: seq<Edge>, goal: nat, e: Edge)
    requires SameFill(seen, offered, goal)
    ensures SameFill(seen + [e], offered + [e], goal) && SameFill(seen, offered + [e], goal)
  {
    TransitionsSnoc(seen, e);
    TransitionsSnoc(offered, e);
  }

  /** The machine's record tells all that matters of `offered`, the edges that arrived since the
      gate was opened, and of `late`, those that arrived since start cleared DONE. */
  predicate Reflects(m: Machine, offered: seq<Edge>, late: seq<Edge>) {
    var goal := Goal(m.dev.target);
    if m.lost then
      SameFill(m.seen, offered, goal) && (Opposed(m.late, goal) <==> Opposed(late, goal))
    else
      Shows(m.seen, offered, goal)
  }

  lemma InterruptReflects(m: Machine, irq: Irq, offered: seq<Edge>, late: seq<Edge>)
    requires InStep(m) && Sane(m) && m.dev.flags.enable && Reflects(m, offered, late)
    ensures var r, e := OnInterrupt(m, irq), EdgeOf(irq);
            && InStep(r) && r.dev.flags == m.dev.flags.(done := r.dev.flags.done)
            && Reflects(r, offered + [e], late + [e])
  {
    hide Tracks, Transitions, OnIrq, Opposed;
    var e, goal := EdgeOf(irq), Goal(m.dev.target);
    OpposedSnoc(late, e, goal);
    OpposedSnoc(m.late, e, goal);
    if Gate(m.dev) {
      InterruptKeepsInStep(m, irq);
    }
    if m.lost {
      SameFillSnoc(m.seen, offered, goal, e);
    } else {
      ShowsSnoc(m.seen, offered, goal, e);
    }
  }

  lemma {:induction false} DeliverReflects(m: Machine, irqs: seq<Irq>,
                                           offered: seq<Edge>, late: seq<Edge>)
    requires InStep(m) && Sane(m) && m.dev.flags.enable && Reflects(m, offered, late)
    ensures var r := Deliver(m, irqs);
            && InStep(r) && r.dev.flags == m.dev.flags.(done := r.dev.flags.done)
            && Reflects(r, offered + EdgesOf(irqs), late + EdgesOf(irqs))
  {
    hide InStep, Reflects;
    if irqs == [] {
      assert offered + EdgesOf([]) == offered && late + EdgesOf([]) == late;
    } else {
      var k := |irqs| - 1;
      var es := EdgesOf(irqs[..k]);
      DeliverReflects(m, irqs[..k], offered, late);
      EdgesOfSnoc(irqs);
      assert offered + EdgesOf(irqs) == (offered + es) + [EdgeOf(irqs[k])];
      assert late + EdgesOf(irqs) == (late + es) + [EdgeOf(irqs[k])];
      InterruptReflects(Deliver(m, irqs[..k]), irqs[k], offered + es, late + es);
    }
  }

  /** What such a record says of the device. */
  lemma ReflectsDevice(m: Machine, offered: seq<Edge>, late: seq<Edge>)
    requires InStep(m) && m.dev.flags.enable && Reflects(m, offered, late)
    ensures var d, f, goal := m.dev, Transitions(offered), Goal(m.dev.target);
            && d.ptr == Min(|f|, goal) && d.stored[..d.ptr] == f[..d.ptr]
            && (d.flags.done <==> |f| > goal && (m.lost ==> Opposed(late, goal)))
  {
  }
}
