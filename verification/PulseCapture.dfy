/** The driver itself: its fields, its interrupt handler and its API, statement by statement. */
module PulseCapture {
  import opened PulseFilter
  import opened PulseDevice
  import opened PulseMachine
  import opened Words
  import C = PulseCalls
  import R = PulseRuns

  /** The flag statements: which flag statement s names, and whether it sets it. */
  ghost predicate Assigns(s: Stmt, mask: bv8, on: bool) {
    && s in {SetEnable, ClearDone, ClearRead, ClearCancelled,
             DropEnable, DropDone, SetCancelled, MarkRead}
    && mask == (match s
                case SetEnable | DropEnable => ENABLE
                case ClearDone | DropDone => DONE
                case ClearRead | MarkRead => EDGES_READ
                case _ => CANCELLED)
    && (on <==> s in {SetEnable, SetCancelled, MarkRead})
  }

  function Assigned(flags: bv8, mask: bv8, on: bool): bv8 {
    if on then flags | mask else flags & !mask
  }

  lemma AssignExecutes(m: Machine, mask: bv8, on: bool, flags: bv8)
    requires Sane(m) && m.pc.At? && Assigns(m.pc.stmt, mask, on)
    requires m.dev.flags == Decode(flags) && flags & 0xF0 == 0
    ensures Execute(m).dev == m.dev.(flags := Decode(Assigned(flags, mask, on)))
    ensures Assigned(flags, mask, on) & 0xF0 == 0
    ensures Execute(m).pc == Following(m.pc.stmt, m.pc.n, CLEAR).0
    ensures Execute(m).pc.Idle? ==> Execute(m).ret == Ok
  {
    FlagStatements(flags);
  }

  lemma FlagPair(flags: bv8)
    ensures flags & (ENABLE | CANCELLED) != 0 <==> Decode(flags).enable || Decode(flags).cancelled
  {
  }

  type Steady = m: Machine | Inv(m) ghost witness Initial()

  class Capture {
    const stored: array<Edge>
    var edgePtr: nat
    var edgeTarget: nat
    var flags: bv8
    ghost var trace: Steady  // the run so far

    ghost predicate Valid()
      reads this, stored
    {
      && flags & 0xF0 == 0
      && trace.dev == Device(stored[..], edgePtr, edgeTarget, Decode(flags))
    }

    constructor ()
      ensures Valid() && trace == Initial() && fresh(stored)
      ensures flags == 0 && edgePtr == 0 && edgeTarget == 0
    {
      stored := new Edge[MAX_COUNT + 1](_ => NO_EDGE);
      edgePtr, edgeTarget, flags := 0, 0, 0;
      trace := Initial();
      new;
      InitialHolds();
      assert stored[..] == Initial().dev.stored;
    }

    /** timer_irq_handler: what it does is the machine's Interrupt step. */
    method TimerIrq(irq: Irq)
      requires Valid()
      modifies this, stored
      ensures Valid() && trace == Act(old(trace), Interrupt(irq))
    {
      InterruptKeeps(trace, irq);
      FlagStatements(flags);
      trace := OnInterrupt(trace, irq);
      if flags & ENABLE != 0 && flags & DONE == 0 {
        var edge;
        if irq.t0int {
          edge := Edge(High, irq.tlr0);
        } else {
          edge := Edge(Low, irq.tlr1);
        }
        if edgePtr > 0 {
          if stored[edgePtr - 1].level != edge.level {
            stored[edgePtr] := edge;
            if edgePtr < edgeTarget {
              edgePtr := edgePtr + 1;
            } else {
              flags := flags | DONE;
            }
          }
        } else if edge.level == High {
          stored[0] := edge;
          edgePtr := 1;
        }
      }
    }

    /** Lets the interrupts `irqs` happen. */
    method Interrupts(irqs: seq<Irq>)
      requires Valid()
      modifies this, stored
      ensures Valid() && trace == R.Deliver(old(trace), irqs)
    {
      for i := 0 to |irqs|
        invariant Valid() && trace == R.Deliver(old(trace), irqs[..i])
      {
        TimerIrq(irqs[i]);
        assert irqs[..i + 1][..i] == irqs[..i];
      }
      assert irqs[..|irqs|] == irqs;
    }

    /** Records that the statement at the program counter has just been executed. */
    ghost method Executed(env: Stmt -> seq<Irq>, before: Machine)
      requires Sane(before) && before.pc.At? && Inv(trace)
      requires trace == R.Deliver(before, env(before.pc.stmt))
      requires Execute(trace).dev == Device(stored[..], edgePtr, edgeTarget, Decode(flags))
      requires flags & 0xF0 == 0
      modifies this`trace
      ensures Valid() && trace == Execute(old(trace))
      ensures R.Complete(trace, env) == R.Complete(before, env)
    {
      ExecuteKeeps(trace);
      trace := Execute(trace);
    }

    /** Records that an API function has been called. */
    ghost method Begin(call: Action)
      requires Valid() && trace.pc.Idle? && (call.CallStart? || call.CallCancel? || call.CallReadOut?)
      modifies this`trace
      ensures Valid() && trace == Act(old(trace), call)
    {
      ActKeeps(trace, call);
      trace := Act(trace, call);
    }

    lemma Ended(env: Stmt -> seq<Irq>)
      requires Valid() && trace.pc.Idle?
      ensures R.Complete(trace, env) == trace
    {
    }

    /** Lets the interrupts before a statement happen, then runs a statement that touches only
        the timer registers or tests the flags. */
    method Pass(s: Stmt, env: Stmt -> seq<Irq>)
      requires Valid() && trace.pc.At? && trace.pc.stmt == s
      requires s !in {SetTarget, ClearPtr, SetEnable, ClearDone, ClearRead, ClearCancelled,
                      DropEnable, DropDone, SetCancelled, MarkRead}
      modifies this, stored
      ensures Valid() && R.Complete(trace, env) == R.Complete(old(trace), env)
      ensures flags & 0xF0 == 0
      ensures trace.pc == Following(s, old(trace).pc.n, Decode(flags)).0
      ensures trace.pc.Idle? ==> trace.ret == Following(s, old(trace).pc.n, Decode(flags)).1
    {
      hide R.Complete, R.Deliver;
      ghost var was := trace;
      Interrupts(env(s));
      Executed(env, was);
    }

    /** `flags |= mask` or `flags &= ~mask`, after the interrupts before it. */
    method Assign(s: Stmt, mask: bv8, on: bool, env: Stmt -> seq<Irq>)
      requires Valid() && trace.pc.At? && trace.pc.stmt == s && Assigns(s, mask, on)
      modifies this, stored
      ensures Valid() && R.Complete(trace, env) == R.Complete(old(trace), env)
      ensures trace.pc == Following(s, old(trace).pc.n, CLEAR).0
      ensures trace.pc.Idle? ==> trace.ret == Ok
    {
      hide R.Complete, R.Deliver, Inv, Decode, Assigns, Execute, Following;
      ghost var was := trace;
      InvSane(was);
      Interrupts(env(s));
      InvSane(trace);
      AssignExecutes(trace, mask, on, flags);
      flags := Assigned(flags, mask, on);
      Executed(env, was);
    }

    /** The two assignments under "store count". */
    method StoreCount(n: Word, env: Stmt -> seq<Irq>)
      requires Valid() && trace.pc == At(SetTarget, n)
      modifies this, stored
      ensures Valid() && trace.pc == At(SetEnable, n)
      ensures R.Complete(trace, env) == R.Complete(old(trace), env)
    {
      hide R.Complete, R.Deliver;
      ghost var was := trace;
      Interrupts(env(SetTarget));
      edgeTarget := n;
      Executed(env, was);
      was := trace;
      Interrupts(env(ClearPtr));
      edgePtr := 0;
      Executed(env, was);
    }

    /** pulsecap_start_capture, with the interrupts env(s) arriving just before statement s. */
    method StartCapture(n: Word, env: Stmt -> seq<Irq>) returns (r: Code)
      requires Valid() && trace.pc.Idle?
      modifies this, stored
      ensures Valid() && trace == R.Complete(Act(old(trace), CallStart(n)), env) && r == trace.ret
    {
      hide Valid, Inv, R.Complete;
      Begin(CallStart(n));
      Pass(TestEnable, env);
      if flags & ENABLE != 0 {
        Pass(TestDone, env);
        if flags & DONE == 0 {
          Ended(env);
          return EBUSY;
        }
      }
      Pass(TestCount, env);
      if n > MAX_COUNT {
        Ended(env);
        return EINVAL;
      }
      Pass(InitTimer, env);
      StoreCount(n, env);
      FlagEnabled(env);
      return Ok;
    }

    /** Start's four flag assignments, and start_timer. */
    method FlagEnabled(env: Stmt -> seq<Irq>)
      requires Valid() && trace.pc.At? && trace.pc.stmt == SetEnable
      modifies this, stored
      ensures Valid() && trace == R.Complete(old(trace), env) && trace.pc.Idle? && trace.ret == Ok
    {
      hide Valid, Inv, R.Complete;
      Assign(SetEnable, ENABLE, true, env);
      Assign(ClearDone, DONE, false, env);
      Assign(ClearRead, EDGES_READ, false, env);
      Assign(ClearCancelled, CANCELLED, false, env);
      Pass(StartTimer, env);
      Ended(env);
    }

    /** pulsecap_cancel_capture, with interrupts likewise. */
    method CancelCapture(env: Stmt -> seq<Irq>) returns (r: Code)
      requires Valid() && trace.pc.Idle?
      modifies this, stored
      ensures Valid() && trace == R.Complete(Act(old(trace), CallCancel), env) && r == trace.ret
    {
      hide Valid, Inv, R.Complete;
      Begin(CallCancel);
      Pass(TestAnyFlag, env);
      FlagStatements(flags);
      var negated: bv8 := if flags == 0 then 1 else 0;
      if negated & ENABLE != 0 {
        Ended(env);
        return EIO;
      }
      Pass(DisableInterrupts, env);
      Pass(StopTimer, env);
      DropFlags(env);
      return Ok;
    }

    /** Cancel's three flag assignments. */
    method DropFlags(env: Stmt -> seq<Irq>)
      requires Valid() && trace.pc.At? && trace.pc.stmt == DropEnable
      modifies this, stored
      ensures Valid() && trace == R.Complete(old(trace), env) && trace.pc.Idle? && trace.ret == Ok
    {
      hide Valid, Inv, R.Complete;
      Assign(DropEnable, ENABLE, false, env);
      Assign(DropDone, DONE, false, env);
      Assign(SetCancelled, CANCELLED, true, env);
      Ended(env);
    }

    /** pulsecap_edges_captured, with interrupts env(0) after the first test and env(1) after the
        second; it returns no value at all when no flag is set. */
    method EdgesCaptured(env: nat -> seq<Irq>) returns (r: R.Captured)
      requires Valid()
      modifies this, stored
      ensures Valid() && trace == R.Deliver(old(trace), env(0))
      ensures r == R.EdgesCaptured(trace.dev)
    {
      hide Inv, R.Deliver;
      InvSane(trace);
      R.DeliverFlags(trace.dev, env(0));
      var running := flags & (ENABLE | CANCELLED) != 0;
      FlagPair(flags);
      Interrupts(env(0));
      if running {
        r := R.Count(edgePtr);
      } else if flags & DONE != 0 {
        Interrupts(env(1));
        r := R.Count(edgeTarget);
      } else {
        r := R.NoReturn;
      }
    }

    /** pulsecap_get_state, with interrupts between its two tests. */
    method GetState(irqs: seq<Irq>) returns (r: R.State)
      requires Valid()
      modifies this, stored
      ensures Valid() && trace == R.Deliver(old(trace), irqs)
      ensures r == R.GetState(trace.dev)
    {
      hide Inv, R.Deliver;
      InvSane(trace);
      R.DeliverFlags(trace.dev, irqs);
      if flags & ENABLE != 0 {
        Interrupts(irqs);
        if flags & DONE != 0 {
          return R.FINISHED;
        } else {
          return R.RUN;
        }
      }
      return R.IDLE;
    }

    /** pulsecap_read_edges: copies counts to `dest`, while interrupts env(0) arrive between the
        two tests and env(i + 1) before copy i. What it copies is what the device held at the
        call; -EBUSY is -1 here. */
    method ReadEdges(count: nat, dest: array<Word>, env: nat -> seq<Irq>) returns (r: int)
      requires Valid() && (trace.pc.Idle? || trace.pc.stmt.MarkRead?)
      requires var r := R.ReadEdges(trace.dev, count);
               r.Got? ==> |r.counts| <= dest.Length  // room for what will be copied
      modifies this, stored, dest
      ensures Valid() && trace == R.Deliver(old(trace), env(0))
      ensures match R.ReadEdges(old(trace).dev, count)
              case Busy => r == -1 && dest[..] == old(dest[..])
              case Got(counts) => r == |counts| && dest[..] == counts + old(dest[|counts|..])
      ensures forall k :: 0 <= k < r ==> k < dest.Length && dest[k] == old(stored[k]).count
    {
      hide Inv, R.Deliver, Transitions;
      ghost var d := trace.dev;
      GateShut(trace);
      var n := count;
      if flags & DONE != 0 {
        if n > edgeTarget {
          n := edgeTarget;
        }
      } else {
        Interrupts(env(0));
        R.DeliverFlags(d, env(0));
        if flags & CANCELLED != 0 {
          if n > edgePtr {
            n := edgePtr;
          }
        } else {
          return -1;
        }
      }
      CopyOut(n, dest, env);
      assert dest[..] == R.Counts(d.stored[..n]) + old(dest[n..]);
      return n;
    }

    /** The copy loop. */
    method CopyOut(n: nat, dest: array<Word>, env: nat -> seq<Irq>)
      requires Valid() && Readable(trace.dev) && !Gate(trace.dev)
      requires n <= dest.Length && n <= MAX_COUNT
      modifies this, stored, dest
      ensures Valid() && trace == old(trace)
      ensures dest[..] == R.Counts(old(stored[..n])) + old(dest[n..])
      ensures forall k :: 0 <= k < n ==> dest[k] == old(stored[k]).count
    {
      ghost var d := trace.dev;
      for i := 0 to n
        invariant Valid() && trace == old(trace)
        invariant forall k :: 0 <= k < i ==> dest[k] == d.stored[k].count
        invariant forall k :: i <= k < dest.Length ==> dest[k] == old(dest[k])
      {
        Interrupts(env(i + 1));
        dest[i] := stored[i].count;
      }
      assert dest[..] == R.Counts(d.stored[..n]) + old(dest[n..]);
    }

    /** edge_data_show: reads as many edges as the target asks for and marks them read. */
    method EdgeDataShow(buf: array<Word>, env: nat -> seq<Irq>, mark: Stmt -> seq<Irq>)
        returns (r: int)
      requires Valid() && trace.pc.Idle? && buf.Length == MAX_COUNT
      modifies this, stored, buf
      ensures Valid()
      ensures trace == R.Deliver(R.Complete(Act(old(trace), CallReadOut), mark), env(0))
      ensures var d := old(trace).dev;
              match R.ReadEdges(d, d.target)
              case Busy => r == -1 && buf[..] == old(buf[..])
              case Got(counts) => r == 4 * |counts| && buf[..] == counts + old(buf[|counts|..])
    {
      hide R.Complete, R.Deliver, Inv, Transitions;
      GateShut(trace);
      C.ReadOutOutcome(trace, mark);
      Begin(CallReadOut);
      ghost var called := trace;
      r := ReadEdges(edgeTarget, buf, env);
      if r < 0 {
        R.CompleteIdle(called, mark);
        return;
      }
      Assign(MarkRead, EDGES_READ, true, mark);
      Ended(mark);
      r := 4 * r;
    }
  }

  /** A readable device has its gate shut, between calls and during a read-out. */
  lemma GateShut(m: Machine)
    requires Inv(m) && (m.pc.Idle? || m.pc.stmt.MarkRead?)
    ensures Sane(m) && (Readable(m.dev) ==> !Gate(m.dev))
  {
  }
}
