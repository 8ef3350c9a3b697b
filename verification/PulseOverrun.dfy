/** Whole calls are runs; and a run in which the handler leaves the array. */
module PulseOverrun {
  import opened PulseFilter
  import opened PulseDevice
  import opened PulseMachine
  import opened PulseRuns
  import opened PulseCalls
  import opened Words

  function Interrupts(irqs: seq<Irq>): (r: seq<Action>)
    ensures |r| == |irqs|
  {
    seq(|irqs|, i requires 0 <= i < |irqs| => Interrupt(irqs[i]))
  }

  /** What happens while the call in progress runs to its end. */
  function CallActions(m: Machine, env: Stmt -> seq<Irq>): seq<Action>
    requires Sane(m)
    decreases Rank(m.pc)
  {
    if m.pc.Idle? then []
    else
      var irqs := env(m.pc.stmt);
      (Interrupts(irqs) + [Next]) + CallActions(Advance(m, irqs), env)
  }

  lemma {:induction false} RunAppend(m: Machine, a: seq<Action>, b: seq<Action>)
    requires Sane(m)
    ensures Run(m, a + b) == Run(Run(m, a), b)
    decreases |a|
  {
    if a == [] {
      assert a + b == b;
    } else {
      RunAppend(Act(m, a[0]), a[1..], b);
      assert (a + b)[1..] == a[1..] + b;
    }
  }

  lemma RunOne(m: Machine, a: Action)
    requires Sane(m)
    ensures Run(m, [a]) == Act(m, a)
  {
    assert [a][1..] == [];
  }

  lemma {:induction false} DeliverIsRun(m: Machine, irqs: seq<Irq>)
    requires Sane(m)
    ensures Run(m, Interrupts(irqs)) == Deliver(m, irqs)
  {
    hide Run, OnInterrupt;
    if irqs == [] {
      assert Run(m, []) == m by { RunNothing(m); }
    } else {
      var k := |irqs| - 1;
      DeliverIsRun(m, irqs[..k]);
      assert Interrupts(irqs) == Interrupts(irqs[..k]) + [Interrupt(irqs[k])];
      RunAppend(m, Interrupts(irqs[..k]), [Interrupt(irqs[k])]);
      RunOne(Deliver(m, irqs[..k]), Interrupt(irqs[k]));
    }
  }

  lemma RunNothing(m: Machine)
    requires Sane(m)
    ensures Run(m, []) == m
  {
  }

  /** A call with interrupts before each of its statements is a run: what is proved of all
      reachable states holds of all that such calls lead to. */
  lemma {:induction false} CompleteIsRun(m: Machine, env: Stmt -> seq<Irq>)
    requires Sane(m)
    ensures Run(m, CallActions(m, env)) == Complete(m, env)
    decreases Rank(m.pc)
  {
    hide Run, Deliver;
    if m.pc.Idle? {
      RunNothing(m);
    } else {
      var irqs := env(m.pc.stmt);
      var next := Advance(m, irqs);
      DeliverIsRun(m, irqs);
      RunAppend(m, Interrupts(irqs), [Next]);
      RunOne(Deliver(m, irqs), Next);
      RunAppend(m, Interrupts(irqs) + [Next], CallActions(next, env));
      CompleteIsRun(next, env);
    }
  }

  /** k edges, HIGH first, each of another level than the one before. */
  function Alternating(k: nat): (r: seq<Irq>)
    ensures |r| == k
  {
    seq(k, i => Irq(i % 2 == 0, 0, 0))
  }

  lemma {:induction false} AlternatingKept(k: nat)
    ensures |Transitions(EdgesOf(Alternating(k)))| == k
    ensures k > 0 ==> LineLevel(EdgesOf(Alternating(k))) == if k % 2 == 1 then High else Low
  {
    if k > 0 {
      AlternatingKept(k - 1);
      assert Alternating(k)[..k - 1] == Alternating(k - 1);
      EdgesOfSnoc(Alternating(k));
      var es := EdgesOf(Alternating(k));
      assert es[..k - 1] == EdgesOf(Alternating(k - 1));
    }
  }

  const QUIET: Stmt -> seq<Irq> := s => []

  /** A first start of n edges, and n alternating edges after it. */
  function Fill(n: Word): seq<Action> {
    var called := Act(Initial(), CallStart(n));
    ([CallStart(n)] + CallActions(called, QUIET)) + Interrupts(Alternating(n))
  }

  lemma FillIsDeliver(n: Word)
    ensures Reached(Fill(n))
            == Deliver(Complete(Act(Initial(), CallStart(n)), QUIET), Alternating(n))
  {
    hide Run, Complete, Deliver, CallActions;
    var m, called := Initial(), Act(Initial(), CallStart(n));
    RunAppend(m, [CallStart(n)] + CallActions(called, QUIET), Interrupts(Alternating(n)));
    RunAppend(m, [CallStart(n)], CallActions(called, QUIET));
    RunOne(m, CallStart(n));
    CompleteIsRun(called, QUIET);
    DeliverIsRun(Complete(called, QUIET), Alternating(n));
  }

  lemma QuietStart(n: Word)
    ensures AtAdmission(Initial(), QUIET) == Initial()
    ensures OpenWindow(Initial().dev, QUIET) == [] && !CompletesEarly(Initial().dev, n, QUIET)
  {
  }

  /** The run in which the bound of EveryWrite is met: after it, the edge that completes the
      capture is written to cell n, which for the greatest admitted n is behind the array. */
  lemma CompletingWrite(n: Word, irq: Irq)
    requires 1 <= n <= MAX_COUNT && EdgeOf(irq).level != LastLevel(n)
    ensures var d := Reached(Fill(n)).dev;
            d.target == n && WriteIndex(d, irq) == n && OnIrq(d, irq).flags.done
  {
    hide Run, Complete, Deliver, AtAdmission, OpenWindow, CompletesEarly, Inv, Fill, Transitions, Alternating;
    InitialHolds();
    QuietStart(n);
    FillIsDeliver(n);
    CaptureOutcome(Initial(), n, QUIET, Alternating(n));
    var d := Reached(Fill(n)).dev;
    var es := EdgesOf(Alternating(n));
    assert [] + es == es;
    AlternatingKept(n);
    TransitionsAlternate(es);
    assert d.stored[n - 1] == d.stored[..n][n - 1];
  }

  /** So no capture of n edges ever leaves the array exactly if n is below the admitted maximum. */
  lemma ArrayIsKeptIff(n: Word)
    requires n <= MAX_COUNT
    ensures (forall actions, irq ::
               Reached(actions).dev.target == n ==> WriteIndex(Reached(actions).dev, irq) < MAX_COUNT)
            <==> n < MAX_COUNT
  {
    hide Run, WriteIndex;
    if n < MAX_COUNT {
      forall actions, irq | Reached(actions).dev.target == n
        ensures WriteIndex(Reached(actions).dev, irq) < MAX_COUNT
      {
        EveryWrite(actions, irq);
      }
    } else {
      CompletingWrite(n, Irq(true, 0, 0));
    }
  }

  /** And the handler does leave it. */
  lemma ArrayIsLeft()
    ensures exists actions, irq :: WriteIndex(Reached(actions).dev, irq) == MAX_COUNT
  {
    hide Reached, WriteIndex;
    CompletingWrite(MAX_COUNT, Irq(true, 0, 0));
  }
}
