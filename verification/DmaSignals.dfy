/** Where the signals of a descriptor's completion come from and where they go. */
module DmaSignals {
  import opened DmaLayout
  import opened DmaChannel
  import opened DmaRuns

  function Owes(tx: Tx, i: nat): nat { if tx.bd == i && !tx.called then 1 else 0 }

  /** How many transfers of descriptor i have still to call back. */
  function Owed(txs: seq<Tx>, i: nat): nat {
    if txs == [] then 0 else Owed(txs[..|txs| - 1], i) + Owes(txs[|txs| - 1], i)
  }

  /** The signals that wait on descriptor i, or are still to come. */
  function Pending(s: Chan, i: Index): nat
    requires Fits(s)
  {
    s.bds[i].done + Owed(s.txs, i)
  }

  lemma {:induction false} OwedUpdate(txs: seq<Tx>, c: nat, tx: Tx, i: nat)
    requires c < |txs|
    ensures Owed(txs[c := tx], i) == Owed(txs, i) - Owes(txs[c], i) + Owes(tx, i)
  {
    var k, r := |txs| - 1, txs[c := tx];
    if c == k {
      assert r[..k] == txs[..k];
    } else {
      assert r[..k] == txs[..k][c := tx];
      OwedUpdate(txs[..k], c, tx, i);
    }
  }

  lemma OwedSnoc(txs: seq<Tx>, tx: Tx, i: nat)
    ensures Owed(txs + [tx], i) == Owed(txs, i) + Owes(tx, i)
  {
    assert (txs + [tx])[..|txs + [tx]| - 1] == txs;
  }

  /** No event of the engine makes or loses a signal. */
  lemma ApplyConserves(s: Chan, e: Event, i: Index)
    requires Fits(s)
    ensures Pending(Apply(s, e), i) == Pending(s, i)
  {
    hide Owed;
    if Retires(s.txs, e) {
      OwedUpdate(s.txs, e.id, s.txs[e.id].(state := Retired(e.outcome)), i);
    } else if CallsBack(s.txs, e) {
      OwedUpdate(s.txs, e.id, s.txs[e.id].(called := true), i);
    }
  }

  lemma {:induction false} ApplyAllConserves(s: Chan, es: seq<Event>, i: Index)
    requires Fits(s)
    ensures Pending(ApplyAll(s, es), i) == Pending(s, i)
    decreases |es|
  {
    hide Pending;
    if es != [] {
      ApplyConserves(s, es[0], i);
      ApplyAllConserves(Apply(s, es[0]), es[1..], i);
    }
  }

  lemma {:induction false} SleepConserves(s: Chan, i: Index, env: seq<Event>, j: Index)
    requires Fits(s)
    ensures var (q, woke) := Sleep(s, i, env);
            Pending(q, j) == Pending(s, j) - if woke && i == j then 1 else 0
    decreases |env|
  {
    hide Owed;
    if s.bds[i].done > 0 {
      ApplyAllConserves(SetBd(s, i, s.bds[i].(done := s.bds[i].done - 1)), env, j);
    } else if env != [] {
      ApplyConserves(s, env[0], j);
      SleepConserves(Apply(s, env[0]), i, env[1..], j);
    }
  }

  /** A start throws away the signals that wait on its own descriptor, but not those to come. */
  lemma StartSignals(s: Chan, i: Index, a: Attempt, mid: seq<Event>, j: Index)
    requires Fits(s)
    ensures Pending(Start(s, i, a, mid), j) ==
            if i != j || a.PrepFails? then Pending(s, j)
            else Owed(s.txs, j) + if a.Submits? then 1 else 0
  {
    hide Owed, ApplyAll;
    var p := Program(s, i);
    if !a.PrepFails? {
      var q := SetBd(p, i, p.bds[i].(done := 0));
      ApplyAllConserves(q, mid, j);
      if a.Submits? {
        var t := ApplyAll(q, mid);
        OwedSnoc(t.txs, Tx(i, t.bds[i].sgAddr, t.bds[i].sgLen, Running, false), j);
      }
    }
  }

  /** A FINISH uses up one signal of its own descriptor exactly if it does not report TIMEOUT. */
  lemma FinishSignals(s: Chan, i: Index, env: seq<Event>, guess: DmaStatus, j: Index)
    requires Fits(s)
    ensures var r := Finish(s, i, env, guess);
            Pending(r, j) ==
            Pending(s, j) - if i == j && r.shared[i].status != TIMEOUT then 1 else 0
  {
    hide Sleep, Owed;
    SleepConserves(SetStatus(s, i, BUSY), i, env, j);
  }

  /** How many transfers were accepted for descriptor i. */
  function Accepted(ops: seq<Op>, i: Index): nat {
    if ops == [] then 0
    else
      var op := ops[|ops| - 1];
      Accepted(ops[..|ops| - 1], i)
      + if (op.StartOp? || op.XferOp?) && op.i == i && op.a.Submits? then 1 else 0
  }

  /** How many times FINISH or XFER has reported something else than TIMEOUT there. */
  function Reported(s: Chan, ops: seq<Op>, i: Index): nat
    requires New(s)
  {
    if ops == [] then 0
    else
      var op, status := ops[|ops| - 1], Run(Opened(s), ops).chan.shared[i].status;
      Reported(s, ops[..|ops| - 1], i)
      + if (op.FinishOp? || op.XferOp?) && op.i == i && status != TIMEOUT then 1 else 0
  }

  lemma DoSignals(w: World, op: Op, i: Index)
    requires Shaped(w)
    ensures var r := Do(w, op).chan;
            Pending(r, i)
            + (if (op.FinishOp? || op.XferOp?) && op.i == i && r.shared[i].status != TIMEOUT then 1 else 0)
            <= Pending(w.chan, i)
               + if (op.StartOp? || op.XferOp?) && op.i == i && op.a.Submits? then 1 else 0
  {
    hide Owed, Start, Finish, Apply;
    match op
    case StartOp(k, a, mid) => StartSignals(w.chan, k, a, mid, i);
    case FinishOp(k, env, guess) => FinishSignals(w.chan, k, env, guess, i);
    case XferOp(k, a, mid, env, guess) =>
      StartSignals(w.chan, k, a, mid, i);
      FinishSignals(Start(w.chan, k, a, mid), k, env, guess, i);
    case EngineOp(e) => ApplyConserves(w.chan, e, i);
    case LengthOp(_, _) =>
  }

  /** In every run, spoiled descriptors included, there is an accepted transfer for every report
      but TIMEOUT and for every signal that waits or is to come; only what the completion held
      before anything was submitted comes on top. */
  lemma {:induction false} ReportsAreBacked(s: Chan, ops: seq<Op>, i: Index)
    requires New(s)
    ensures Reported(s, ops, i) + Pending(Run(Opened(s), ops).chan, i)
            <= Accepted(ops, i) + s.bds[i].done
  {
    hide Do, Owed;
    if ops == [] {
      assert Owed([], i) == 0 by { NothingOwedYet(i); }
    } else {
      ReportsAreBacked(s, ops[..|ops| - 1], i);
      DoSignals(Run(Opened(s), ops[..|ops| - 1]), ops[|ops| - 1], i);
    }
  }

  lemma NothingOwedYet(i: Index)
    ensures Owed([], i) == 0
  {
  }
}
