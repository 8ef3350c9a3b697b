/** Whose completion a status reports, over every run of a channel. */
module DmaRuns {
  import opened DmaLayout
  import opened DmaChannel
  import opened Words

  type Index = i: nat | i < BUFFER_COUNT

  /** Where a descriptor stands with its user. Fresh: never submitted. Started: its transfer was
      submitted and no FINISH has reported on it yet. Settled: one has. Dud: nothing outstanding and
      nothing to report. Spoiled: started while an earlier transfer still owed a callback. */
  datatype Phase = Fresh | Started(id: nat) | Dud | Settled(id: nat) | Spoiled

  datatype World = World(chan: Chan, phases: seq<Phase>)

  datatype Op =
    | StartOp(i: Index, a: Attempt, mid: seq<Event>)
    | FinishOp(i: Index, env: seq<Event>, guess: DmaStatus)
    | XferOp(i: Index, a: Attempt, mid: seq<Event>, env: seq<Event>, guess: DmaStatus)
    | EngineOp(e: Event)
    | LengthOp(i: Index, length: Word)  // user space writes the shared length word

  /** `clear` tells that no transfer of the descriptor owes a callback when the start begins. */
  function AfterStart(phase: Phase, clear: bool, a: Attempt, id: nat): Phase {
    if a.PrepFails? then phase
    else if !clear then Spoiled
    else if a.Submits? then Started(id) else Dud
  }

  function AfterFinish(phase: Phase, status: Status): Phase {
    match phase
    case Started(id) => if status == TIMEOUT then phase else Settled(id)
    case Settled(_) => Dud
    case _ => phase
  }

  /** Every transfer of descriptor i but `id` has called back. */
  predicate OthersCalled(s: Chan, i: nat, id: int) {
    forall c :: 0 <= c < |s.txs| && s.txs[c].bd == i && c != id ==> s.txs[c].called
  }

  predicate Shaped(w: World) { Fits(w.chan) && |w.phases| == BUFFER_COUNT }

  function DoStart(w: World, i: Index, a: Attempt, mid: seq<Event>): (r: World)
    requires Shaped(w)
    ensures Shaped(r)
  {
    var phase := AfterStart(w.phases[i], OthersCalled(w.chan, i, -1), a, |w.chan.txs|);
    World(Start(w.chan, i, a, mid), w.phases[i := phase])
  }

  function DoFinish(w: World, i: Index, env: seq<Event>, guess: DmaStatus): (r: World)
    requires Shaped(w)
    ensures Shaped(r)
  {
    var c := Finish(w.chan, i, env, guess);
    World(c, w.phases[i := AfterFinish(w.phases[i], c.shared[i].status)])
  }

  function Do(w: World, op: Op): (r: World)
    requires Shaped(w)
    ensures Shaped(r)
  {
    match op
    case StartOp(i, a, mid) => DoStart(w, i, a, mid)
    case FinishOp(i, env, guess) => DoFinish(w, i, env, guess)
    case XferOp(i, a, mid, env, guess) => DoFinish(DoStart(w, i, a, mid), i, env, guess)
    case EngineOp(e) => w.(chan := Apply(w.chan, e))
    case LengthOp(i, length) =>
      w.(chan := w.chan.(shared := w.chan.shared[i := w.chan.shared[i].(length := length)]))
  }

  function Run(w: World, ops: seq<Op>): (r: World)
    requires Shaped(w)
    ensures Shaped(r)
  {
    if ops == [] then w else Do(Run(w, ops[..|ops| - 1]), ops[|ops| - 1])
  }

  /** A new channel: whatever the unwritten fields hold, nothing has been submitted. */
  predicate New(s: Chan) { Fits(s) && s.txs == [] }

  function Opened(s: Chan): World
    requires New(s)
  {
    World(s, seq(BUFFER_COUNT, _ => Fresh))
  }

  // ---- The invariant ----

  /** What a transfer in that state deserves to be reported as. */
  function StatusOf(state: TxState): Status { if state == Retired(Good) then NO_ERROR else ERROR }

  /** No signal waiting and none to come. */
  predicate Clean(s: Chan, i: nat)
    requires Fits(s) && i < BUFFER_COUNT
  {
    OthersCalled(s, i, -1) && s.bds[i].done == 0
  }

  /** The only signal that waits or is to come is that of transfer `id`. */
  predicate Owns(s: Chan, i: nat, id: nat)
    requires Fits(s) && i < BUFFER_COUNT
  {
    && id < |s.txs| && s.txs[id].bd == i && s.bds[i].cookie == id
    && OthersCalled(s, i, id) && s.bds[i].done == if s.txs[id].called then 1 else 0
  }

  predicate CookieIsOwn(s: Chan, i: nat)
    requires Fits(s) && i < BUFFER_COUNT
  {
    var c := s.bds[i].cookie;
    c < 0 || (c < |s.txs| && s.txs[c].bd == i)
  }

  predicate Holds(s: Chan, i: nat, phase: Phase)
    requires Fits(s) && i < BUFFER_COUNT
  {
    && (!phase.Fresh? ==> CookieIsOwn(s, i))
    && match phase
       case Fresh => forall c :: 0 <= c < |s.txs| ==> s.txs[c].bd != i
       case Started(id) => Owns(s, i, id)
       case Dud => Clean(s, i)
       case Settled(id) =>
         && Clean(s, i)
         && id < |s.txs| && s.txs[id].bd == i && s.txs[id].state.Retired?
         && s.shared[i].status == StatusOf(s.txs[id].state)
       case Spoiled => true
  }

  /** A callback runs only for a transfer that has retired. */
  predicate CalledHaveRetired(s: Chan) {
    forall c :: 0 <= c < |s.txs| && s.txs[c].called ==> s.txs[c].state.Retired?
  }

  predicate Sound(w: World) {
    && Shaped(w) && CalledHaveRetired(w.chan)
    && forall i :: 0 <= i < BUFFER_COUNT ==> Holds(w.chan, i, w.phases[i])
  }

  lemma ApplyHolds(s: Chan, e: Event, i: nat, phase: Phase)
    requires Fits(s) && i < BUFFER_COUNT && Holds(s, i, phase)
    ensures Holds(Apply(s, e), i, phase)
  {
  }

  lemma ApplyClean(s: Chan, e: Event, i: nat)
    requires Fits(s) && i < BUFFER_COUNT && Clean(s, i)
    ensures Clean(Apply(s, e), i)
  {
  }

  lemma ApplyOwns(s: Chan, e: Event, i: nat, id: nat)
    requires Fits(s) && i < BUFFER_COUNT && Owns(s, i, id)
    ensures Owns(Apply(s, e), i, id)
  {
  }

  lemma {:induction false} ApplyAllHolds(s: Chan, es: seq<Event>, i: nat, phase: Phase)
    requires Fits(s) && i < BUFFER_COUNT && CalledHaveRetired(s)
    ensures CalledHaveRetired(ApplyAll(s, es))
    ensures Holds(s, i, phase) ==> Holds(ApplyAll(s, es), i, phase)
    ensures Clean(s, i) ==> Clean(ApplyAll(s, es), i)
    decreases |es|
  {
    if es != [] {
      if Holds(s, i, phase) {
        ApplyHolds(s, es[0], i, phase);
      }
      if Clean(s, i) {
        ApplyClean(s, es[0], i);
      }
      ApplyAllHolds(Apply(s, es[0]), es[1..], i, phase);
    }
  }

  // ---- Start ----

  lemma StartHoldsOwn(s: Chan, i: nat, a: Attempt, mid: seq<Event>, phase: Phase)
    requires Fits(s) && i < BUFFER_COUNT && CalledHaveRetired(s) && Holds(s, i, phase)
    ensures CalledHaveRetired(Start(s, i, a, mid))
    ensures Holds(Start(s, i, a, mid), i, AfterStart(phase, OthersCalled(s, i, -1), a, |s.txs|))
  {
    hide ApplyAll;
    var p := Program(s, i);
    if !a.PrepFails? {
      var q := SetBd(p, i, p.bds[i].(done := 0));
      ApplyAllHolds(q, mid, i, phase);
      ApplyAllIsEngine(q, mid);
    }
  }

  lemma StartHoldsOther(s: Chan, i: nat, a: Attempt, mid: seq<Event>, j: nat, phase: Phase)
    requires Fits(s) && i < BUFFER_COUNT && j < BUFFER_COUNT && i != j
    requires CalledHaveRetired(s) && Holds(s, j, phase)
    ensures Holds(Start(s, i, a, mid), j, phase)
  {
    hide ApplyAll;
    var p := Program(s, i);
    if !a.PrepFails? {
      ApplyAllHolds(SetBd(p, i, p.bds[i].(done := 0)), mid, j, phase);
    }
  }

  // ---- Finish ----

  /** What the engine does to its transfers does not depend on the descriptors. */
  lemma {:induction false} TransfersAlone(s: Chan, r: Chan, es: seq<Event>)
    requires Fits(s) && Fits(r) && s.txs == r.txs
    ensures ApplyAll(s, es).txs == ApplyAll(r, es).txs
    decreases |es|
  {
    if es != [] {
      TransfersAlone(Apply(s, es[0]), Apply(r, es[0]), es[1..]);
    }
  }

  lemma {:induction false} SleepTransfers(s: Chan, i: nat, env: seq<Event>)
    requires Fits(s) && i < BUFFER_COUNT
    ensures Sleep(s, i, env).0.txs == ApplyAll(s, env).txs
    ensures Sleep(s, i, env).0.bds[i].cookie == s.bds[i].cookie
    decreases |env|
  {
    if s.bds[i].done > 0 {
      var t := SetBd(s, i, s.bds[i].(done := s.bds[i].done - 1));
      TransfersAlone(s, t, env);
      ApplyAllIsEngine(t, env);
    } else if env != [] {
      SleepTransfers(Apply(s, env[0]), i, env[1..]);
    }
  }

  /** A sleeper that owns its signal wakes exactly if its own transfer calls back in time. */
  lemma {:induction false} SleepOwns(s: Chan, i: nat, id: nat, env: seq<Event>)
    requires Fits(s) && i < BUFFER_COUNT && Owns(s, i, id) && CalledHaveRetired(s)
    ensures var (q, woke) := Sleep(s, i, env);
            && (woke <==> ApplyAll(s, env).txs[id].called)
            && (if woke then Clean(q, i) else Owns(q, i, id))
    decreases |env|
  {
    if s.bds[i].done > 0 {
      var t := SetBd(s, i, s.bds[i].(done := 0));
      ApplyAllHolds(t, env, i, Spoiled);
      ApplyAllIsEngine(s, env);
    } else if env != [] {
      ApplyOwns(s, env[0], i, id);
      SleepOwns(Apply(s, env[0]), i, id, env[1..]);
    }
  }

  lemma {:induction false} SleepClean(s: Chan, i: nat, env: seq<Event>)
    requires Fits(s) && i < BUFFER_COUNT && Clean(s, i)
    ensures !Sleep(s, i, env).1 && Clean(Sleep(s, i, env).0, i)
    decreases |env|
  {
    if env != [] {
      ApplyClean(s, env[0], i);
      SleepClean(Apply(s, env[0]), i, env[1..]);
    }
  }

  lemma {:induction false} SleepHolds(s: Chan, i: nat, env: seq<Event>, j: nat, phase: Phase)
    requires Fits(s) && i < BUFFER_COUNT && j < BUFFER_COUNT && CalledHaveRetired(s)
    requires Holds(s, j, phase)
    ensures CalledHaveRetired(Sleep(s, i, env).0)
    ensures i != j || phase.Fresh? ==> Holds(Sleep(s, i, env).0, j, phase)
    decreases |env|
  {
    if s.bds[i].done > 0 {
      ApplyAllHolds(SetBd(s, i, s.bds[i].(done := s.bds[i].done - 1)), env, j, phase);
    } else if env != [] {
      ApplyHolds(s, env[0], j, phase);
      SleepHolds(Apply(s, env[0]), i, env[1..], j, phase);
    }
  }

  /** What a transfer deserves to have reported: its outcome, or TIMEOUT if it has not called back. */
  function Deserved(tx: Tx): Status { if tx.called then StatusOf(tx.state) else TIMEOUT }

  /** What FINISH writes: for a started transfer what it deserves, also if an earlier FINISH has
      timed out; TIMEOUT when there is nothing to wait for. */
  lemma FinishVerdict(w: World, i: Index, env: seq<Event>, guess: DmaStatus)
    requires Sound(w)
    ensures var t := ApplyAll(w.chan, env).txs;
            var status := Finish(w.chan, i, env, guess).shared[i].status;
            match w.phases[i]
            case Started(id) =>
              status == Deserved(t[id])
            case Dud => status == TIMEOUT
            case Settled(_) => status == TIMEOUT
            case _ => true
  {
    var s := w.chan;
    var b := SetStatus(s, i, BUSY);
    SleepTransfers(b, i, env);
    TransfersAlone(s, b, env);
    ApplyAllHolds(s, env, i, w.phases[i]);
    assert Holds(s, i, w.phases[i]);
    match w.phases[i]
    case Started(id) => SleepOwns(b, i, id, env);
    case Dud => SleepClean(b, i, env);
    case Settled(_) => SleepClean(b, i, env);
    case _ =>
  }

  lemma FinishHoldsOwn(w: World, i: Index, env: seq<Event>, guess: DmaStatus)
    requires Sound(w)
    ensures var r := DoFinish(w, i, env, guess);
            CalledHaveRetired(r.chan) && Holds(r.chan, i, r.phases[i])
  {
    var s := w.chan;
    var b := SetStatus(s, i, BUSY);
    FinishVerdict(w, i, env, guess);
    SleepTransfers(b, i, env);
    TransfersAlone(s, b, env);
    ApplyAllIsEngine(s, env);
    assert Holds(s, i, w.phases[i]);
    SleepHolds(b, i, env, i, if w.phases[i].Fresh? then Fresh else Spoiled);
    match w.phases[i]
    case Started(id) => SleepOwns(b, i, id, env);
    case Dud => SleepClean(b, i, env);
    case Settled(_) => SleepClean(b, i, env);
    case _ =>
  }

  lemma FinishHoldsOther(w: World, i: Index, env: seq<Event>, guess: DmaStatus, j: Index)
    requires Sound(w) && i != j
    ensures Holds(Finish(w.chan, i, env, guess), j, w.phases[j])
  {
    assert Holds(w.chan, j, w.phases[j]);
    SleepHolds(SetStatus(w.chan, i, BUSY), i, env, j, w.phases[j]);
  }

  lemma FinishKeeps(w: World, i: Index, env: seq<Event>, guess: DmaStatus)
    requires Sound(w)
    ensures Sound(DoFinish(w, i, env, guess))
  {
    hide Holds, Finish;
    var r := DoFinish(w, i, env, guess);
    FinishHoldsOwn(w, i, env, guess);
    forall j | 0 <= j < BUFFER_COUNT
      ensures Holds(r.chan, j, r.phases[j])
    {
      if j != i {
        FinishHoldsOther(w, i, env, guess, j);
      }
    }
  }

  lemma StartKeeps(w: World, i: Index, a: Attempt, mid: seq<Event>)
    requires Sound(w)
    ensures Sound(DoStart(w, i, a, mid))
  {
    hide Holds, Start;
    var r := DoStart(w, i, a, mid);
    StartHoldsOwn(w.chan, i, a, mid, w.phases[i]);
    forall j | 0 <= j < BUFFER_COUNT
      ensures Holds(r.chan, j, r.phases[j])
    {
      if j != i {
        StartHoldsOther(w.chan, i, a, mid, j, w.phases[j]);
      }
    }
  }

  lemma DoKeeps(w: World, op: Op)
    requires Sound(w)
    ensures Sound(Do(w, op))
  {
    match op
    case StartOp(i, a, mid) => StartKeeps(w, i, a, mid);
    case FinishOp(i, env, guess) => FinishKeeps(w, i, env, guess);
    case XferOp(i, a, mid, env, guess) =>
      StartKeeps(w, i, a, mid);
      FinishKeeps(DoStart(w, i, a, mid), i, env, guess);
    case EngineOp(e) =>
      forall j | 0 <= j < BUFFER_COUNT
        ensures Holds(Apply(w.chan, e), j, w.phases[j])
      {
        ApplyHolds(w.chan, e, j, w.phases[j]);
      }
    case LengthOp(_, _) =>
  }

  lemma {:induction false} RunIsSound(s: Chan, ops: seq<Op>)
    requires New(s)
    ensures Sound(Run(Opened(s), ops))
  {
    if ops != [] {
      RunIsSound(s, ops[..|ops| - 1]);
      DoKeeps(Run(Opened(s), ops[..|ops| - 1]), ops[|ops| - 1]);
    }
  }

  // ---- Main results ----

  /** After every run of every interleaving, a descriptor whose last transfer was started with
      nothing owed and finished on its callback shows that transfer's own outcome. */
  lemma SettledStatusIsOwn(s: Chan, ops: seq<Op>, i: Index)
    requires New(s)
    ensures var w := Run(Opened(s), ops);
            w.phases[i].Settled? ==>
              && w.phases[i].id < |w.chan.txs|
              && w.chan.txs[w.phases[i].id].bd == i
              && w.chan.shared[i].status == StatusOf(w.chan.txs[w.phases[i].id].state)
  {
    RunIsSound(s, ops);
  }

  /** The engine retires the transfers of each descriptor with the outcome `fate` gives it. */
  predicate Follows(txs: seq<Tx>, fate: Index -> Outcome) {
    forall c :: 0 <= c < |txs| && txs[c].bd < BUFFER_COUNT && txs[c].state.Retired? ==>
      txs[c].state.outcome == fate(txs[c].bd)
  }

  /** How the caller has used a descriptor so far, as the caller itself can tell. Begun: a transfer
      was accepted, and every FINISH since timed out. Over: the last FINISH did not. Idle: nothing
      to report. Broken: started anew before that. */
  datatype Use = Unused | Begun | Over | Idle | Broken

  function UseAfterStart(u: Use, a: Attempt): Use {
    if a.PrepFails? then u
    else if u.Begun? || u.Broken? then Broken
    else if a.Submits? then Begun else Idle
  }

  function UseAfterFinish(u: Use, status: Status): Use {
    match u
    case Begun => if status == TIMEOUT then Begun else Over
    case Over => Idle
    case _ => u
  }

  function UseOf(s: Chan, ops: seq<Op>, i: Index): Use
    requires New(s)
  {
    if ops == [] then Unused
    else
      var before, op := ops[..|ops| - 1], ops[|ops| - 1];
      var u, status := UseOf(s, before, i), Run(Opened(s), ops).chan.shared[i].status;
      match op
      case StartOp(k, a, _) => if k == i then UseAfterStart(u, a) else u
      case FinishOp(k, _, _) => if k == i then UseAfterFinish(u, status) else u
      case XferOp(k, a, _, _, _) => if k == i then UseAfterFinish(UseAfterStart(u, a), status) else u
      case _ => u
  }

  lemma NothingOwed(w: World, i: Index)
    requires Sound(w) && !w.phases[i].Started? && !w.phases[i].Spoiled?
    ensures OthersCalled(w.chan, i, -1)
  {
    assert Holds(w.chan, i, w.phases[i]);
  }

  lemma {:induction false} UseIsPhase(s: Chan, ops: seq<Op>, i: Index)
    requires New(s)
    ensures var phase := Run(Opened(s), ops).phases[i];
            match UseOf(s, ops, i)
            case Unused => phase.Fresh?
            case Begun => phase.Started?
            case Over => phase.Settled?
            case Idle => phase.Dud?
            case Broken => true
  {
    hide Start, Finish, Apply, Sound, Holds, OthersCalled, Fits;
    if ops != [] {
      UseIsPhase(s, ops[..|ops| - 1], i);
      RunIsSound(s, ops[..|ops| - 1]);
      var w := Run(Opened(s), ops[..|ops| - 1]);
      if !w.phases[i].Started? && !w.phases[i].Spoiled? {
        NothingOwed(w, i);
      }
    }
  }

  lemma UseSnoc(s: Chan, ops: seq<Op>, op: Op)
    requires New(s)
    ensures var all := ops + [op];
            all[..|all| - 1] == ops && Run(Opened(s), all) == Do(Run(Opened(s), ops), op)
  {
    assert (ops + [op])[..|ops + [op]| - 1] == ops;
  }

  /** A use ends in time exactly if the engine runs the callback of its own transfer before the
      status is asked for; otherwise it goes on. */
  lemma InTimeIsCalled(s: Chan, ops: seq<Op>, i: Index, env: seq<Event>, guess: DmaStatus)
    requires New(s) && UseOf(s, ops, i).Begun?
    ensures var w := Run(Opened(s), ops);
            && w.phases[i].Started? && w.phases[i].id < |w.chan.txs|
            && UseOf(s, ops + [FinishOp(i, env, guess)], i) ==
               if ApplyAll(w.chan, env).txs[w.phases[i].id].called then Over else Begun
  {
    hide Finish, Holds, ApplyAll;
    var w := Run(Opened(s), ops);
    RunIsSound(s, ops);
    UseIsPhase(s, ops, i);
    assert w.phases[i].id < |w.chan.txs| by { StartedExists(w, i); }
    UseSnoc(s, ops, FinishOp(i, env, guess));
    FinishVerdict(w, i, env, guess);
  }

  lemma StartedExists(w: World, i: Index)
    requires Sound(w) && w.phases[i].Started?
    ensures w.phases[i].id < |w.chan.txs|
  {
    assert Holds(w.chan, i, w.phases[i]);
  }

  /** The same of a use that is one XFER. */
  lemma XferInTimeIsCalled(s: Chan, ops: seq<Op>, i: Index,
                           mid: seq<Event>, env: seq<Event>, guess: DmaStatus)
    requires New(s) && !UseOf(s, ops, i).Begun? && !UseOf(s, ops, i).Broken?
    ensures var chan := Run(Opened(s), ops).chan;
            var t := Start(chan, i, Submits, mid);
            && |t.txs| == |chan.txs| + 1
            && UseOf(s, ops + [XferOp(i, Submits, mid, env, guess)], i) ==
               if ApplyAll(t, env).txs[|chan.txs|].called then Over else Begun
  {
    hide Finish, Holds, ApplyAll;
    var w := Run(Opened(s), ops);
    RunIsSound(s, ops);
    UseIsPhase(s, ops, i);
    UseSnoc(s, ops, XferOp(i, Submits, mid, env, guess));
    NothingOwed(w, i);
    StartKeeps(w, i, Submits, mid);
    FinishVerdict(DoStart(w, i, Submits, mid), i, env, guess);
  }

  /** So statuses depend on the transfers' outcomes alone: a descriptor's use may begin and end
      anywhere among those of the others, all started before any is finished, in whatever order,
      or by XFER one after the other, with FINISH repeated after timeouts; once it has been reported
      the same outcome leaves the same status. */
  lemma OrderDoesNotMatter(s1: Chan, batch: seq<Op>, s2: Chan, single: seq<Op>,
                           fate: Index -> Outcome, i: Index)
    requires New(s1) && New(s2)
    requires Follows(Run(Opened(s1), batch).chan.txs, fate)
    requires Follows(Run(Opened(s2), single).chan.txs, fate)
    requires UseOf(s1, batch, i) == UseOf(s2, single, i) == Over
    ensures Run(Opened(s1), batch).chan.shared[i].status
            == Run(Opened(s2), single).chan.shared[i].status
            == StatusOf(Retired(fate(i)))
  {
    hide Run, UseOf;
    RunIsSound(s1, batch);
    RunIsSound(s2, single);
    UseIsPhase(s1, batch, i);
    UseIsPhase(s2, single, i);
    var w1, w2 := Run(Opened(s1), batch), Run(Opened(s2), single);
    assert Holds(w1.chan, i, w1.phases[i]) && Holds(w2.chan, i, w2.phases[i]);
  }

  /** NO_ERROR, even on a spoiled descriptor, tells of the transfer whose cookie the descriptor
      holds; after a failed submission, of whatever the engine says of the error cookie (see
      RefusedSubmitIff for when that can be). */
  lemma NoErrorMeansComplete(s: Chan, ops: seq<Op>, i: Index, env: seq<Event>, guess: DmaStatus)
    requires New(s)
    ensures var w := Run(Opened(s), ops);
            var r := Finish(w.chan, i, env, guess);
            var c := r.bds[i].cookie;
            !w.phases[i].Fresh? && r.shared[i].status == NO_ERROR ==>
              if c >= 0 then c < |r.txs| && r.txs[c].bd == i && r.txs[c].state == Retired(Good)
              else guess == DMA_COMPLETE
  {
    RunIsSound(s, ops);
    var w := Run(Opened(s), ops);
    assert Holds(w.chan, i, w.phases[i]);
    SleepTransfers(SetStatus(w.chan, i, BUSY), i, env);
    ApplyAllIsEngine(SetStatus(w.chan, i, BUSY), env);
  }

  /** What XFER should report on an accepted transfer, whatever else the engine does. */
  function OwnVerdict(s: Chan, i: Index, mid: seq<Event>, env: seq<Event>): Status
    requires Fits(s)
  {
    Deserved(ApplyAll(Start(s, i, Submits, mid), env).txs[|s.txs|])
  }

  /** It reports that, for everything the engine may do before and after the submission, exactly
      if no earlier transfer of the descriptor still owes a callback when it starts. */
  lemma XferReportsItsOwnIff(s: Chan, i: Index, guess: DmaStatus)
    requires Fits(s) && CalledHaveRetired(s)
    ensures (forall mid: seq<Event>, env: seq<Event> ::
               Finish(Start(s, i, Submits, mid), i, env, guess).shared[i].status
               == OwnVerdict(s, i, mid, env))
            <==> OthersCalled(s, i, -1)
  {
    hide Finish, Start, OwnVerdict;
    if OthersCalled(s, i, -1) {
      forall mid: seq<Event>, env: seq<Event>
        ensures Finish(Start(s, i, Submits, mid), i, env, guess).shared[i].status
                == OwnVerdict(s, i, mid, env)
      {
        XferIsOwn(s, i, mid, env, guess);
      }
    } else {
      XferIsNotOwn(s, i, guess);
    }
  }

  lemma XferIsOwn(s: Chan, i: Index, mid: seq<Event>, env: seq<Event>, guess: DmaStatus)
    requires Fits(s) && CalledHaveRetired(s) && OthersCalled(s, i, -1)
    ensures Finish(Start(s, i, Submits, mid), i, env, guess).shared[i].status
            == OwnVerdict(s, i, mid, env)
  {
    hide ApplyAll, Finish;
    var p := Program(s, i);
    var q := SetBd(p, i, p.bds[i].(done := 0));
    assert Clean(q, i);
    ApplyAllHolds(q, mid, i, Spoiled);
    OwnedVerdict(Start(s, i, Submits, mid), i, |s.txs|, env, guess);
  }

  lemma XferIsNotOwn(s: Chan, i: Index, guess: DmaStatus)
    requires Fits(s) && CalledHaveRetired(s) && !OthersCalled(s, i, -1)
    ensures exists env: seq<Event> ::
              Finish(Start(s, i, Submits, []), i, env, guess).shared[i].status
              != OwnVerdict(s, i, [], env)
  {
    hide Finish;
    var t := Start(s, i, Submits, []);
    var c :| 0 <= c < |s.txs| && s.txs[c].bd == i && !s.txs[c].called;
    LateCallback(t, i, c, guess);
    assert OwnVerdict(s, i, [], Late(c, Good)) == TIMEOUT;
  }

  lemma OwnedVerdict(t: Chan, i: Index, id: nat, env: seq<Event>, guess: DmaStatus)
    requires Fits(t) && Owns(t, i, id) && CalledHaveRetired(t)
    ensures Finish(t, i, env, guess).shared[i].status == Deserved(ApplyAll(t, env).txs[id])
  {
    var b := SetStatus(t, i, BUSY);
    SleepOwns(b, i, id, env);
    SleepTransfers(b, i, env);
    TransfersAlone(t, b, env);
    ApplyAllHolds(t, env, i, Spoiled);
  }

  lemma TwoEvents(s: Chan, e1: Event, e2: Event)
    requires Fits(s)
    ensures ApplyAll(s, [e1, e2]) == Apply(Apply(s, e1), e2)
  {
    assert [e1, e2][1..] == [e2];
    assert [e2][1..] == [];
    assert ApplyAll(Apply(s, e1), [e2]) == ApplyAll(Apply(Apply(s, e1), e2), []);
  }

  /** Transfer c, which still owes a callback, retires and calls back. */
  function Late(c: nat, outcome: Outcome): seq<Event> { [Retire(c, outcome), Callback(c)] }

  predicate Owing(s: Chan, i: nat, c: nat) { c < |s.txs| && s.txs[c].bd == i && !s.txs[c].called }

  lemma SomeoneOwes(s: Chan, i: nat) returns (c: nat)
    requires !OthersCalled(s, i, -1)
    ensures Owing(s, i, c)
  {
    c :| 0 <= c < |s.txs| && s.txs[c].bd == i && !s.txs[c].called;
  }

  lemma FinishStatus(t: Chan, i: Index, env: seq<Event>, guess: DmaStatus)
    requires Fits(t)
    ensures var woke := Sleep(SetStatus(t, i, BUSY), i, env).1;
            Finish(t, i, env, guess).shared[i].status
            == Verdict(woke, Query(ApplyAll(t, env).txs, t.bds[i].cookie, guess))
    ensures Finish(t, i, env, guess).txs == ApplyAll(t, env).txs
    ensures Finish(t, i, env, guess).bds[i].cookie == t.bds[i].cookie
  {
    hide ApplyAll, Sleep;
    var b := SetStatus(t, i, BUSY);
    SleepTransfers(b, i, env);
    TransfersAlone(b, t, env);
  }

  /** A late callback ends the wait of whoever waits on the descriptor by then. */
  lemma LateWakes(t: Chan, i: Index, c: nat, outcome: Outcome, guess: DmaStatus)
    requires Fits(t) && t.bds[i].done == 0 && Owing(t, i, c)
    ensures var txs := Apply(Apply(t, Retire(c, outcome)), Callback(c)).txs;
            && Finish(t, i, Late(c, outcome), guess).shared[i].status
               == Verdict(true, Query(txs, t.bds[i].cookie, guess))
            && Finish(t, i, Late(c, outcome), guess).txs == ApplyAll(t, Late(c, outcome)).txs == txs
            && Finish(t, i, Late(c, outcome), guess).bds[i].cookie == t.bds[i].cookie
  {
    hide Finish, Query;
    var b, e1, e2 := SetStatus(t, i, BUSY), Retire(c, outcome), Callback(c);
    FinishStatus(t, i, [e1, e2], guess);
    TwoEvents(t, e1, e2);
    assert [e1, e2][1..] == [e2];
    assert [e2][1..] == [];
    var q1 := Apply(b, e1);
    var q2 := Apply(q1, e2);
    assert Sleep(q2, i, []).1;
    assert Sleep(q1, i, [e2]) == Sleep(q2, i, []);
    assert Sleep(b, i, [e1, e2]) == Sleep(q1, i, [e2]);
  }

  /** A late callback of an earlier transfer wakes the wait for a transfer that still runs; the
      driver reports an error, and would have even if that transfer completed later. */
  lemma LateCallback(t: Chan, i: Index, c: nat, guess: DmaStatus)
    requires Fits(t) && t.bds[i].done == 0 && Owing(t, i, c)
    requires var own := t.bds[i].cookie; 0 <= own < |t.txs| && own != c && t.txs[own].state == Running
    ensures Finish(t, i, Late(c, Good), guess).shared[i].status == ERROR
    ensures ApplyAll(t, Late(c, Good)).txs[t.bds[i].cookie] == t.txs[t.bds[i].cookie]
  {
    hide Finish, ApplyAll;
    LateWakes(t, i, c, Good, guess);
  }

  // ---- Refused attempts ----

  /** An XFER whose submission fails waits all the same. It reports TIMEOUT, whatever the engine
      does, exactly if no earlier transfer of the descriptor still owes a callback; and it never
      reports NO_ERROR exactly if that is so or the engine does not claim the error cookie. */
  lemma RefusedSubmitIff(s: Chan, i: Index, error: ErrorCode, guess: DmaStatus)
    requires Fits(s) && CalledHaveRetired(s)
    ensures (forall mid: seq<Event>, env: seq<Event> ::
               Finish(Start(s, i, SubmitFails(error), mid), i, env, guess).shared[i].status == TIMEOUT)
            <==> OthersCalled(s, i, -1)
    ensures (forall mid: seq<Event>, env: seq<Event> ::
               Finish(Start(s, i, SubmitFails(error), mid), i, env, guess).shared[i].status != NO_ERROR)
            <==> OthersCalled(s, i, -1) || guess != DMA_COMPLETE
  {
    hide Finish, Start;
    forall mid: seq<Event>, env: seq<Event>
      ensures var status := Finish(Start(s, i, SubmitFails(error), mid), i, env, guess).shared[i].status;
              && (OthersCalled(s, i, -1) ==> status == TIMEOUT)
              && (guess != DMA_COMPLETE ==> status != NO_ERROR)
    {
      RefusedSubmit(s, i, error, mid, env, guess);
    }
    if !OthersCalled(s, i, -1) {
      var c := SomeoneOwes(s, i);
      RefusedSubmitWakes(s, i, error, c, guess);
    }
  }

  lemma RefusedSubmit(s: Chan, i: Index, error: ErrorCode, mid: seq<Event>, env: seq<Event>,
                      guess: DmaStatus)
    requires Fits(s) && CalledHaveRetired(s)
    ensures var status := Finish(Start(s, i, SubmitFails(error), mid), i, env, guess).shared[i].status;
            && (OthersCalled(s, i, -1) ==> status == TIMEOUT)
            && (guess != DMA_COMPLETE ==> status != NO_ERROR)
  {
    hide ApplyAll, Finish;
    var p := Program(s, i);
    var q := SetBd(p, i, p.bds[i].(done := 0));
    ApplyAllHolds(q, mid, i, Spoiled);
    var t := Start(s, i, SubmitFails(error), mid);
    FinishStatus(t, i, env, guess);
    if OthersCalled(s, i, -1) {
      assert Clean(q, i);
      SleepClean(SetStatus(t, i, BUSY), i, env);
    }
  }

  lemma RefusedSubmitWakes(s: Chan, i: Index, error: ErrorCode, c: nat, guess: DmaStatus)
    requires Fits(s) && Owing(s, i, c)
    ensures Finish(Start(s, i, SubmitFails(error), []), i, Late(c, Good), guess).shared[i].status
            == if guess == DMA_COMPLETE then NO_ERROR else ERROR
  {
    hide Finish;
    LateWakes(Start(s, i, SubmitFails(error), []), i, c, Good, guess);
  }

  /** An XFER whose preparation fails does not even initialise the completion: it reports TIMEOUT,
      whatever the engine does, exactly if no signal waits and none is owed. */
  lemma RefusedPrepIff(s: Chan, i: Index, guess: DmaStatus)
    requires Fits(s) && CalledHaveRetired(s)
    ensures (forall mid: seq<Event>, env: seq<Event> ::
               Finish(Start(s, i, PrepFails, mid), i, env, guess).shared[i].status == TIMEOUT)
            <==> Clean(s, i)
  {
    hide Finish, Sleep;
    var p := Program(s, i);
    assert forall mid: seq<Event> :: Start(s, i, PrepFails, mid) == p;
    if Clean(s, i) {
      forall env: seq<Event>
        ensures Finish(p, i, env, guess).shared[i].status == TIMEOUT
      {
        FinishStatus(p, i, env, guess);
        SleepClean(SetStatus(p, i, BUSY), i, env);
      }
    } else if s.bds[i].done > 0 {
      FinishStatus(p, i, [], guess);
      WaitingWakes(SetStatus(p, i, BUSY), i, []);
      assert Finish(Start(s, i, PrepFails, []), i, [], guess).shared[i].status != TIMEOUT;
    } else {
      var c := SomeoneOwes(s, i);
      LateWakes(p, i, c, Good, guess);
      assert Finish(Start(s, i, PrepFails, []), i, Late(c, Good), guess).shared[i].status != TIMEOUT;
    }
  }

  lemma WaitingWakes(s: Chan, i: Index, env: seq<Event>)
    requires Fits(s) && s.bds[i].done > 0
    ensures Sleep(s, i, env).1
  {
  }

  // ---- A start and its finish ----

  /** The operation starts or finishes something on descriptor i. */
  predicate Uses(op: Op, i: Index) { (op.StartOp? || op.FinishOp? || op.XferOp?) && op.i == i }

  predicate Leaves(ops: seq<Op>, i: Index) { forall k :: 0 <= k < |ops| ==> !Uses(ops[k], i) }

  /** FINISH reports on the transfer of an accepted START, with `ops` done in between. */
  predicate ReportsOwn(w: World, i: Index, mid: seq<Event>, ops: seq<Op>, env: seq<Event>,
                       guess: DmaStatus)
    requires Shaped(w)
  {
    var s, id := Run(DoStart(w, i, Submits, mid), ops).chan, |w.chan.txs|;
    id < |s.txs| && Finish(s, i, env, guess).shared[i].status == Deserved(ApplyAll(s, env).txs[id])
  }

  lemma SoundShape(w: World)
    requires Sound(w)
    ensures Shaped(w)
  {
  }

  lemma DoLeaves(w: World, op: Op, i: Index)
    requires Shaped(w) && !Uses(op, i)
    ensures Do(w, op).phases[i] == w.phases[i]
  {
  }

  lemma {:induction false} RunLeaves(w: World, ops: seq<Op>, i: Index)
    requires Sound(w) && Leaves(ops, i)
    ensures Sound(Run(w, ops)) && Run(w, ops).phases[i] == w.phases[i]
  {
    hide Sound, Do;
    SoundShape(w);
    if ops != [] {
      var k := |ops| - 1;
      RunLeaves(w, ops[..k], i);
      SoundShape(Run(w, ops[..k]));
      DoKeeps(Run(w, ops[..k]), ops[k]);
      DoLeaves(Run(w, ops[..k]), ops[k], i);
    }
  }

  /** In every run an accepted START and its FINISH, whatever is done to other descriptors and by
      the engine in between, report on their own transfer exactly if no earlier transfer of the
      descriptor owes a callback at the start. A timeout long ago does no harm. */
  lemma StartFinishReportsItsOwnIff(w: World, i: Index, guess: DmaStatus)
    requires Sound(w)
    ensures (forall mid: seq<Event>, ops: seq<Op>, env: seq<Event> ::
               Leaves(ops, i) ==> ReportsOwn(w, i, mid, ops, env, guess))
            <==> OthersCalled(w.chan, i, -1)
  {
    if OthersCalled(w.chan, i, -1) {
      forall mid: seq<Event>, ops: seq<Op>, env: seq<Event> | Leaves(ops, i)
        ensures ReportsOwn(w, i, mid, ops, env, guess)
      {
        StartedReportsOwn(w, i, mid, ops, env, guess);
      }
    } else {
      XferIsNotOwn(w.chan, i, guess);
      var env: seq<Event> :| Finish(Start(w.chan, i, Submits, []), i, env, guess).shared[i].status
                             != OwnVerdict(w.chan, i, [], env);
      assert Leaves([], i) && !ReportsOwn(w, i, [], [], env, guess);
    }
  }

  lemma StartedReportsOwn(w: World, i: Index, mid: seq<Event>, ops: seq<Op>, env: seq<Event>,
                          guess: DmaStatus)
    requires Sound(w) && OthersCalled(w.chan, i, -1) && Leaves(ops, i)
    ensures ReportsOwn(w, i, mid, ops, env, guess)
  {
    hide Sound, Finish, ApplyAll, Holds;
    SoundShape(w);
    StartKeeps(w, i, Submits, mid);
    RunLeaves(DoStart(w, i, Submits, mid), ops, i);
    var v := Run(DoStart(w, i, Submits, mid), ops);
    StartedExists(v, i);
    FinishVerdict(v, i, env, guess);
  }

  // ---- Runs that come to the exceptions ----

  lemma ThreeOps(s: Chan, a: Op, b: Op, c: Op)
    requires New(s)
    ensures Run(Opened(s), [a, b, c]) == Do(Do(Do(Opened(s), a), b), c)
  {
    hide Do;
    UseSnoc(s, [], a);
    UseSnoc(s, [a], b);
    UseSnoc(s, [a] + [b], c);
    assert [] + [a] == [a];
    assert [a, b, c] == [a] + [b] + [c];
  }

  /** A transfer that FINISH has given up on for now, and then one XFER, during which it retires
      and calls back. */
  function LateRun(a: Attempt, outcome: Outcome, guess: DmaStatus): seq<Op> {
    [StartOp(0, Submits, []), FinishOp(0, [], DMA_IN_PROGRESS),
     XferOp(0, a, [], Late(0, outcome), guess)]
  }

  lemma LateRunEnds(s: Chan, a: Attempt, outcome: Outcome, guess: DmaStatus)
    requires New(s)
    ensures var r := Run(Opened(s), LateRun(a, outcome, guess)).chan;
            && |r.txs| == (if a.Submits? then 2 else 1)
            && r.txs[0].state == Retired(outcome) && r.txs[0].bd == 0
            && (a.Submits? ==> r.txs[1].bd == 0 && r.txs[1].state == Running)
            && r.bds[0].cookie == (match a case PrepFails => 0 case SubmitFails(e) => e case Submits => 1)
            && r.shared[0].status == Verdict(true, Query(r.txs, r.bds[0].cookie, guess))
  {
    hide Sleep, ApplyAll;
    var ops := LateRun(a, outcome, guess);
    ThreeOps(s, ops[0], ops[1], ops[2]);
    var s1 := Start(s, 0, Submits, []);
    var p1 := Program(s, 0);
    ApplyNothing(SetBd(p1, 0, p1.bds[0].(done := 0)));
    var s2 := Finish(s1, 0, [], DMA_IN_PROGRESS);
    FinishStatus(s1, 0, [], DMA_IN_PROGRESS);
    ApplyNothing(s1);
    IdleSleeps(SetStatus(s1, 0, BUSY), 0);
    var t := Start(s2, 0, a, []);
    var p2 := Program(s2, 0);
    ApplyNothing(SetBd(p2, 0, p2.bds[0].(done := 0)));
    LateWakes(t, 0, 0, outcome, guess);
  }

  lemma IdleSleeps(s: Chan, i: Index)
    requires Fits(s) && s.bds[i].done == 0
    ensures Sleep(s, i, []) == (s, false)
  {
  }

  /** With a second transfer, that run ends with ERROR for a transfer that still runs. */
  lemma LateCallbackHappens(s: Chan, guess: DmaStatus)
    requires New(s)
    ensures var r := Run(Opened(s), LateRun(Submits, Good, guess)).chan;
            && |r.txs| == 2 && r.txs[1].bd == 0 && r.bds[0].cookie == 1
            && r.shared[0].status == ERROR && r.txs[1].state == Running
  {
    hide Run;
    LateRunEnds(s, Submits, Good, guess);
  }

  /** With a submission that fails it can end with NO_ERROR although the only transfer there ever
      was has failed, if the engine takes a negative cookie for a completed one. */
  lemma WrongNoErrorHappens(s: Chan, error: ErrorCode)
    requires New(s)
    ensures var r := Run(Opened(s), LateRun(SubmitFails(error), Bad, DMA_COMPLETE)).chan;
            && |r.txs| == 1 && r.txs[0].state == Retired(Bad) && r.bds[0].cookie == error
            && r.shared[0].status == NO_ERROR
  {
    hide Run;
    LateRunEnds(s, SubmitFails(error), Bad, DMA_COMPLETE);
  }

  /** With a preparation that fails it ends with the outcome of the earlier transfer. */
  lemma StaleReportHappens(s: Chan, outcome: Outcome, guess: DmaStatus)
    requires New(s)
    ensures var r := Run(Opened(s), LateRun(PrepFails, outcome, guess)).chan;
            |r.txs| == 1 && r.shared[0].status == StatusOf(Retired(outcome))
  {
    hide Run;
    LateRunEnds(s, PrepFails, outcome, guess);
  }

  // ---- Memory ----

  /** Every transfer goes to its own descriptor's buffer, and none is longer than a buffer. */
  predicate InPlace(s: Chan, base: nat)
    requires Fits(s)
  {
    && (forall i :: 0 <= i < BUFFER_COUNT ==>
          s.bds[i].handle == DmaHandle(base, i) && s.shared[i].length <= BUFFER_SIZE)
    && (forall c :: 0 <= c < |s.txs| ==>
          s.txs[c].addr == DmaHandle(base, s.txs[c].bd) && s.txs[c].len <= BUFFER_SIZE)
  }

  predicate Modest(op: Op) { op.LengthOp? ==> op.length <= BUFFER_SIZE }

  lemma StartInPlace(s: Chan, i: Index, a: Attempt, mid: seq<Event>, base: nat)
    requires Fits(s) && InPlace(s, base)
    ensures InPlace(Start(s, i, a, mid), base)
  {
    var p := Program(s, i);
    ApplyAllIsEngine(SetBd(p, i, p.bds[i].(done := 0)), mid);
  }

  lemma {:induction false} SleepInPlace(s: Chan, i: Index, env: seq<Event>, base: nat)
    requires Fits(s) && InPlace(s, base)
    ensures InPlace(Sleep(s, i, env).0, base)
    decreases |env|
  {
    if s.bds[i].done > 0 {
      ApplyAllIsEngine(SetBd(s, i, s.bds[i].(done := s.bds[i].done - 1)), env);
    } else if env != [] {
      SleepInPlace(Apply(s, env[0]), i, env[1..], base);
    }
  }

  lemma FinishInPlace(s: Chan, i: Index, env: seq<Event>, guess: DmaStatus, base: nat)
    requires Fits(s) && InPlace(s, base)
    ensures InPlace(Finish(s, i, env, guess), base)
  {
    SleepInPlace(SetStatus(s, i, BUSY), i, env, base);
  }

  lemma DoInPlace(w: World, op: Op, base: nat)
    requires Shaped(w) && InPlace(w.chan, base) && Modest(op)
    ensures InPlace(Do(w, op).chan, base)
  {
    match op
    case StartOp(i, a, mid) => StartInPlace(w.chan, i, a, mid, base);
    case FinishOp(i, env, guess) => FinishInPlace(w.chan, i, env, guess, base);
    case XferOp(i, a, mid, env, guess) =>
      StartInPlace(w.chan, i, a, mid, base);
      FinishInPlace(DoStart(w, i, a, mid).chan, i, env, guess, base);
    case EngineOp(_) =>
    case LengthOp(_, _) =>
  }

  lemma {:induction false} RunInPlace(s: Chan, base: nat, ops: seq<Op>)
    requires New(s) && InPlace(s, base)
    requires forall k :: 0 <= k < |ops| ==> Modest(ops[k])
    ensures InPlace(Run(Opened(s), ops).chan, base)
  {
    if ops != [] {
      RunInPlace(s, base, ops[..|ops| - 1]);
      DoInPlace(Run(Opened(s), ops[..|ops| - 1]), ops[|ops| - 1], base);
    }
  }

  /** While user space keeps lengths within a buffer, every transfer the engine ever gets stays
      inside the allocation, off all status and length words, and apart from the transfers of
      all other descriptors. */
  lemma EngineStaysInBuffers(s: Chan, base: nat, ops: seq<Op>)
    requires New(s) && Allocated(base) && InPlace(s, base)
    requires forall k :: 0 <= k < |ops| ==> Modest(ops[k])
    ensures var txs := Run(Opened(s), ops).chan.txs;
            && (forall c :: 0 <= c < |txs| ==>
                  txs[c].addr == DmaHandle(base, txs[c].bd)
                  && Confined(base, txs[c].bd, txs[c].len))
            && (forall c, d :: 0 <= c < |txs| && 0 <= d < |txs| && txs[c].bd != txs[d].bd ==>
                  Apart(txs[c].addr, txs[c].len, txs[d].addr, txs[d].len))
  {
    RunInPlace(s, base, ops);
    var txs := Run(Opened(s), ops).chan.txs;
    forall c | 0 <= c < |txs|
      ensures Confined(base, txs[c].bd, txs[c].len)
    {
      ConfinedIff(base, txs[c].bd, txs[c].len);
    }
    forall c, d | 0 <= c < |txs| && 0 <= d < |txs| && txs[c].bd != txs[d].bd
      ensures Apart(txs[c].addr, txs[c].len, txs[d].addr, txs[d].len)
    {
      TransfersApart(base, txs[c].bd, txs[c].len, txs[d].bd, txs[d].len);
    }
  }
}
