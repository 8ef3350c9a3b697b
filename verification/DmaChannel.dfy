/** One channel of the DMA proxy: its descriptors, its engine, and what an ioctl does to them. */
module DmaChannel {
  import opened DmaLayout
  import opened Words

  datatype Outcome = Good | Bad

  datatype TxState = Running | Retired(outcome: Outcome)

  /** A transfer the engine has accepted: for which descriptor, what memory, how far it is, and
      whether its callback has run. Its cookie is its position. */
  datatype Tx = Tx(bd: nat, addr: nat, len: Word, state: TxState, called: bool)

  /** `done` counts a completion's unconsumed signals. A negative cookie is a submit error. */
  datatype Bd = Bd(done: nat, cookie: int, handle: nat, sgAddr: nat, sgLen: Word)

  datatype Status = NO_ERROR | BUSY | TIMEOUT | ERROR

  /** The words of a channel buffer that driver and user share. */
  datatype Shared = Shared(status: Status, length: Word)

  datatype Chan = Chan(bds: seq<Bd>, shared: seq<Shared>, txs: seq<Tx>)

  predicate Fits(s: Chan) {
    && |s.bds| == BUFFER_COUNT && |s.shared| == BUFFER_COUNT
    && forall c :: 0 <= c < |s.txs| ==> s.txs[c].bd < BUFFER_COUNT
  }

  // ---- The engine ----

  /** A running transfer retires; later its callback runs, once. */
  datatype Event = Retire(id: nat, outcome: Outcome) | Callback(id: nat)

  predicate Retires(txs: seq<Tx>, e: Event) {
    e.Retire? && e.id < |txs| && txs[e.id].state.Running?
  }

  predicate CallsBack(txs: seq<Tx>, e: Event) {
    e.Callback? && e.id < |txs| && txs[e.id].state.Retired? && !txs[e.id].called
  }

  /** sync_callback signals the descriptor the transfer was started for, whatever that descriptor
      is used for by now. An event the engine cannot produce changes nothing. */
  function Apply(s: Chan, e: Event): (r: Chan)
    requires Fits(s)
    ensures Fits(r) && r.shared == s.shared && |r.txs| == |s.txs|
  {
    if Retires(s.txs, e) then
      s.(txs := s.txs[e.id := s.txs[e.id].(state := Retired(e.outcome))])
    else if CallsBack(s.txs, e) then
      var i := s.txs[e.id].bd;
      s.(txs := s.txs[e.id := s.txs[e.id].(called := true)],
         bds := s.bds[i := s.bds[i].(done := s.bds[i].done + 1)])
    else
      s
  }

  function ApplyAll(s: Chan, es: seq<Event>): (r: Chan)
    requires Fits(s)
    ensures Fits(r) && r.shared == s.shared && |r.txs| == |s.txs|
    decreases |es|
  {
    if es == [] then s else ApplyAll(Apply(s, es[0]), es[1..])
  }

  datatype DmaStatus = DMA_COMPLETE | DMA_IN_PROGRESS | DMA_ERROR

  /** dma_async_is_tx_complete; for a cookie the engine never gave, it may answer anything. */
  function Query(txs: seq<Tx>, cookie: int, guess: DmaStatus): DmaStatus {
    if 0 <= cookie < |txs| then
      match txs[cookie].state
      case Running => DMA_IN_PROGRESS
      case Retired(Good) => DMA_COMPLETE
      case Retired(Bad) => DMA_ERROR
    else guess
  }

  // ---- start_transfer ----

  /** How the engine takes a transfer. */
  type ErrorCode = x: int | x < 0 witness -1

  datatype Attempt = PrepFails | SubmitFails(error: ErrorCode) | Submits

  function SetBd(s: Chan, i: nat, b: Bd): (r: Chan)
    requires Fits(s) && i < BUFFER_COUNT
    ensures Fits(r)
  {
    s.(bds := s.bds[i := b])
  }

  /** The scatter entry: the descriptor's buffer, with the length user space has written. */
  function Program(s: Chan, i: nat): (r: Chan)
    requires Fits(s) && i < BUFFER_COUNT
    ensures Fits(r) && r.txs == s.txs && r.shared == s.shared
  {
    SetBd(s, i, s.bds[i].(sgAddr := s.bds[i].handle, sgLen := s.shared[i].length))
  }

  /** Submission: the descriptor keeps the cookie, an accepted transfer is queued and issued. */
  function Submit(s: Chan, i: nat, a: Attempt): (r: Chan)
    requires Fits(s) && i < BUFFER_COUNT && !a.PrepFails?
    ensures Fits(r)
  {
    if a.Submits? then
      SetBd(s, i, s.bds[i].(cookie := |s.txs|))
      .(txs := s.txs + [Tx(i, s.bds[i].sgAddr, s.bds[i].sgLen, Running, false)])
    else
      SetBd(s, i, s.bds[i].(cookie := a.error))
  }

  /** start_transfer; `mid` happens between the completion's initialisation and the submission. */
  function Start(s: Chan, i: nat, a: Attempt, mid: seq<Event>): (r: Chan)
    requires Fits(s) && i < BUFFER_COUNT
    ensures Fits(r)
  {
    var p := Program(s, i);
    if a.PrepFails? then p else Submit(ApplyAll(SetBd(p, i, p.bds[i].(done := 0)), mid), i, a)
  }

  // ---- wait_for_transfer ----

  /** wait_for_completion_timeout: consumes a signal as soon as there is one; `env` is all that
      happens until the deadline, and what is left of it happens before the status is asked. */
  function Sleep(s: Chan, i: nat, env: seq<Event>): (r: (Chan, bool))
    requires Fits(s) && i < BUFFER_COUNT
    ensures Fits(r.0) && r.0.shared == s.shared && |r.0.txs| == |s.txs|
    decreases |env|
  {
    if s.bds[i].done > 0 then
      (ApplyAll(SetBd(s, i, s.bds[i].(done := s.bds[i].done - 1)), env), true)
    else if env == [] then
      (s, false)
    else
      Sleep(Apply(s, env[0]), i, env[1..])
  }

  function SetStatus(s: Chan, i: nat, status: Status): (r: Chan)
    requires Fits(s) && i < BUFFER_COUNT
    ensures Fits(r) && r.bds == s.bds && r.txs == s.txs
  {
    s.(shared := s.shared[i := s.shared[i].(status := status)])
  }

  function Verdict(woke: bool, answer: DmaStatus): Status {
    if !woke then TIMEOUT else if answer != DMA_COMPLETE then ERROR else NO_ERROR
  }

  /** wait_for_transfer. */
  function Finish(s: Chan, i: nat, env: seq<Event>, guess: DmaStatus): (r: Chan)
    requires Fits(s) && i < BUFFER_COUNT
    ensures Fits(r)
  {
    var (q, woke) := Sleep(SetStatus(s, i, BUSY), i, env);
    SetStatus(q, i, Verdict(woke, Query(q.txs, q.bds[i].cookie, guess)))
  }

  // ---- What one event, or many, leave alone ----

  /** From s to r only the engine acted: transfers retire and call back, completions collect
      signals, and nothing else moves. */
  predicate EngineOnly(s: Chan, r: Chan)
    requires Fits(s) && Fits(r)
  {
    && r.shared == s.shared && |r.txs| == |s.txs|
    && (forall j :: 0 <= j < BUFFER_COUNT ==>
          r.bds[j].done >= s.bds[j].done && r.bds[j] == s.bds[j].(done := r.bds[j].done))
    && (forall c :: 0 <= c < |s.txs| ==>
          && r.txs[c] == s.txs[c].(state := r.txs[c].state, called := r.txs[c].called)
          && (s.txs[c].state.Retired? ==> r.txs[c].state == s.txs[c].state)
          && (s.txs[c].called ==> r.txs[c].called))
  }

  lemma {:induction false} ApplyAllIsEngine(s: Chan, es: seq<Event>)
    requires Fits(s)
    ensures EngineOnly(s, ApplyAll(s, es))
    decreases |es|
  {
    if es != [] {
      ApplyAllIsEngine(Apply(s, es[0]), es[1..]);
    }
  }

  /** What the engine does to descriptor j depends on its transfers and on j alone. */
  lemma {:induction false} ApplyAllBd(s: Chan, r: Chan, es: seq<Event>, j: nat)
    requires Fits(s) && Fits(r) && j < BUFFER_COUNT && s.txs == r.txs && s.bds[j] == r.bds[j]
    ensures ApplyAll(s, es).bds[j] == ApplyAll(r, es).bds[j]
    decreases |es|
  {
    if es != [] {
      ApplyAllBd(Apply(s, es[0]), Apply(r, es[0]), es[1..], j);
    }
  }

  lemma {:induction false} SleepBd(s: Chan, i: nat, env: seq<Event>, j: nat)
    requires Fits(s) && i < BUFFER_COUNT && j < BUFFER_COUNT && i != j
    ensures Sleep(s, i, env).0.bds[j] == ApplyAll(s, env).bds[j]
    decreases |env|
  {
    if s.bds[i].done > 0 {
      ApplyAllBd(SetBd(s, i, s.bds[i].(done := s.bds[i].done - 1)), s, env, j);
    } else if env != [] {
      SleepBd(Apply(s, env[0]), i, env[1..], j);
    }
  }

  /** To every other descriptor an operation is just what the engine does meanwhile: not a field
      of it, not a single signal and not one shared word comes out differently. */
  lemma OperationsStayApart(s: Chan, i: nat, j: nat, a: Attempt, es: seq<Event>, guess: DmaStatus)
    requires Fits(s) && i < BUFFER_COUNT && j < BUFFER_COUNT && i != j
    ensures Start(s, i, a, es).bds[j] == ApplyAll(s, if a.PrepFails? then [] else es).bds[j]
    ensures Finish(s, i, es, guess).bds[j] == ApplyAll(s, es).bds[j]
    ensures Start(s, i, a, es).shared[j] == s.shared[j] == Finish(s, i, es, guess).shared[j]
  {
    hide ApplyAll, Sleep;
    var p := Program(s, i);
    var b := SetStatus(s, i, BUSY);
    if a.PrepFails? {
      ApplyNothing(s);
    } else {
      ApplyAllBd(SetBd(p, i, p.bds[i].(done := 0)), s, es, j);
    }
    SleepBd(b, i, es, j);
    ApplyAllBd(b, s, es, j);
  }

  lemma ApplyNothing(s: Chan)
    requires Fits(s)
    ensures ApplyAll(s, []) == s
  {
  }
}
