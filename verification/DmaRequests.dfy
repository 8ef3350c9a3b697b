/** What the engine is asked to transfer. */
module DmaRequests {
  import opened DmaLayout
  import opened DmaChannel
  import opened DmaRuns
  import opened Words

  /** Descriptor, address and length of a transfer. */
  datatype Request = Request(i: Index, addr: nat, len: Word)

  predicate Asks(tx: Tx, r: Request) { tx.bd == r.i && tx.addr == r.addr && tx.len == r.len }

  /** The length user space wrote last to descriptor i's word, or what the word held at first. */
  function LengthOf(s: Chan, ops: seq<Op>, i: Index): Word
    requires Fits(s)
  {
    if ops == [] then s.shared[i].length
    else
      var op := ops[|ops| - 1];
      if op.LengthOp? && op.i == i then op.length else LengthOf(s, ops[..|ops| - 1], i)
  }

  /** Each accepted start asks for its own descriptor's buffer, and for the length that user space
      wrote last before it. */
  function Requests(s: Chan, ops: seq<Op>): seq<Request>
    requires Fits(s)
  {
    if ops == [] then []
    else
      var before, op := ops[..|ops| - 1], ops[|ops| - 1];
      if (op.StartOp? || op.XferOp?) && op.a.Submits? then
        Requests(s, before) + [Request(op.i, s.bds[op.i].handle, LengthOf(s, before, op.i))]
      else
        Requests(s, before)
  }

  /** The same transfers in the queue, as to what they transfer, and the same addresses and lengths
      for those to come. */
  predicate SameRequests(s: Chan, r: Chan)
    requires Fits(s) && Fits(r)
  {
    && |r.txs| == |s.txs|
    && (forall c :: 0 <= c < |s.txs| ==>
          r.txs[c].bd == s.txs[c].bd && r.txs[c].addr == s.txs[c].addr && r.txs[c].len == s.txs[c].len)
    && (forall j :: 0 <= j < BUFFER_COUNT ==>
          r.bds[j].handle == s.bds[j].handle && r.shared[j].length == s.shared[j].length)
  }

  lemma ApplySame(s: Chan, e: Event)
    requires Fits(s)
    ensures SameRequests(s, Apply(s, e))
  {
  }

  lemma ApplyAllSame(s: Chan, es: seq<Event>)
    requires Fits(s)
    ensures SameRequests(s, ApplyAll(s, es))
  {
    hide ApplyAll;
    ApplyAllIsEngine(s, es);
  }

  lemma {:induction false} SleepSame(s: Chan, i: Index, env: seq<Event>)
    requires Fits(s)
    ensures SameRequests(s, Sleep(s, i, env).0)
    decreases |env|
  {
    if s.bds[i].done > 0 {
      ApplyAllSame(SetBd(s, i, s.bds[i].(done := s.bds[i].done - 1)), env);
    } else if env != [] {
      ApplySame(s, env[0]);
      SleepSame(Apply(s, env[0]), i, env[1..]);
    }
  }

  lemma FinishSame(s: Chan, i: Index, env: seq<Event>, guess: DmaStatus)
    requires Fits(s)
    ensures SameRequests(s, Finish(s, i, env, guess))
  {
    hide Sleep;
    SleepSame(SetStatus(s, i, BUSY), i, env);
  }

  /** An accepted start queues one transfer, of the descriptor's buffer and of the length its word
      holds; a refused one queues none. */
  lemma StartQueues(s: Chan, i: Index, a: Attempt, mid: seq<Event>)
    requires Fits(s)
    ensures var r := Start(s, i, a, mid);
            && |r.txs| == |s.txs| + (if a.Submits? then 1 else 0)
            && (a.Submits? ==>
                  r.txs[|s.txs|] == Tx(i, s.bds[i].handle, s.shared[i].length, Running, false))
            && SameRequests(s, r.(txs := r.txs[..|s.txs|]))
  {
    hide ApplyAll;
    var p := Program(s, i);
    if !a.PrepFails? {
      var q := SetBd(p, i, p.bds[i].(done := 0));
      ApplyAllIsEngine(q, mid);
    }
  }

  /** The queue is what was asked for, and what may be asked for next is as it should be. */
  predicate Carries(s: Chan, ops: seq<Op>, r: Chan)
    requires Fits(s) && Fits(r)
  {
    && |r.txs| == |Requests(s, ops)|
    && (forall c :: 0 <= c < |r.txs| ==> Asks(r.txs[c], Requests(s, ops)[c]))
    && (forall j :: 0 <= j < BUFFER_COUNT ==>
          r.bds[j].handle == s.bds[j].handle && r.shared[j].length == LengthOf(s, ops, j))
  }

  lemma StillCarries(s: Chan, ops: seq<Op>, q: Chan, op: Op, r: Chan)
    requires Fits(s) && Fits(q) && Fits(r) && Carries(s, ops, q) && SameRequests(q, r)
    requires !op.LengthOp? && ((op.StartOp? || op.XferOp?) ==> !op.a.Submits?)
    ensures Carries(s, ops + [op], r)
  {
    assert (ops + [op])[..|ops + [op]| - 1] == ops;
  }

  lemma CarriesOneMore(s: Chan, ops: seq<Op>, q: Chan, op: Op, r: Chan)
    requires Fits(s) && Fits(q) && Fits(r) && Carries(s, ops, q)
    requires (op.StartOp? || op.XferOp?) && op.a.Submits?
    requires |r.txs| == |q.txs| + 1 && SameRequests(q, r.(txs := r.txs[..|q.txs|]))
    requires Asks(r.txs[|q.txs|], Request(op.i, q.bds[op.i].handle, q.shared[op.i].length))
    ensures Carries(s, ops + [op], r)
  {
    assert (ops + [op])[..|ops + [op]| - 1] == ops;
  }

  lemma LengthCarries(s: Chan, ops: seq<Op>, q: Chan, op: Op)
    requires Fits(s) && Fits(q) && Carries(s, ops, q) && op.LengthOp?
    ensures Carries(s, ops + [op], q.(shared := q.shared[op.i := q.shared[op.i].(length := op.length)]))
  {
    assert (ops + [op])[..|ops + [op]| - 1] == ops;
  }

  lemma SameThrough(s: Chan, q: Chan, r: Chan, n: nat)
    requires Fits(s) && Fits(q) && Fits(r) && n <= |q.txs| == |r.txs|
    requires SameRequests(s, q.(txs := q.txs[..n])) && SameRequests(q, r)
    ensures SameRequests(s, r.(txs := r.txs[..n]))
  {
  }

  lemma DoCarries(s: Chan, ops: seq<Op>, w: World, op: Op)
    requires Fits(s) && Shaped(w) && Carries(s, ops, w.chan)
    ensures Carries(s, ops + [op], Do(w, op).chan)
  {
    hide Carries, SameRequests, Start, Finish;
    var q, r := w.chan, Do(w, op).chan;
    match op
    case StartOp(i, a, mid) => StartCarries(s, ops, q, op, r);
    case FinishOp(i, env, guess) =>
      FinishSame(q, i, env, guess);
      StillCarries(s, ops, q, op, r);
    case XferOp(i, a, mid, env, guess) =>
      FinishSame(Start(q, i, a, mid), i, env, guess);
      StartCarries(s, ops, q, op, r);
    case EngineOp(e) =>
      ApplySame(q, e);
      StillCarries(s, ops, q, op, r);
    case LengthOp(_, _) => LengthCarries(s, ops, q, op);
  }

  lemma SameSame(s: Chan)
    requires Fits(s)
    ensures SameRequests(s, s)
  {
  }

  lemma StartCarries(s: Chan, ops: seq<Op>, q: Chan, op: Op, r: Chan)
    requires Fits(s) && Fits(q) && Fits(r) && Carries(s, ops, q) && (op.StartOp? || op.XferOp?)
    requires SameRequests(Start(q, op.i, op.a, op.mid), r) || r == Start(q, op.i, op.a, op.mid)
    ensures Carries(s, ops + [op], r)
  {
    hide Carries, Start;
    var t := Start(q, op.i, op.a, op.mid);
    StartQueues(q, op.i, op.a, op.mid);
    SameSame(t);
    SameThrough(q, t, r, |q.txs|);
    if op.a.Submits? {
      CarriesOneMore(s, ops, q, op, r);
    } else {
      assert r.txs[..|q.txs|] == r.txs;
      StillCarries(s, ops, q, op, r);
    }
  }

  /** In every run the engine is asked, in order, for just what the accepted starts ask for: each
      for its own descriptor's buffer and the length written last before that start. */
  lemma QueueIsRequests(s: Chan, ops: seq<Op>)
    requires New(s)
    ensures var txs, asked := Run(Opened(s), ops).chan.txs, Requests(s, ops);
            |txs| == |asked| && forall c :: 0 <= c < |txs| ==> Asks(txs[c], asked[c])
  {
    RunCarries(s, ops);
  }

  lemma {:induction false} RunCarries(s: Chan, ops: seq<Op>)
    requires New(s)
    ensures Carries(s, ops, Run(Opened(s), ops).chan)
  {
    hide Do;
    if ops != [] {
      var k := |ops| - 1;
      hide Carries;
      RunCarries(s, ops[..k]);
      DoCarries(s, ops[..k], Run(Opened(s), ops[..k]), ops[k]);
      assert ops == ops[..k] + [ops[k]];
    }
  }
}
