/** The DMA proxy driver itself. */
module DmaProxy {
  import opened DmaLayout
  import opened DmaChannel
  import opened DmaRuns

  datatype Command = START_XFER | FINISH_XFER | XFER | UNKNOWN

  /** What happens to memory and engine during a call, in order. */
  datatype Step = Wrote(i: nat, status: Status) | Engine(e: Event)

  function EngineSteps(es: seq<Event>): (r: seq<Step>)
    ensures |r| == |es|
  {
    seq(|es|, k requires 0 <= k < |es| => Engine(es[k]))
  }

  lemma StepsSnoc(es: seq<Event>, k: nat)
    requires k < |es|
    ensures EngineSteps(es[..k + 1]) == EngineSteps(es[..k]) + [Engine(es[k])]
  {
  }

  lemma StepsSplit(es: seq<Event>, k: nat)
    requires k <= |es|
    ensures EngineSteps(es) == EngineSteps(es[..k]) + EngineSteps(es[k..])
  {
  }

  lemma NoSteps(es: seq<Event>)
    ensures EngineSteps(es[..0]) == [] && es[0..] == es
    ensures es[|es|..] == []
  {
  }

  /** start_transfer: nothing is shown to user space. */
  function StartSteps(a: Attempt, mid: seq<Event>): seq<Step> {
    if a.PrepFails? then [] else EngineSteps(mid)
  }

  /** wait_for_transfer: the status word says BUSY while the engine goes on, and then the verdict. */
  function FinishSteps(i: nat, env: seq<Event>, status: Status): seq<Step> {
    [Wrote(i, BUSY)] + EngineSteps(env) + [Wrote(i, status)]
  }

  class Channel {
    const bdtable: array<Bd>
    const bufferTable: array<Shared>  // the status and length words of the channel buffers
    var bdindex: int                  // as user space gave it
    var engine: seq<Tx>               // the DMA engine: the transfers it has accepted
    ghost var history: seq<Step>      // status writes and engine events so far

    predicate Valid()
      reads this, bdtable, bufferTable
    {
      Fits(Snapshot())
    }

    function Snapshot(): Chan
      reads this, bdtable, bufferTable
    {
      Chan(bdtable[..], bufferTable[..], engine)
    }

    /** create_channel: every descriptor gets the address of its buffer; what the completions,
        cookies and shared words hold is left as the allocator gave it. */
    constructor (base: nat, bds: array<Bd>, shared: array<Shared>)
      requires bds.Length == BUFFER_COUNT && shared.Length == BUFFER_COUNT
      modifies bds
      ensures Valid() && bdtable == bds && bufferTable == shared && New(Snapshot())
      ensures forall i :: 0 <= i < BUFFER_COUNT ==>
                bds[i] == old(bds[i]).(handle := DmaHandle(base, i))
    {
      bdtable, bufferTable, bdindex, engine, history := bds, shared, 0, [], [];
      new;
      for bd := 0 to BUFFER_COUNT
        modifies bds
        invariant forall i :: 0 <= i < bd ==>
                    bds[i] == old(bds[i]).(handle := DmaHandle(base, i))
        invariant forall i :: bd <= i < BUFFER_COUNT ==> bds[i] == old(bds[i])
      {
        bds[bd] := bds[bd].(handle := DmaHandle(base, bd));
      }
    }

    /** One event of the engine; a callback is sync_callback. */
    method EngineEvent(e: Event)
      requires Valid()
      modifies this`engine, this`history, bdtable
      ensures Valid() && Snapshot() == Apply(old(Snapshot()), e)
      ensures history == old(history) + [Engine(e)]
    {
      history := history + [Engine(e)];
      if Retires(engine, e) {
        engine := engine[e.id := engine[e.id].(state := Retired(e.outcome))];
      } else if CallsBack(engine, e) {
        var i := engine[e.id].bd;
        engine := engine[e.id := engine[e.id].(called := true)];
        bdtable[i] := bdtable[i].(done := bdtable[i].done + 1);
      }
    }

    method EngineEvents(es: seq<Event>)
      requires Valid()
      modifies this`engine, this`history, bdtable
      ensures Valid() && Snapshot() == ApplyAll(old(Snapshot()), es)
      ensures history == old(history) + EngineSteps(es)
    {
      for k := 0 to |es|
        invariant Valid()
        invariant ApplyAll(Snapshot(), es[k..]) == ApplyAll(old(Snapshot()), es)
        invariant history == old(history) + EngineSteps(es[..k])
      {
        assert es[k..][0] == es[k] && es[k..][1..] == es[k + 1..];
        EngineEvent(es[k]);
        StepsSnoc(es, k);
      }
      assert es[..|es|] == es;
    }

    /** start_transfer on the descriptor bdindex. */
    method StartTransfer(a: Attempt, mid: seq<Event>)
      requires Valid() && 0 <= bdindex < BUFFER_COUNT
      modifies this`engine, this`history, bdtable
      ensures Valid() && Snapshot() == Start(old(Snapshot()), bdindex, a, mid)
      ensures history == old(history) + StartSteps(a, mid)
    {
      var i := bdindex;
      bdtable[i] := bdtable[i].(sgAddr := bdtable[i].handle, sgLen := bufferTable[i].length);
      assert Snapshot() == Program(old(Snapshot()), i);
      if !a.PrepFails? {
        bdtable[i] := bdtable[i].(done := 0);  // init_completion
        EngineEvents(mid);
        if a.Submits? {
          var tx := Tx(i, bdtable[i].sgAddr, bdtable[i].sgLen, Running, false);
          bdtable[i] := bdtable[i].(cookie := |engine|);
          engine := engine + [tx];
        } else {
          bdtable[i] := bdtable[i].(cookie := a.error);
        }
      }
    }

    /** wait_for_transfer on the descriptor bdindex; `env` is what the engine does from the call
        until the status is asked for. */
    method WaitForTransfer(env: seq<Event>, guess: DmaStatus)
      requires Valid() && 0 <= bdindex < BUFFER_COUNT
      modifies this`engine, this`history, bdtable, bufferTable
      ensures Valid() && Snapshot() == Finish(old(Snapshot()), bdindex, env, guess)
      ensures history == old(history) + FinishSteps(bdindex, env, Snapshot().shared[bdindex].status)
    {
      var i := bdindex;
      SetShared(i, BUSY);
      var woke := WaitForCompletion(i, env);
      var answer := Query(engine, bdtable[i].cookie, guess);
      if !woke {
        SetShared(i, TIMEOUT);
      } else if answer != DMA_COMPLETE {
        SetShared(i, ERROR);
      } else {
        SetShared(i, NO_ERROR);
      }
    }

    method SetShared(i: nat, status: Status)
      requires Valid() && i < BUFFER_COUNT
      modifies this`history, bufferTable
      ensures Valid() && Snapshot() == SetStatus(old(Snapshot()), i, status)
      ensures history == old(history) + [Wrote(i, status)]
    {
      history := history + [Wrote(i, status)];
      bufferTable[i] := bufferTable[i].(status := status);
    }

    /** wait_for_completion_timeout: false means the deadline came first. */
    method WaitForCompletion(i: nat, env: seq<Event>) returns (woke: bool)
      requires Valid() && i < BUFFER_COUNT
      modifies this`engine, this`history, bdtable
      ensures Valid() && (Snapshot(), woke) == Sleep(old(Snapshot()), i, env)
      ensures history == old(history) + EngineSteps(env)
    {
      hide Apply, ApplyAll, EngineSteps;
      NoSteps(env);
      var k := 0;
      while bdtable[i].done == 0 && k < |env|
        invariant Valid() && k <= |env|
        invariant Sleep(Snapshot(), i, env[k..]) == Sleep(old(Snapshot()), i, env)
        invariant history == old(history) + EngineSteps(env[..k])
      {
        assert env[k..][0] == env[k] && env[k..][1..] == env[k + 1..];
        EngineEvent(env[k]);
        StepsSnoc(env, k);
        k := k + 1;
      }
      woke := bdtable[i].done > 0;
      if woke {
        bdtable[i] := bdtable[i].(done := bdtable[i].done - 1);
        EngineEvents(env[k..]);
      }
      StepsSplit(env, k);
    }

    /** ioctl; the index comes from user space, and every command that uses it relies on it being
        in range. */
    method Ioctl(cmd: Command, index: int, a: Attempt, mid: seq<Event>, env: seq<Event>,
                 guess: DmaStatus)
      requires Valid() && (cmd.UNKNOWN? || 0 <= index < BUFFER_COUNT)
      modifies this, bdtable, bufferTable
      ensures Valid() && bdindex == index
      ensures var s := old(Snapshot());
              Snapshot() ==
              match cmd
              case START_XFER => Start(s, index, a, mid)
              case FINISH_XFER => Finish(s, index, env, guess)
              case XFER => Finish(Start(s, index, a, mid), index, env, guess)
              case UNKNOWN => s
      ensures history == old(history) +
              match cmd
              case START_XFER => StartSteps(a, mid)
              case FINISH_XFER => FinishSteps(index, env, Snapshot().shared[index].status)
              case XFER => StartSteps(a, mid) + FinishSteps(index, env, Snapshot().shared[index].status)
              case UNKNOWN => []
    {
      bdindex := index;
      match cmd
      case START_XFER => StartTransfer(a, mid);
      case FINISH_XFER => WaitForTransfer(env, guess);
      case XFER =>
        StartTransfer(a, mid);
        WaitForTransfer(env, guess);
      case UNKNOWN =>
    }
  }
}
