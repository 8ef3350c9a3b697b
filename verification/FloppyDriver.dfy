/** The floppy driver itself, statement by statement. */
module FloppyDriver {
  import opened FloppyWave
  import opened FloppySampler
  import opened FloppyControl

  const EINVAL := -22

  // the state variable of the polling loop
  const WAIT_INDEX := 0
  const READ := 1
  const DONE := 2

  function AsPoll(state: int, wait: bool): Poll {
    if state == WAIT_INDEX then WaitIndex else if state == READ then Read(wait) else Done
  }

  class Driver {
    var curTrack: nat
    var homed: bool           // FLOPPY_FLAG_HOMED
    var log: seq<Event>       // GPIO writes and delays so far
    const trk00: Sense        // what TRK00 reads, given them

    function Snapshot(): Floppy
      reads this
    {
      Floppy(curTrack, homed, log)
    }

    predicate Valid()
      reads this
    {
      curTrack <= TRACKS
    }

    /** A zeroed instance whose lines have been driven low. */
    constructor (trk00: Sense)
      ensures Valid() && Snapshot() == Fresh() && this.trk00 == trk00
    {
      this.trk00 := trk00;
      curTrack, homed, log := 0, false, [];
      new;
      DeassertAll();
    }

    method SetSignal(line: nat, high: bool)
      modifies this`log
      ensures log == old(log) + [Set(line, high)]
    {
      log := log + [Set(line, high)];
    }

    /** udelay, or usleep_range with its lower bound. */
    method Delay(us: nat)
      modifies this`log
      ensures log == old(log) + [Wait(us)]
    {
      log := log + [Wait(us)];
    }

    method DeassertAll()
      modifies this`log
      ensures log == old(log) + (LinesLow(SIG_COUNT) + [Wait(1)])
    {
      for ii := 0 to SIG_COUNT
        invariant log == old(log) + LinesLow(ii)
      {
        SetSignal(ii, false);
      }
      Delay(1);
    }

    /** floppy_step. */
    method Step(inward: bool)
      requires Valid()
      modifies this
      ensures Valid() && Snapshot() == StepOnce(old(Snapshot()), inward)
    {
      SetSignal(SIG_STEP, false);
      Delay(1);
      if inward {
        SetSignal(SIG_DIR, true);
        if curTrack < TRACKS {
          curTrack := curTrack + 1;
        }
      } else {
        SetSignal(SIG_DIR, false);
        if curTrack > 0 {
          curTrack := curTrack - 1;
        }
      }
      Delay(1);
      ghost var setup := [Set(SIG_STEP, false), Wait(1), Set(SIG_DIR, inward), Wait(1)];
      assert log == old(log) + setup;
      ghost var ready := log;
      SetSignal(SIG_STEP, true);
      Delay(8);
      SetSignal(SIG_STEP, false);
      Delay(3000);
      assert log == ready + PulseLog();
      assert setup + PulseLog() == StepLog(inward);
    }

    method SetAndSettle(line: nat, high: bool)
      modifies this`log
      ensures log == old(log) + [Set(line, high), Wait(1)]
    {
      SetSignal(line, high);
      Delay(1);
    }

    /** floppy_home. */
    method HomeHead()
      requires Valid()
      modifies this
      ensures Valid() && Snapshot() == Home(old(Snapshot()), trk00)
    {
      hide HomeSteps, Steps, StepLog;
      SetAndSettle(SIG_DRVSB, true);
      ghost var start := log;
      NoSteps(start, false);
      var stuckCounter := STUCK_LIMIT;
      ghost var k := 0;
      while true
        invariant 0 <= stuckCounter <= STUCK_LIMIT && k == STUCK_LIMIT - stuckCounter
        invariant log == start + Steps(false, k)
        invariant curTrack == Lower(old(curTrack), k) && homed == old(homed)
        invariant HomeSteps(trk00, start, 0) == HomeSteps(trk00, start, k)
        decreases stuckCounter
      {
        HomeStepsTurn(trk00, start, k);
        if trk00(log) {
          curTrack := 0;
          homed := true;
          break;
        } else {
          Step(false);
          StepsSnoc(start, false, k);
          k := k + 1;
        }
        if stuckCounter > 0 {
          stuckCounter := stuckCounter - 1;
        } else {
          HomeStepsTurn(trk00, start, k);
          break;
        }
      }
      SetAndSettle(SIG_DRVSB, false);
    }

    /** floppy_seek. */
    method SeekTrack(track: nat)
      requires Valid()
      modifies this
      ensures Valid() && Snapshot() == Seek(old(Snapshot()), track)
    {
      if track > TRACKS - 1 || !homed {
        return;
      }
      SetAndSettle(SIG_DRVSB, true);
      hide Steps, StepLog;
      ghost var start, inward := log, curTrack < track;
      NoSteps(start, inward);
      while curTrack != track
        invariant homed
        invariant if inward then old(curTrack) <= curTrack <= track
                  else track <= curTrack <= old(curTrack)
        invariant log == start + Steps(inward, Distance(old(curTrack), curTrack))
        decreases Distance(curTrack, track)
      {
        ghost var k := Distance(old(curTrack), curTrack);
        if curTrack > track {
          Step(false);
        } else {
          Step(true);
        }
        StepsSnoc(start, inward, k);
      }
      SetAndSettle(SIG_DRVSB, false);
    }

    /** floppy_dump_track, on a stream of readings that shows a whole revolution. `reported` is the
        byte count it prints. `dropped` tells what the accumulator held each time it was cleared,
        just before the store, and `stores` where the stores went; those behind the buffer have no
        meaning and are left out. */
    method DumpTrack(track: nat, buffer: array<bv8>, readings: seq<Reading>)
        returns (r: int, reported: nat, ghost dropped: seq<bv8>, ghost stores: seq<nat>)
      requires Valid() && Finishes(readings)
      modifies this, buffer
      ensures Valid() && Snapshot() == Dump(old(Snapshot()), track, readings)
      ensures track > TRACKS - 1 ==> r == EINVAL && buffer[..] == old(buffer[..])
      ensures track <= TRACKS - 1 ==>
                && r == 0 && reported == Wrap(2 * (|Samples(readings)| / 8))
                && buffer[..] == Zeroed(old(buffer[..]), |Samples(readings)| / 8)
                && dropped == Pack(Samples(readings))
                && stores == StorePositions(|Samples(readings)|)
    {
      hide Samples, Waits, Pack, Zeroed, StorePositions, Wrap, Seek, Finishes;
      reported, dropped, stores := 0, [], [];
      if track > TRACKS - 1 {
        return EINVAL, 0, [], [];
      }
      SeekTrack(track);
      SetAndSettle(SIG_DRVSB, true);
      SetAndSettle(SIG_MOTEB, true);
      ghost var start := log;
      reported, dropped, stores := Sample(buffer, readings);
      SetAndSettle(SIG_MOTEB, false);
      SetAndSettle(SIG_DRVSB, false);
      return 0, reported, dropped, stores;
    }

    /** buffer[pos] = value, as far as it has a meaning. */
    method Store(buffer: array<bv8>, pos: nat, value: bv8)
      modifies buffer
      ensures buffer[..] ==
              if pos < buffer.Length then old(buffer[..])[pos := value] else old(buffer[..])
    {
      if pos < buffer.Length {
        buffer[pos] := value;
      }
    }

    /** The polling loop of floppy_dump_track. */
    method Sample(buffer: array<bv8>, readings: seq<Reading>)
        returns (bufPtr: nat, ghost dropped: seq<bv8>, ghost stores: seq<nat>)
      requires Finishes(readings)
      modifies this`log, buffer
      ensures log == old(log) + Waits(|Samples(readings)|)
      ensures bufPtr == Wrap(2 * (|Samples(readings)| / 8))
      ensures buffer[..] == Zeroed(old(buffer[..]), |Samples(readings)| / 8)
      ensures dropped == Pack(Samples(readings))
      ensures stores == StorePositions(|Samples(readings)|)
    {
      hide Pack, Polled, Samples, Finishes, Filled, Zeroed, Waits, Wrap, StorePositions;
      FinishedPoll(readings);
      NothingPolled();
      NothingZeroed(buffer[..]);
      FilledAtFirst();
      assert readings[..0] == [] && readings[..|readings|] == readings;
      var state, wait, dataByte: bv8, bitCounter, i := WAIT_INDEX, false, 0, 0, 0;
      bufPtr, dropped, stores := 0, [], [];
      ghost var taken: seq<bool> := [];
      ghost var k := 0;
      while state != DONE
        invariant i <= |readings| && Polled(readings[..i]) == (AsPoll(state, wait), taken)
        invariant state in {WAIT_INDEX, READ, DONE}
        invariant bitCounter < 8
        invariant Filled(taken, k, bitCounter, dataByte, bufPtr, dropped, stores)
        invariant buffer[..] == Zeroed(old(buffer[..]), k)
        invariant log == old(log) + Waits(|taken|)
        decreases |readings| - i
      {
        PolledGrows(readings, i);
        assert i < |readings|;
        PolledSnoc(readings, i);
        PolledGrows(readings, i + 1);
        var index, data := readings[i].index, readings[i].data;
        i := i + 1;
        if state == WAIT_INDEX {
          if index {
            state, wait := READ, true;
          }
        } else {
          if wait && !index {
            wait := false;
          }
          if index && !wait {
            state := DONE;
          } else {
            FilledSnoc(taken, k, bitCounter, dataByte, bufPtr, dropped, stores, data);
            dataByte := dataByte | ((if data then 1 else 0) << bitCounter);
            bitCounter := bitCounter + 1;
            taken := taken + [data];
            if bitCounter == 8 {
              bitCounter := 0;
              dropped := dropped + [dataByte];
              dataByte := 0;
              ZeroedSnoc(old(buffer[..]), k);
              stores := stores + [bufPtr];
              Store(buffer, bufPtr, dataByte);
              bufPtr := Wrap(bufPtr + 1);
              bufPtr := Wrap(bufPtr + 1);
              k := k + 1;
            }
            Delay(1);
            assert Waits(|taken|) == Waits(|taken| - 1) + [Wait(1)];
          }
        }
      }
      PolledGrows(readings, i);
      FilledAtLast(taken, k, bitCounter, dataByte, bufPtr, dropped, stores);
    }
  }
}
