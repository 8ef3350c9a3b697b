/** Which readings the track dump samples, and what becomes of the samples. */
module FloppySampler {
  /** What one turn of the polling loop reads; the data line is ignored until the index came. */
  datatype Reading = Reading(index: bool, data: bool)

  datatype Poll = WaitIndex | Read(wait: bool) | Done

  /** The loop's state variable and the samples taken, after one more turn. */
  function Turn(p: (Poll, seq<bool>), r: Reading): (Poll, seq<bool>) {
    match p.0
    case WaitIndex => (if r.index then Read(true) else WaitIndex, p.1)
    case Read(wait) =>
      var stillWait := wait && r.index;
      if r.index && !stillWait then (Done, p.1) else (Read(stillWait), p.1 + [r.data])
    case Done => p
  }

  function Polled(rs: seq<Reading>): (Poll, seq<bool>) {
    if rs == [] then (WaitIndex, []) else Turn(Polled(rs[..|rs| - 1]), rs[|rs| - 1])
  }

  // ---- The revolution, said with positions ----

  /** The first turn from `from` on at which the index line is at `level`, or |rs|. */
  function First(rs: seq<Reading>, from: nat, level: bool): (i: nat)
    ensures i <= |rs|
    ensures from >= |rs| ==> i == |rs|
    ensures from <= |rs| ==> from <= i
    ensures i < |rs| ==> from <= i && rs[i].index == level
    ensures forall k :: from <= k < i ==> rs[k].index != level
    decreases |rs| - from
  {
    if from >= |rs| then |rs| else if rs[from].index == level then from else First(rs, from + 1, level)
  }

  function Start(rs: seq<Reading>): nat { First(rs, 0, true) }

  /** The first deassertion of the index after the start. */
  function Low(rs: seq<Reading>): nat { First(rs, Start(rs) + 1, false) }

  /** The first assertion of the index after that. */
  function End(rs: seq<Reading>): nat { First(rs, Low(rs) + 1, true) }

  /** The index is seen high, then low, then high again. */
  predicate Finishes(rs: seq<Reading>) { End(rs) < |rs| }

  function DataOf(rs: seq<Reading>): (r: seq<bool>)
    ensures |r| == |rs|
  {
    seq(|rs|, i requires 0 <= i < |rs| => rs[i].data)
  }

  /** The turns after the start, up to but not including the end. */
  function Samples(rs: seq<Reading>): seq<bool> {
    if Start(rs) < |rs| then DataOf(rs[Start(rs) + 1..End(rs)]) else []
  }

  lemma {:induction false} FirstSnoc(rs: seq<Reading>, r: Reading, from: nat, level: bool)
    ensures First(rs + [r], from, level) ==
            if First(rs, from, level) < |rs| then First(rs, from, level)
            else if from <= |rs| && r.index == level then |rs| else |rs| + 1
    decreases |rs| - from
  {
    if from < |rs| {
      FirstSnoc(rs, r, from + 1, level);
    }
  }

  lemma PositionsSnoc(p: seq<Reading>, r: Reading)
    ensures var rs, n := p + [r], |p|;
            && Start(rs) == (if Start(p) < n then Start(p) else if r.index then n else n + 1)
            && (Start(p) < n ==>
                  Low(rs) == if Low(p) < n then Low(p) else if r.index then n + 1 else n)
            && (Start(p) == n ==> Low(rs) == n + 1 && End(rs) == n + 1)
            && (Start(p) < n && Low(p) < n ==>
                  End(rs) == if End(p) < n then End(p) else if r.index then n else n + 1)
            && (Low(p) == n ==> End(rs) == n + 1)
  {
    FirstSnoc(p, r, 0, true);
    FirstSnoc(p, r, Start(p) + 1, false);
    FirstSnoc(p, r, Low(p) + 1, true);
  }

  lemma PositionsBound(rs: seq<Reading>)
    ensures Start(rs) <= |rs| && Low(rs) <= |rs| && End(rs) <= |rs|
    ensures Start(rs) < |rs| ==> Start(rs) + 1 <= Low(rs) <= End(rs)
    ensures Start(rs) == |rs| ==> Low(rs) == |rs|
    ensures Low(rs) == |rs| ==> End(rs) == |rs|
  {
  }

  lemma SliceSnoc(p: seq<Reading>, r: Reading, from: nat)
    requires from <= |p|
    ensures (p + [r])[from..|p| + 1] == p[from..|p|] + [r]
  {
  }

  lemma DataSnoc(rs: seq<Reading>, r: Reading)
    ensures DataOf(rs + [r]) == DataOf(rs) + [r.data]
  {
  }

  lemma SamplesSnoc(p: seq<Reading>, r: Reading)
    ensures Samples(p + [r]) ==
            if Start(p) < |p| && End(p) == |p| && !(Low(p) < |p| && r.index)
            then Samples(p) + [r.data] else Samples(p)
  {
    hide First, Start, Low, End, DataOf;
    PositionsSnoc(p, r);
    PositionsBound(p);
    var rs, n, a := p + [r], |p|, Start(p);
    if a < n {
      if End(p) < n {
        assert rs[a + 1..End(p)] == p[a + 1..End(p)];
      } else if Low(p) < n && r.index {
        assert rs[a + 1..n] == p[a + 1..n];
      } else {
        SliceSnoc(p, r, a + 1);
        DataSnoc(p[a + 1..n], r);
      }
    }
  }

  /** The state machine samples exactly one revolution, and ends exactly on streams that show a
      whole one: for every stream of readings, finished or not. */
  lemma {:induction false} PollsOneRevolution(rs: seq<Reading>)
    ensures Polled(rs) ==
            (if Start(rs) == |rs| then WaitIndex
             else if Finishes(rs) then Done
             else Read(Low(rs) == |rs|), Samples(rs))
  {
    hide First, Samples;
    if rs == [] {
      assert Samples([]) == [] by { NothingSampled(); }
    } else {
      var n := |rs| - 1;
      PollsOneRevolution(rs[..n]);
      assert rs[..n] + [rs[n]] == rs;
      PositionsSnoc(rs[..n], rs[n]);
      SamplesSnoc(rs[..n], rs[n]);
    }
  }

  lemma FinishedPoll(rs: seq<Reading>)
    requires Finishes(rs)
    ensures Polled(rs) == (Done, Samples(rs))
  {
    PollsOneRevolution(rs);
  }

  lemma NothingSampled()
    ensures Samples([]) == []
  {
  }

  lemma NothingPolled()
    ensures Polled([]) == (WaitIndex, [])
  {
  }

  lemma PolledSnoc(rs: seq<Reading>, i: nat)
    requires i < |rs|
    ensures Polled(rs[..i + 1]) == Turn(Polled(rs[..i]), rs[i])
  {
    assert rs[..i + 1][..i] == rs[..i];
  }

  /** A prefix of the stream has taken no more samples, and all of them once it is done. */
  lemma {:induction false} PolledGrows(rs: seq<Reading>, i: nat)
    requires i <= |rs|
    ensures Polled(rs[..i]).1 <= Polled(rs).1
    ensures Polled(rs[..i]).0.Done? ==> Polled(rs[..i]) == Polled(rs)
    decreases |rs| - i
  {
    if i < |rs| {
      PolledSnoc(rs, i);
      PolledGrows(rs, i + 1);
    } else {
      assert rs[..i] == rs;
    }
  }

  // ---- Bytes ----

  /** 1 << k for the bit positions of a byte. */
  function Weight(k: nat): bv8 {
    match k
    case 0 => 1 case 1 => 2 case 2 => 4 case 3 => 8
    case 4 => 16 case 5 => 32 case 6 => 64 case 7 => 128
    case _ => 0
  }

  lemma ShiftIsWeight(k: nat)
    requires k < 8
    ensures (1 as bv8) << k == Weight(k) && (0 as bv8) << k == 0
  {
    match k
    case 0 => case 1 => case 2 => case 3 => case 4 => case 5 => case 6 => case 7 =>
  }

  /** data_byte after the samples `bits`: the first is the least significant bit. */
  function ByteOf(bits: seq<bool>): bv8 {
    if bits == [] then 0
    else
      var k := |bits| - 1;
      ByteOf(bits[..k]) | if bits[k] then Weight(k) else 0
  }

  /** One more sample in the accumulator, which is empty again after every eighth. */
  lemma ByteSnoc(taken: seq<bool>, k: nat, bit: bool)
    requires 8 * k <= |taken| < 8 * k + 8
    ensures ByteOf((taken + [bit])[8 * k..]) ==
            ByteOf(taken[8 * k..]) | ((if bit then 1 else 0) << (|taken| - 8 * k))
    ensures |taken| == 8 * k + 7 ==> ByteOf((taken + [bit])[8 * (k + 1)..]) == 0
  {
    var bits := (taken + [bit])[8 * k..];
    assert bits[..|bits| - 1] == taken[8 * k..];
    ShiftIsWeight(|taken| - 8 * k);
  }

  lemma WeightsDiffer(j: nat, k: nat)
    requires j < 8 && k < 8
    ensures (Weight(j) & Weight(k) != 0) == (j == k)
  {
    match j case 0 => case 1 => case 2 => case 3 => case 4 => case 5 => case 6 => case 7 =>
  }

  lemma OrAnd(x: bv8, y: bv8, w: bv8)
    ensures ((x | y) & w != 0) == (x & w != 0 || y & w != 0)
  {
    assert (x | y) & w == (x & w) | (y & w);
  }

  lemma {:induction false} BitOfByte(bits: seq<bool>, k: nat)
    requires |bits| <= 8 && k < 8
    ensures (ByteOf(bits) & Weight(k) != 0) == (k < |bits| && bits[k])
  {
    if bits != [] {
      var j := |bits| - 1;
      BitOfByte(bits[..j], k);
      WeightsDiffer(j, k);
      OrAnd(ByteOf(bits[..j]), if bits[j] then Weight(j) else 0, Weight(k));
    }
  }

  /** The bytes the accumulator goes through, complete groups of eight only. */
  function Pack(samples: seq<bool>): (r: seq<bv8>)
    ensures |r| == |samples| / 8
  {
    seq(|samples| / 8, i requires 0 <= i < |samples| / 8 => ByteOf(samples[8 * i..8 * i + 8]))
  }

  lemma PackSnoc(taken: seq<bool>, k: nat, bit: bool)
    requires 8 * k <= |taken| < 8 * k + 8
    ensures Pack(taken + [bit]) ==
            if |taken| == 8 * k + 7 then Pack(taken) + [ByteOf((taken + [bit])[8 * k..])]
            else Pack(taken)
  {
    var more := taken + [bit];
    assert forall i :: 0 <= i < k ==> more[8 * i..8 * i + 8] == taken[8 * i..8 * i + 8];
    if |taken| == 8 * k + 7 {
      assert more[8 * k..8 * k + 8] == more[8 * k..];
    }
  }

  function Unpack(bytes: seq<bv8>): seq<bool> {
    seq(8 * |bytes|, k requires 0 <= k < 8 * |bytes| => bytes[k / 8] & Weight(k % 8) != 0)
  }

  /** Had the accumulator been stored before it was cleared, and once per index, the buffer would
      hold every complete group of samples, least significant bit first. */
  lemma PackRoundTrip(samples: seq<bool>)
    ensures Unpack(Pack(samples)) == samples[..8 * (|samples| / 8)]
  {
    var n := |samples| / 8;
    forall k | 0 <= k < 8 * n
      ensures Unpack(Pack(samples))[k] == samples[k]
    {
      BitOfByte(samples[8 * (k / 8)..8 * (k / 8) + 8], k % 8);
    }
    assert |Unpack(Pack(samples))| == 8 * n;
  }

  /** Bit b of byte k is sample 8 * k + b. */
  lemma PackedBit(samples: seq<bool>, k: nat, b: nat)
    requires k < |samples| / 8 && b < 8
    ensures Pack(samples)[k] & ((1 as bv8) << b) != 0 <==> samples[8 * k + b]
  {
    hide ByteOf, Weight;
    ShiftIsWeight(b);
    BitOfByte(samples[8 * k..8 * k + 8], b);
  }

  // ---- The buffer as the code fills it ----

  const WRAP: nat := 0x1_0000_0000

  /** buf_ptr is an unsigned int. */
  function Wrap(x: nat): (r: nat) { x % WRAP }

  lemma WrapTwice(k: nat)
    ensures Wrap(Wrap(Wrap(2 * k) + 1) + 1) == Wrap(2 * (k + 1)) && Wrap(2 * k) % 2 == 0
    ensures Wrap(2 * k) / 2 <= k && (Wrap(2 * k) / 2 == k || k >= WRAP / 2 > Wrap(2 * k) / 2)
  {
  }

  /** Where the stores for n samples go. */
  function StorePositions(n: nat): (r: seq<nat>)
    ensures |r| == n / 8
  {
    seq(n / 8, j requires 0 <= j => Wrap(2 * j))
  }

  /** They stay inside a buffer of `len` bytes. */
  predicate StoresFit(n: nat, len: nat) {
    forall j :: 0 <= j < n / 8 ==> StorePositions(n)[j] < len
  }

  /** After `bytes` stores the even cells below 2 * bytes are zero and nothing else changed; the
      store index never goes beyond 32 bits. */
  function Zeroed(buf: seq<bv8>, bytes: nat): (r: seq<bv8>)
    ensures |r| == |buf|
  {
    seq(|buf|, i requires 0 <= i < |buf| =>
      if i % 2 == 0 && i / 2 < bytes && i < WRAP then 0 else buf[i])
  }

  lemma ZeroedSnoc(buf: seq<bv8>, k: nat)
    ensures Zeroed(buf, k + 1) ==
            if Wrap(2 * k) < |buf| then Zeroed(buf, k)[Wrap(2 * k) := 0] else Zeroed(buf, k)
  {
    hide Wrap;
    WrapTwice(k);
    WrapSmall(k);
    var p, z, r := Wrap(2 * k), Zeroed(buf, k), Zeroed(buf, k + 1);
    forall i | 0 <= i < |buf|
      ensures r[i] == if i == p then 0 else z[i]
    {
      if i % 2 == 0 && i / 2 == k && i < WRAP {
        assert i == 2 * k == p;
      }
    }
  }

  lemma WrapSmall(k: nat)
    ensures Wrap(2 * k) < WRAP && (2 * k < WRAP ==> Wrap(2 * k) == 2 * k)
  {
  }

  /** These are just the cells the stores go to. */
  lemma ZeroedAtStores(buf: seq<bv8>, n: nat)
    ensures forall i :: 0 <= i < |buf| ==>
              Zeroed(buf, n / 8)[i] == if i in StorePositions(n) then 0 else buf[i]
  {
    hide Wrap;
    forall i | 0 <= i < |buf|
      ensures i in StorePositions(n) <==> i % 2 == 0 && i / 2 < n / 8 && i < WRAP
    {
      if i in StorePositions(n) {
        var j :| 0 <= j < n / 8 && StorePositions(n)[j] == i;
        WrapTwice(j);
        WrapSmall(j);
      }
      if i % 2 == 0 && i / 2 < n / 8 && i < WRAP {
        WrapSmall(i / 2);
        assert StorePositions(n)[i / 2] == i;
      }
    }
  }

  lemma NothingZeroed(buf: seq<bv8>)
    ensures Zeroed(buf, 0) == buf && Pack([]) == [] && ByteOf([]) == 0
  {
  }

  /** The dump's local variables once the samples `taken` have been taken and k bytes stored. */
  ghost predicate Filled(taken: seq<bool>, k: nat, bitCounter: nat, dataByte: bv8, bufPtr: nat,
                         dropped: seq<bv8>, stores: seq<nat>) {
    && |taken| == 8 * k + bitCounter && bitCounter < 8
    && dataByte == ByteOf(taken[8 * k..]) && dropped == Pack(taken)
    && bufPtr == Wrap(2 * k) && stores == StorePositions(8 * k)
  }

  lemma FilledAtFirst()
    ensures Filled([], 0, 0, 0, 0, [], [])
  {
  }

  lemma FilledAtLast(taken: seq<bool>, k: nat, bitCounter: nat, dataByte: bv8, bufPtr: nat,
                     dropped: seq<bv8>, stores: seq<nat>)
    requires Filled(taken, k, bitCounter, dataByte, bufPtr, dropped, stores)
    ensures k == |taken| / 8 && bufPtr == Wrap(2 * (|taken| / 8))
    ensures dropped == Pack(taken) && stores == StorePositions(|taken|)
  {
  }

  lemma StoresSnoc(k: nat)
    ensures StorePositions(8 * (k + 1)) == StorePositions(8 * k) + [Wrap(2 * k)]
  {
  }

  /** One more sample. */
  lemma FilledSnoc(taken: seq<bool>, k: nat, bitCounter: nat, dataByte: bv8, bufPtr: nat,
                   dropped: seq<bv8>, stores: seq<nat>, bit: bool)
    requires Filled(taken, k, bitCounter, dataByte, bufPtr, dropped, stores)
    ensures var byte := dataByte | ((if bit then 1 else 0) << bitCounter);
            && bufPtr == Wrap(2 * k)
            && if bitCounter + 1 == 8 then
                 Filled(taken + [bit], k + 1, 0, 0, Wrap(Wrap(bufPtr + 1) + 1),
                        dropped + [byte], stores + [bufPtr])
               else
                 Filled(taken + [bit], k, bitCounter + 1, byte, bufPtr, dropped, stores)
  {
    hide Pack, ByteOf, Weight, Wrap, StorePositions;
    ByteSnoc(taken, k, bit);
    PackSnoc(taken, k, bit);
    WrapTwice(k);
    StoresSnoc(k);
  }

  const DUMP_SIZE: nat := 32000

  /** A revolution fits the driver's own buffer exactly if it has fewer than 128008 samples; the
      first store outside is then that of byte 16000, right behind the buffer. */
  lemma DumpFits(n: nat)
    ensures StoresFit(n, DUMP_SIZE) <==> n < 128008
    ensures n >= 128008 ==>
              && StorePositions(n)[16000] == DUMP_SIZE
              && forall j :: 0 <= j < 16000 ==> StorePositions(n)[j] < DUMP_SIZE
  {
    if n >= 128008 {
      assert StorePositions(n)[16000] == DUMP_SIZE;
    }
  }

  lemma {:induction false} ZeroByte(bits: seq<bool>)
    requires |bits| <= 8
    ensures ByteOf(bits) == 0 <==> forall k :: 0 <= k < |bits| ==> !bits[k]
  {
    if bits != [] {
      var j := |bits| - 1;
      ZeroByte(bits[..j]);
      WeightsDiffer(j, j);
      OrIsZero(ByteOf(bits[..j]), if bits[j] then Weight(j) else 0);
      assert forall k :: 0 <= k < j ==> bits[..j][k] == bits[k];
    }
  }

  lemma OrIsZero(x: bv8, y: bv8)
    ensures x | y == 0 <==> x == 0 && y == 0
  {
  }

  /** So the dump of a zeroed buffer holds what was sampled exactly if every complete group of
      samples is all low. */
  lemma DumpHoldsSamplesIff(samples: seq<bool>, buf: seq<bv8>)
    requires |samples| / 8 <= |buf| && forall i :: 0 <= i < |buf| ==> buf[i] == 0
    ensures Zeroed(buf, |samples| / 8)[..|samples| / 8] == Pack(samples)
            <==> forall k :: 0 <= k < 8 * (|samples| / 8) ==> !samples[k]
  {
    var n := |samples| / 8;
    var z, p := Zeroed(buf, n)[..n], Pack(samples);
    forall i | 0 <= i < n
      ensures p[i] == 0 <==> forall k :: 8 * i <= k < 8 * i + 8 ==> !samples[k]
    {
      var bits := samples[8 * i..8 * i + 8];
      ZeroByte(bits);
      assert forall k :: 8 * i <= k < 8 * i + 8 ==> samples[k] == bits[k - 8 * i];
    }
    if forall k :: 0 <= k < 8 * n ==> !samples[k] {
      assert z == p;
    }
    if z == p {
      forall k | 0 <= k < 8 * n
        ensures !samples[k]
      {
        assert p[k / 8] == z[k / 8] == 0;
      }
    }
  }
}
