/** Where a channel's buffers, status words and length words lie. */
module DmaLayout {
  const BUFFER_SIZE: nat := 128 * 1024
  const BUFFER_COUNT: nat := 32
  const ALIGNMENT: nat := 1024
  const WORD_SIZE: nat := 4
  const ADDRESSES: nat := 0x1_0000_0000

  /** sizeof(struct channel_buffer): the buffer, the status and the length, padded to the
      alignment (see EntryIsPadded). */
  const ENTRY_SIZE: nat := 132096

  lemma EntryIsPadded()
    ensures ENTRY_SIZE % ALIGNMENT == 0
    ensures BUFFER_SIZE + 2 * WORD_SIZE <= ENTRY_SIZE < BUFFER_SIZE + 2 * WORD_SIZE + ALIGNMENT
  {
  }

  /** dma_addr_t has 32 bits on this board. */
  function DmaHandle(base: nat, bd: nat): nat { (base + ENTRY_SIZE * bd) % ADDRESSES }

  /** The allocator returned memory that exists. */
  predicate Allocated(base: nat) { base + ENTRY_SIZE * BUFFER_COUNT <= ADDRESSES }

  function StatusAt(base: nat, bd: nat): nat { base + ENTRY_SIZE * bd + BUFFER_SIZE }

  function LengthAt(base: nat, bd: nat): nat { StatusAt(base, bd) + WORD_SIZE }

  predicate Apart(a: int, la: nat, b: int, lb: nat) { a + la <= b || b + lb <= a }

  lemma Scale(i: nat, j: nat)
    requires i < j
    ensures ENTRY_SIZE * i + ENTRY_SIZE <= ENTRY_SIZE * j
  {
    assert ENTRY_SIZE * j == ENTRY_SIZE * i + ENTRY_SIZE * (j - i);
  }

  /** Descriptor bd transfers to and from buffer bd of the allocation: the one right before its own
      status and length words. */
  lemma HandleIsExact(base: nat, bd: nat)
    requires Allocated(base) && bd < BUFFER_COUNT
    ensures DmaHandle(base, bd) == base + 132096 * bd
    ensures DmaHandle(base, bd) + 131072 == StatusAt(base, bd) == LengthAt(base, bd) - 4
    ensures DmaHandle(base, bd) + ENTRY_SIZE <= base + ENTRY_SIZE * BUFFER_COUNT
  {
    Scale(bd, BUFFER_COUNT);
  }

  /** Transfers of different descriptors never overlap. */
  lemma TransfersApart(base: nat, i: nat, li: nat, j: nat, lj: nat)
    requires Allocated(base) && i < BUFFER_COUNT && j < BUFFER_COUNT && i != j
    requires li <= BUFFER_SIZE && lj <= BUFFER_SIZE
    ensures Apart(DmaHandle(base, i), li, DmaHandle(base, j), lj)
  {
    HandleIsExact(base, i);
    HandleIsExact(base, j);
    if i < j {
      Scale(i, j);
    } else {
      Scale(j, i);
    }
  }

  /** A transfer stays inside the allocation and off every descriptor's status and length word. */
  predicate Confined(base: nat, bd: nat, length: nat) {
    && base <= DmaHandle(base, bd)
    && DmaHandle(base, bd) + length <= base + ENTRY_SIZE * BUFFER_COUNT
    && forall k :: 0 <= k < BUFFER_COUNT ==>
         && Apart(DmaHandle(base, bd), length, StatusAt(base, k), WORD_SIZE)
         && Apart(DmaHandle(base, bd), length, LengthAt(base, k), WORD_SIZE)
  }

  /** It does so exactly if its length, which user space writes and no one checks, is at most
      the size of a buffer. */
  lemma ConfinedIff(base: nat, bd: nat, length: nat)
    requires Allocated(base) && bd < BUFFER_COUNT
    ensures Confined(base, bd, length) <==> length <= BUFFER_SIZE
  {
    HandleIsExact(base, bd);
    if length <= BUFFER_SIZE {
      forall k | 0 <= k < BUFFER_COUNT
        ensures Apart(DmaHandle(base, bd), length, StatusAt(base, k), WORD_SIZE)
                && Apart(DmaHandle(base, bd), length, LengthAt(base, k), WORD_SIZE)
      {
        if k < bd {
          Scale(k, bd);
        } else if bd < k {
          Scale(bd, k);
        }
      }
    } else {
      assert !Apart(DmaHandle(base, bd), length, StatusAt(base, bd), WORD_SIZE);
    }
  }
}
