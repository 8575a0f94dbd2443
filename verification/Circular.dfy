/** The masked circular buffers of the program, seen as bounded FIFO sequences.

    All three buffers (the work list, the submission entries, the completion entries) keep
    two free-running `uint32_t` indices and a power-of-two array. Here `head` and `tail` are
    the unbounded counts of removals and insertions; the program holds their values modulo
    2^32. The history of a buffer is the sequence of all values ever inserted; entries
    `head .. tail` of it are live. */
module Circular {
  import opened Uint32

  /** The array slot the program uses for the `i`-th insertion: `index & mask`. */
  function Slot(i: nat, capacity: nat): nat
    requires capacity >= 1
  {
    And(Wrap(i), capacity - 1)
  }

  /** The distance test shared by the three buffers: the insertion is refused. */
  predicate Refuses(head: nat, tail: nat, limit: nat) {
    AbsDiff(Wrap(tail), Wrap(head)) >= limit
  }

  /** A free-running index moves on the same way before and after it is wrapped. */
  lemma IndexMoves(i: nat, n: nat)
    ensures Wrap(Wrap(i) + n) == Wrap(i + n)
  {
  }

  /** Every live entry of the history is where the program will look for it. */
  ghost predicate Stored<T>(slots: seq<T>, history: seq<T>, head: nat) {
    && |slots| >= 1
    && forall i {:trigger history[i]} :: head <= i < |history| ==>
         Slot(i, |slots|) < |slots| && slots[Slot(i, |slots|)] == history[i]
  }

  lemma SlotIsModulo(i: nat, capacity: nat)
    requires IsCapacity(capacity)
    ensures capacity >= 1 && Slot(i, capacity) == i % capacity < capacity
  {
    var k: nat :| k <= 31 && capacity == Pow2(k);
    MaskIsModulo(Wrap(i), k);
    WrapKeepsSlot(i, k);
  }

  /** Two live indices never share a slot, on either side of the 2^32 wrap. */
  lemma SlotsDistinct(i: nat, j: nat, capacity: nat)
    requires IsCapacity(capacity) && i < j < i + capacity
    ensures capacity >= 1 && Slot(i, capacity) != Slot(j, capacity)
  {
    SlotIsModulo(i, capacity);
    SlotIsModulo(j, capacity);
    ModuloDistinct(i, j, capacity);
  }

  /** Inserting into a buffer that is not full overwrites no live entry. */
  lemma InsertStored<T>(slots: seq<T>, history: seq<T>, head: nat, x: T)
    requires Stored(slots, history, head) && IsCapacity(|slots|)
    requires head <= |history| < head + |slots|
    ensures Slot(|history|, |slots|) < |slots|
    ensures Stored(slots[Slot(|history|, |slots|) := x], history + [x], head)
  {
    hide Slot, IsCapacity;
    var t := |history|;
    SlotIsModulo(t, |slots|);
    var slots', history' := slots[Slot(t, |slots|) := x], history + [x];
    forall i | head <= i < |history'|
      ensures Slot(i, |slots'|) < |slots'| && slots'[Slot(i, |slots'|)] == history'[i]
    {
      if i < t {
        assert history'[i] == history[i];
        SlotsDistinct(i, t, |slots|);
      }
    }
  }

  /** The oldest live entry is read from the slot of `head`. */
  lemma RemoveStored<T>(slots: seq<T>, history: seq<T>, head: nat)
    requires Stored(slots, history, head) && head < |history|
    ensures Slot(head, |slots|) < |slots| && slots[Slot(head, |slots|)] == history[head]
    ensures Stored(slots, history, head + 1)
  {
    var oldest := history[head];
    AdvanceStored(slots, history, head, head + 1);
  }

  /** Removing several entries at once. */
  lemma AdvanceStored<T>(slots: seq<T>, history: seq<T>, head: nat, head': nat)
    requires Stored(slots, history, head) && head <= head'
    ensures Stored(slots, history, head')
  {
    hide Slot;
    forall i | head' <= i < |history|
      ensures Slot(i, |slots|) < |slots| && slots[Slot(i, |slots|)] == history[i]
    {
      var live := history[i];
    }
  }

  lemma WrappedDistance(head: nat, tail: nat)
    requires head <= tail <= head + 0x8000_0000
    ensures Wrap(head) <= Wrap(tail) ==> Wrap(tail) - Wrap(head) == tail - head
    ensures Wrap(tail) < Wrap(head) ==> Wrap(head) - Wrap(tail) == MODULUS - (tail - head)
  {
  }

  /** The distance test is exact while both indices are on the same side of the wrap, and
      refuses whatever the fill level once only the tail has wrapped. */
  lemma RefusalExact(head: nat, tail: nat, capacity: nat)
    requires IsCapacity(capacity) && head <= tail <= head + capacity
    ensures Refuses(head, tail, capacity)
       <==> tail - head == capacity || Wrap(tail) < Wrap(head)
  {
    CapacityRange(capacity);
    WrappedDistance(head, tail);
  }

  /** The buffer takes another entry: fewer than `limit` are live, and the tail has not wrapped
      past the head. */
  predicate HasSpace(head: nat, tail: nat, limit: nat) {
    tail - head < limit && Wrap(head) <= Wrap(tail)
  }

  lemma SpaceExact(head: nat, tail: nat, capacity: nat)
    requires (IsCapacity(capacity) || capacity == 0) && head <= tail <= head + capacity
    ensures HasSpace(head, tail, capacity) <==> !Refuses(head, tail, capacity)
  {
    if capacity > 0 { RefusalExact(head, tail, capacity); }
  }

  /** A buffer with a single live entry refuses the next one when the tail alone has
      wrapped: the test is conservative, not exact. */
  lemma RefusalConservative()
    ensures Refuses(0xFFFF_FFFF, 0x1_0000_0000, 4096)
  {
  }

  /** Equality of the wrapped indices, and a zero distance, both mean empty. */
  lemma EmptyExact(head: nat, tail: nat)
    requires head <= tail <= head + 0x8000_0000
    ensures Wrap(head) == Wrap(tail) <==> head == tail
    ensures AbsDiff(Wrap(tail), Wrap(head)) > 0 <==> head < tail
  {
    WrappedDistance(head, tail);
  }

  /** The value `gw_ring_wait_cqe` compares with zero: the distance as a signed `int`. */
  function ReadyCount(head: nat, tail: nat): int {
    ToInt(AbsDiff(Wrap(tail), Wrap(head)))
  }

  /** That value is the number of live entries exactly while both indices are on the same
      side of the wrap; otherwise, or with 2^31 entries, it is negative. */
  lemma ReadyCountExact(head: nat, tail: nat)
    requires head < tail <= head + 0x8000_0000
    ensures (ReadyCount(head, tail) == tail - head)
       <==> (Wrap(head) < Wrap(tail) && tail - head < 0x8000_0000)
    ensures ReadyCount(head, tail) > 0 <==> ReadyCount(head, tail) == tail - head
  {
    WrappedDistance(head, tail);
  }
}
