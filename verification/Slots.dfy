/** Slot arithmetic: the range each shard should serve, which slots are served,
    and the runs nobody serves. */
module Slots {
  import opened Types

  /** First slot of shard `i` among `n` shards: larger shards come first. */
  function RangeStart(n: nat, i: nat): nat
    requires n > 0
  {
    i * (SLOTS / n) + if i < SLOTS % n then i else SLOTS % n
  }

  function RangeOf(n: nat, i: nat): SlotRange
    requires n > 0
  {
    SlotRange(RangeStart(n, i), RangeStart(n, i + 1) - 1)
  }

  lemma RangeStep(n: nat, i: nat)
    requires n > 0
    ensures RangeStart(n, i + 1) == RangeStart(n, i) + SLOTS / n + if i < SLOTS % n then 1 else 0
  {
    assert (i + 1) * (SLOTS / n) == i * (SLOTS / n) + SLOTS / n;
  }

  lemma RangeEnds(n: nat)
    requires n > 0
    ensures RangeStart(n, 0) == 0 && RangeStart(n, n) == SLOTS
  {
    assert SLOTS == n * (SLOTS / n) + SLOTS % n;
  }

  lemma {:induction false} RangeMonotone(n: nat, i: nat, j: nat)
    requires n > 0 && i <= j
    ensures RangeStart(n, i) <= RangeStart(n, j)
    decreases j - i
  {
    if i < j {
      RangeStep(n, i);
      RangeMonotone(n, i + 1, j);
    }
  }

  /** The ranges of the desired shards, built with a running start. */
  method CalculateClusterSlotRanges(primaryCount: int) returns (ranges: seq<SlotRange>)
    ensures primaryCount <= 0 ==> ranges == []
    ensures primaryCount > 0 ==> |ranges| == primaryCount
    ensures primaryCount > 0 ==> forall i :: 0 <= i < primaryCount ==> ranges[i] == RangeOf(primaryCount, i)
  {
    if primaryCount <= 0 {
      return [];
    }
    var base := SLOTS / primaryCount;
    var remainder := SLOTS % primaryCount;
    ranges := [];
    var start := 0;
    RangeEnds(primaryCount);
    for i := 0 to primaryCount
      invariant |ranges| == i
      invariant start == RangeStart(primaryCount, i)
      invariant forall k :: 0 <= k < i ==> ranges[k] == RangeOf(primaryCount, k)
    {
      var size := base;
      if i < remainder {
        size := size + 1;
      }
      var end := start + size - 1;
      RangeStep(primaryCount, i);
      ranges := ranges + [SlotRange(start, end)];
      start := end + 1;
    }
  }

  /** The shard whose range holds a slot. */
  ghost function ShardOfSlot(n: nat, slot: nat): (i: nat)
    requires n > 0 && slot < SLOTS
    ensures i < n && RangeOf(n, i).Contains(slot)
  {
    RangeEnds(n);
    ShardFrom(n, slot, 0)
  }

  ghost function ShardFrom(n: nat, slot: nat, from: nat): (i: nat)
    requires n > 0 && from <= n && RangeStart(n, from) <= slot < RangeStart(n, n)
    ensures from <= i < n && RangeOf(n, i).Contains(slot)
    decreases n - from
  {
    if slot < RangeStart(n, from + 1) then from else ShardFrom(n, slot, from + 1)
  }

  /** The ranges partition the slots: a slot lies in the range of its shard and in no other. */
  lemma RangesPartition(n: nat, slot: int, i: nat)
    requires n > 0 && i < n
    ensures RangeOf(n, i).Contains(slot) <==> 0 <= slot < SLOTS && ShardOfSlot(n, slot) == i
  {
    RangeEnds(n);
    RangeMonotone(n, 0, i);
    RangeMonotone(n, i + 1, n);
    if 0 <= slot < SLOTS && RangeOf(n, i).Contains(slot) {
      var j := ShardOfSlot(n, slot);
      if j < i { RangeMonotone(n, j + 1, i); }
      if i < j { RangeMonotone(n, i + 1, j); }
    }
  }

  /** Consecutive, and larger ranges first with sizes at most one apart. */
  lemma RangesBalanced(n: nat, i: nat, j: nat)
    requires n > 0 && i <= j < n
    ensures i < j ==> RangeOf(n, i).end < RangeOf(n, j).start
    ensures i + 1 == j ==> RangeOf(n, i).end + 1 == RangeOf(n, j).start
    ensures 0 <= RangeOf(n, j).Size() <= RangeOf(n, i).Size() <= RangeOf(n, j).Size() + 1
  {
    hide RangeStart;
    if i < j { RangeMonotone(n, i + 1, j); }
    RangeSize(n, i);
    RangeSize(n, j);
  }

  lemma RangeSize(n: nat, i: nat)
    requires n > 0
    ensures RangeOf(n, i).Size() == SLOTS / n + (if i < SLOTS % n then 1 else 0) && SLOTS / n >= 0
  {
    hide RangeStart;
    RangeStep(n, i);
  }
}
