/** The ranking the planner claims from: every pair of an owner and a shard it serves
    part of, best overlap first. */
module Ranking {
  import opened Types
  import opened Slots
  import opened Matching

  function RangeOverlap(served: SlotRange, target: SlotRange): nat {
    var start := if served.start > target.start then served.start else target.start;
    var end := if served.end < target.end then served.end else target.end;
    if end >= start then end - start + 1 else 0
  }

  function OverlapOf(served: seq<SlotRange>, target: SlotRange): nat {
    if served == [] then 0
    else OverlapOf(served[..|served| - 1], target) + RangeOverlap(served[|served| - 1], target)
  }

  function PairOf(statuses: Statuses, n: nat, pod: Pod, shard: nat): OwnerMatch
    requires n > 0
  {
    OwnerMatch(pod, shard, OverlapOf(StatusOf(statuses, pod).slotsServed, RangeOf(n, shard)))
  }

  /** All overlapping pairs of these owners and `n` shards. */
  ghost predicate InMarket(statuses: Statuses, owners: set<Pod>, n: nat, x: OwnerMatch)
    requires n > 0
  {
    x.pod in owners && x.shard < n && x.overlap > 0 && x == PairOf(statuses, n, x.pod, x.shard)
  }

  ghost function Market(statuses: Statuses, owners: set<Pod>, n: nat): (market: set<OwnerMatch>)
    requires n > 0
    ensures forall x :: x in market <==> InMarket(statuses, owners, n, x)
  {
    set p, s | p in owners && 0 <= s < n && PairOf(statuses, n, p, s).overlap > 0 :: PairOf(statuses, n, p, s)
  }

  ghost function PodSet(pods: seq<Pod>): set<Pod> {
    set p | p in pods
  }

  ghost predicate Ascending(pods: seq<Pod>) {
    forall i, j :: 0 <= i < j < |pods| ==> pods[i] < pods[j]
  }

  /** Pairs that tie on overlap and shard stand in ordinal order. */
  ghost predicate TiesInOrder(matches: seq<OwnerMatch>) {
    forall i, j :: 0 <= i < j < |matches| && matches[i].overlap == matches[j].overlap
      && matches[i].shard == matches[j].shard
      ==> matches[i].pod < matches[j].pod
  }

  /** Insert behind every element that does not rank strictly after the newcomer. */
  method InsertStable(sorted: seq<OwnerMatch>, x: OwnerMatch) returns (r: seq<OwnerMatch>)
    requires Ranked(sorted)
    requires forall y :: y in sorted && y.overlap == x.overlap && y.shard == x.shard ==> y.pod < x.pod
    ensures Ranked(r)
    ensures Elements(r) == Elements(sorted) + {x}
  {
    var k := |sorted|;
    while k > 0 && (x.overlap > sorted[k - 1].overlap
      || (x.overlap == sorted[k - 1].overlap && x.shard < sorted[k - 1].shard))
      invariant 0 <= k <= |sorted|
      invariant forall j :: k <= j < |sorted| ==> Ahead(x, sorted[j])
    {
      k := k - 1;
    }
    r := sorted[..k] + [x] + sorted[k..];
    assert k > 0 ==> sorted[k - 1] in sorted && Ahead(sorted[k - 1], x);
    forall j | 0 <= j < k ensures Ahead(sorted[j], x) {
      if j < k - 1 { assert Ahead(sorted[j], sorted[k - 1]); }
    }
    forall i, j | 0 <= i < j < |r| ensures Ahead(r[i], r[j]) {
      assert r[i] == if i < k then sorted[i] else if i == k then x else sorted[i - 1];
      assert r[j] == if j < k then sorted[j] else if j == k then x else sorted[j - 1];
    }
    assert forall y :: y in r <==> y in sorted[..k] || y == x || y in sorted[k..];
    assert sorted == sorted[..k] + sorted[k..];
  }

  /** A stable sort by overlap, then shard. */
  method SortMatches(matches: seq<OwnerMatch>) returns (ranked: seq<OwnerMatch>)
    requires TiesInOrder(matches)
    ensures Ranked(ranked)
    ensures Elements(ranked) == Elements(matches)
  {
    ranked := [];
    for i := 0 to |matches|
      invariant Ranked(ranked)
      invariant Elements(ranked) == Elements(matches[..i])
    {
      forall y | y in ranked && y.overlap == matches[i].overlap && y.shard == matches[i].shard
        ensures y.pod < matches[i].pod
      {
        assert y in Elements(ranked);
        var j :| 0 <= j < i && matches[j] == y;
      }
      assert Elements(matches[..i + 1]) == Elements(matches[..i]) + {matches[i]};
      ranked := InsertStable(ranked, matches[i]);
    }
    assert matches[..|matches|] == matches;
  }

  method OverlapWith(served: seq<SlotRange>, target: SlotRange) returns (overlap: nat)
    ensures overlap == OverlapOf(served, target)
  {
    overlap := 0;
    for k := 0 to |served|
      invariant overlap == OverlapOf(served[..k], target)
    {
      assert served[..k + 1][..k] == served[..k];
      var start := if served[k].start > target.start then served[k].start else target.start;
      var end := if served[k].end < target.end then served[k].end else target.end;
      if end >= start {
        overlap := overlap + (end - start + 1);
      }
    }
    assert served[..|served|] == served;
  }

  /** The pairs found after all shards for the first `i` owners and `s` shards for the next. */
  ghost predicate Scanned(statuses: Statuses, n: nat, owners: seq<Pod>, i: nat, s: nat, x: OwnerMatch)
    requires n > 0 && i <= |owners|
  {
    && x.overlap > 0
    && ((x.pod in owners[..i] && x.shard < n) || (i < |owners| && x.pod == owners[i] && x.shard < s))
    && x == PairOf(statuses, n, x.pod, x.shard)
  }

  method RankOwnersByOverlap(owners: seq<Pod>, statuses: Statuses,
                             ranges: seq<SlotRange>) returns (ranked: seq<OwnerMatch>)
    requires Ascending(owners) && |ranges| > 0
    requires forall s :: 0 <= s < |ranges| ==> ranges[s] == RangeOf(|ranges|, s)
    ensures Ranked(ranked)
    ensures Elements(ranked) == Market(statuses, PodSet(owners), |ranges|)
  {
    var n := |ranges|;
    var matches := [];
    for i := 0 to |owners|
      invariant TiesInOrder(matches)
      invariant forall x :: x in matches <==> Scanned(statuses, n, owners, i, 0, x)
    {
      var pod := owners[i];
      for s := 0 to n
        invariant TiesInOrder(matches)
        invariant forall x :: x in matches <==> Scanned(statuses, n, owners, i, s, x)
      {
        var overlap := OverlapWith(StatusOf(statuses, pod).slotsServed, ranges[s]);
        if overlap > 0 {
          var x := OwnerMatch(pod, s, overlap);
          forall y | y in matches && y.shard == s ensures y.pod < pod {
            assert Scanned(statuses, n, owners, i, s, y);
          }
          matches := matches + [x];
        }
      }
      assert owners[..i + 1] == owners[..i] + [owners[i]];
    }
    assert owners[..|owners|] == owners;
    ranked := SortMatches(matches);
    forall x ensures x in Elements(ranked) <==> InMarket(statuses, PodSet(owners), n, x) {
      assert x in Elements(matches) <==> Scanned(statuses, n, owners, |owners|, 0, x);
    }
  }
}
