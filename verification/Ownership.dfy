/** The true slot owners, what the polled statuses say about them, and which slots are
    where the layout wants them. */
module Ownership {
  import opened Types
  import opened Slots
  import opened Counting
  import opened Matching
  import opened Ranking
  import opened Layout
  import opened PlanFacts

  /** Which pod owns each owned slot. */
  type Owner = map<int, Pod>

  predicate Owns(own: Owner, p: Pod, slot: int) {
    slot in own && own[slot] == p
  }

  ghost predicate SoundRanges(served: seq<SlotRange>) {
    && (forall k :: 0 <= k < |served| ==> 0 <= served[k].start <= served[k].end < SLOTS)
    && (forall j, k, x :: 0 <= j < k < |served| && served[j].Contains(x) ==> !served[k].Contains(x))
  }

  /** The statuses report each pod's slots, in disjoint ranges, and every owner is listed. */
  ghost predicate Observes(input: Input, own: Owner) {
    && (forall p :: SoundRanges(StatusOf(input.statuses, p).slotsServed))
    && (forall p, x :: Serves(StatusOf(input.statuses, p), x) <==> Owns(own, p, x))
    && (forall x :: x in own ==> 0 <= x < SLOTS && input.Named(own[x]))
  }

  /** How many slots of a shard's range a pod owns. */
  ghost function Owned(own: Owner, n: nat, p: Pod, shard: nat): nat
    requires n > 0
  {
    Count(x => Owns(own, p, x), RangeStart(n, shard), RangeStart(n, shard + 1))
  }

  lemma LastRange(served: seq<SlotRange>, x: int)
    requires SoundRanges(served) && served != []
    ensures var front, last := served[..|served| - 1], served[|served| - 1];
            (InRanges(served, x) <==> InRanges(front, x) || last.Contains(x))
              && !(InRanges(front, x) && last.Contains(x))
  {
    var front, last := served[..|served| - 1], served[|served| - 1];
    if InRanges(front, x) {
      var k :| 0 <= k < |front| && front[k].Contains(x);
      assert served[k].Contains(x);
    }
    if InRanges(served, x) && !last.Contains(x) {
      var k :| 0 <= k < |served| && served[k].Contains(x);
      assert front[k].Contains(x);
    }
  }

  /** The overlap the planner sums up range by range counts the slots. */
  lemma {:induction false} OverlapCounts(served: seq<SlotRange>, target: SlotRange)
    requires SoundRanges(served)
    ensures OverlapOf(served, target) == Count(x => InRanges(served, x), target.start, target.end + 1)
  {
    var f := x => InRanges(served, x);
    if served == [] {
      CountSame(f, x => false, target.start, target.end + 1);
      CountNone(target.start, target.end + 1);
    } else {
      var front, last := served[..|served| - 1], served[|served| - 1];
      var g := x => InRanges(front, x);
      var h := x => last.start <= x <= last.end;
      assert SoundRanges(front);
      OverlapCounts(front, target);
      CountRange(h, last.start, last.end, target.start, target.end + 1);
      forall x ensures (f(x) <==> g(x) || h(x)) && !(g(x) && h(x)) { LastRange(served, x); }
      CountSplit(f, g, h, target.start, target.end + 1);
    }
  }

  lemma {:induction false} CountNone(lo: int, hi: int)
    ensures Count(x => false, lo, hi) == 0
    decreases hi - lo
  {
    if hi > lo { CountNone(lo, hi - 1); }
  }

  /** A pod that holds one run of the shard's range owns as many slots of it as the run is long. */
  lemma RunShare(own: Owner, n: nat, p: Pod, s: nat, lo: int, hi: int)
    requires n > 0 && RangeStart(n, s) <= lo <= hi + 1 <= RangeStart(n, s + 1)
    requires forall x :: RangeStart(n, s) <= x < RangeStart(n, s + 1) ==> (Owns(own, p, x) <==> lo <= x <= hi)
    ensures Owned(own, n, p, s) == hi - lo + 1
  {
    hide RangeStart, Count;
    var h := x => lo <= x <= hi;
    CountSame(x => Owns(own, p, x), h, RangeStart(n, s), RangeStart(n, s + 1));
    CountRange(h, lo, hi, RangeStart(n, s), RangeStart(n, s + 1));
  }

  lemma OverlapIsOwned(input: Input, own: Owner, p: Pod, shard: nat)
    requires input.Valid() && Observes(input, own)
    ensures PairOf(input.statuses, input.n, p, shard).overlap == Owned(own, input.n, p, shard)
  {
    var status, target := StatusOf(input.statuses, p), RangeOf(input.n, shard);
    OverlapCounts(status.slotsServed, target);
    CountSame(x => InRanges(status.slotsServed, x), x => Owns(own, p, x), target.start, target.end + 1) by {
      forall x ensures InRanges(status.slotsServed, x) == Owns(own, p, x) {
        assert Serves(status, x) <==> Owns(own, p, x);
      }
    }
  }

  /** A pod owns a slot exactly when its status reports one. */
  lemma OwnerServes(input: Input, own: Owner, p: Pod)
    requires Observes(input, own)
    ensures input.OwnsSlots(p) <==> exists x :: Owns(own, p, x)
    ensures IsOwner(input, p) <==> exists x :: Owns(own, p, x)
  {
    var served := StatusOf(input.statuses, p).slotsServed;
    if |served| > 0 {
      assert SoundRanges(served);
      assert served[0].Contains(served[0].start);
      assert Serves(StatusOf(input.statuses, p), served[0].start);
    }
    if x :| Owns(own, p, x) {
      assert Serves(StatusOf(input.statuses, p), x);
    }
  }

  /** The market the planner ranks is determined by who owns what. */
  ghost predicate InOwnMarket(own: Owner, n: nat, x: OwnerMatch)
    requires n > 0
  {
    x.shard < n && x.overlap > 0 && x.overlap == Owned(own, n, x.pod, x.shard)
  }

  ghost function OwnMarket(own: Owner, n: nat): (market: set<OwnerMatch>)
    requires n > 0
    ensures forall x :: x in market <==> InOwnMarket(own, n, x)
  {
    var market := set p, s | p in own.Values && 0 <= s < n
        && Owned(own, n, p, s) > 0 :: OwnerMatch(p, s, Owned(own, n, p, s));
    assert forall x :: InOwnMarket(own, n, x) ==> x in market by {
      forall x | InOwnMarket(own, n, x) ensures x in market {
        var slot := CountWitness(y => Owns(own, x.pod, y), RangeStart(n, x.shard), RangeStart(n, x.shard + 1));
        assert x.pod in own.Values;
      }
    }
    market
  }

  lemma MarketIsOwnership(input: Input, own: Owner, ch: Choices)
    requires input.Valid() && Observes(input, own) && IsNames(input, ch.names)
    ensures Market(input.statuses, Owners(input, ch), input.n) == OwnMarket(own, input.n)
  {
    forall x ensures x in Market(input.statuses, Owners(input, ch), input.n) <==> x in OwnMarket(own, input.n) {
      OverlapIsOwned(input, own, x.pod, x.shard);
      OwnersAre(input, ch);
      OwnerServes(input, own, x.pod);
      if InOwnMarket(own, input.n, x) {
        var slot := CountWitness(y => Owns(own, x.pod, y), RangeStart(input.n, x.shard),
            RangeStart(input.n, x.shard + 1));
      }
    }
  }

  /** The slot is owned by the primary its shard should have. */
  ghost predicate Correct(own: Owner, n: nat, l: ShardLayout, slot: int)
    requires n > 0
  {
    0 <= slot < SLOTS && slot in own && l.IsPrimaryOf(own[slot], ShardOfSlot(n, slot))
  }

  ghost function CorrectCount(own: Owner, n: nat, l: ShardLayout): nat
    requires n > 0
  {
    Count(x => Correct(own, n, l, x), 0, SLOTS)
  }
}
