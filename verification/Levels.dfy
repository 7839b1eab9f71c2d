/** Where planning puts a pod that belongs nowhere: it leads a shard, or it joins one that is no larger for it than
    any other shard and one pod more. */
module Levels {
  import opened Types
  import opened Ranking
  import opened Layout
  import opened LayoutInvariant
  import opened PlanFacts
  import opened Totality
  import opened Leaders
  import opened Homes

  function Size(l: ShardLayout, s: nat): nat {
    |l.MembersOf(s)|
  }

  lemma {:induction false} LeastLoadedIsLeast(l: ShardLayout, k: nat, t: nat)
    requires t < k
    ensures Size(l, LeastLoaded(l, k)) <= Size(l, t)
  {
    if t < k - 1 { LeastLoadedIsLeast(l, k - 1, t); }
  }

  /** A shard that grew is at most one pod larger than any other. */
  ghost predicate Levelled(n: nat, first: ShardLayout, l: ShardLayout) {
    forall s: nat, t: nat :: s < n && t < n && Size(l, s) > Size(first, s) ==> Size(l, s) <= Size(l, t) + 1
  }

  lemma {:induction false} BalanceLevels(n: nat, l: ShardLayout, free: seq<Pod>)
    requires n > 0
    ensures Levelled(n, l, Balance(n, l, free))
    ensures forall s: nat :: Size(Balance(n, l, free), s) >= Size(l, s)
  {
    hide LeastLoaded;
    if free != [] {
      var front, p := free[..|free| - 1], free[|free| - 1];
      BalanceLevels(n, l, front);
      var l1 := Balance(n, l, front);
      var s := LeastLoaded(l1, n);
      var l2 := l1.Assign(p, s);
      forall t: nat ensures Size(l2, t) == Size(l1, t) + if t == s then 1 else 0 {}
      forall t: nat | t < n ensures Size(l1, s) <= Size(l1, t) { LeastLoadedIsLeast(l1, n, t); }
    }
  }

  /** The shard of every pod that was still free has grown. */
  lemma {:induction false} BalanceGrows(n: nat, l: ShardLayout, free: seq<Pod>, p: Pod)
    requires n > 0 && p in free && Distinct(free) && p !in l.shardOf
    ensures var l' := Balance(n, l, free);
            p in l'.shardOf && l'.shardOf[p] < n && Size(l', l'.shardOf[p]) > Size(l, l'.shardOf[p])
  {
    hide LeastLoaded;
    var front, q := free[..|free| - 1], free[|free| - 1];
    assert free == front + [q];
    BalanceLevels(n, l, front);
    if q != p {
      BalanceGrows(n, l, front, p);
    }
  }

  lemma LevelledPlan(input: Input, ch: Choices, l: ShardLayout, p: Pod)
    requires input.Valid() && PlannedWith(input, ch, l) && p in Leftover(input, ch)
    ensures p in l.shardOf && l.shardOf[p] < input.n
    ensures forall t: nat :: t < input.n ==> Size(l, l.shardOf[p]) <= Size(l, t) + 1
  {
    hide WellFormed, Balance, SortMembers, Leftover, Filled, HeirTrace, OwnerClaims, ClaimsOnly;
    hide Levelled, Size, Ascending;
    LeftoverFacts(input, ch, l);
    HeirsFacts(input, ch, l);
    assert p in PodSet(Leftover(input, ch));
    var first, free := ch.heirs[input.n], Leftover(input, ch);
    var last := Balance(input.n, first, free);
    BalanceGrows(input.n, first, free, p);
    BalanceLevels(input.n, first, free);
    BalanceOk(input.desired, Owners(input, ch), input.n, first, free);
    SortedSizes(input.desired, Owners(input, ch), last);
    forall t: nat | t < input.n ensures Size(l, l.shardOf[p]) <= Size(l, t) + 1 {
      LevelOf(input.n, first, last, last.shardOf[p], t);
    }
  }

  lemma LevelOf(n: nat, first: ShardLayout, l: ShardLayout, s: nat, t: nat)
    requires Levelled(n, first, l) && s < n && t < n && Size(l, s) > Size(first, s)
    ensures Size(l, s) <= Size(l, t) + 1
  {
  }

  lemma SortedSizes(desired: nat, owners: set<Pod>, l: ShardLayout)
    requires WellFormed(desired, owners, l)
    ensures SortMembers(l).shardOf == l.shardOf && forall s: nat :: Size(SortMembers(l), s) == Size(l, s)
  {
    hide WellFormed, Ascending;
    SortMembersOk(desired, owners, l);
  }

  /** A pod without a home is dealt out as a leader, or is left over. */
  lemma HomelessLeadsOrIsLeft(input: Input, ch: Choices, l: ShardLayout, p: Pod)
    requires input.Valid() && PlannedWith(input, ch, l) && input.Named(p)
    requires Home(input, ch.index, ch.owned.shardOf, p) == None
    ensures p in Leftover(input, ch) || (p < input.desired && exists s :: 0 <= s < input.n && l.IsPrimaryOf(p, s))
  {
    hide WellFormed, Attach, Home, FollowedHome, OwnerClaims, ClaimsOnly, HeirTrace;
    AttachedAtHome(input, ch, l);
    AttachedFacts(input, ch, l);
    var d := Attached(input, ch);
    assert p in ch.names && p in PodSet(ch.names);
    assert forall s: nat :: !d.layout.Placed(p, s);
    assert p in d.layout.shardOf ==> d.layout.Placed(p, d.layout.shardOf[p]);
    assert p in d.free;
    FilterProperties(input.desired, d.free, false);
    FilterProperties(input.desired, d.free, true);
    if p < input.desired && p !in Filled(input, ch).free {
      FilledFacts(input, ch, l);
      FillLeads(Survivors(input, ch), input.n, p);
      FilledLeadersStay(input, ch, l);
      var s :| 0 <= s < input.n && Filled(input, ch).layout.IsPrimaryOf(p, s);
      assert l.IsPrimaryOf(p, s);
    }
  }

  /** A pod that belongs nowhere leads a shard or joins one that is then at most one pod larger than any other. */
  lemma HomelessAreLevelled(input: Input, l: ShardLayout, p: Pod) returns (index: map<string, Pod>)
    requires input.Valid() && Planned(input, l) && input.Named(p)
    ensures IsNodeIndex(input.statuses, index)
    ensures Home(input, index, OwnerShards(input, l), p) == None ==>
              || (p < input.desired && exists s :: 0 <= s < input.n && l.IsPrimaryOf(p, s))
              || (p in l.shardOf && l.shardOf[p] < input.n
                  && forall t: nat :: t < input.n ==> Size(l, l.shardOf[p]) <= Size(l, t) + 1)
  {
    hide PlannedWith, Attach, Home;
    var ch :| PlannedWith(input, ch, l);
    index := ch.index;
    PlannedClaims(input, ch, l);
    OwnerShardsAreClaims(input, ch, l);
    if Home(input, index, OwnerShards(input, l), p) == None {
      HomelessLeadsOrIsLeft(input, ch, l, p);
      if p in Leftover(input, ch) { LevelledPlan(input, ch, l, p); }
    }
  }

  // ---------------------------------------------------------------- heirs

  /** An heir is taken from a shard with as many members as any that has a survivor to spare, and is taken whenever
      a shard whose owner leads nothing has no primary and some survivor can be spared. */
  lemma HeirComesFromLargest(desired: nat, owners: set<Pod>, l: ShardLayout, shard: nat, l': ShardLayout)
    returns (heir: Pod)
    requires WellFormed(desired, owners, l) && HeirStep(desired, l, shard, l')
    ensures l' == l <==>
            || shard in l.primaryOf || shard !in l.ownerOf
            || forall q: Pod :: q in l.shardOf && q < desired && !l.IsPrimary(q) ==> Size(l, l.shardOf[q]) <= 1
    ensures l' != l ==>
              && heir in l.shardOf && heir < desired && !l.IsPrimary(heir) && Size(l, l.shardOf[heir]) > 1
              && l'.shardOf == l.shardOf[heir := shard] && l'.primaryOf == l.primaryOf[shard := heir]
              && forall q: Pod :: q in l.shardOf && q < desired && !l.IsPrimary(q) ==>
                  Size(l, l.shardOf[q]) <= Size(l, l.shardOf[heir])
  {
    hide Distinct, OwnersPlaced, PrimariesSurvive;
    heir := 0;
    forall q: Pod | q in l.shardOf && q < desired && !l.IsPrimary(q) && Size(l, l.shardOf[q]) > 1
      ensures Spare(desired, l, l.shardOf[q], q)
    {
      assert l.Placed(q, l.shardOf[q]) && q in l.MembersOf(l.shardOf[q]);
    }
    if shard !in l.primaryOf && shard in l.ownerOf && HasSpare(desired, l) {
      heir :| heir in l.shardOf && IsSpareSurvivor(desired, l, heir)
        && l' == l.Move(heir, shard).WithPrimary(heir, shard);
      SpareIsSpare(desired, owners, l, heir);
      SpareIsLargest(desired, owners, l, heir);
      HeirWellFormed(desired, owners, l, heir, shard);
    } else if shard !in l.primaryOf && shard in l.ownerOf {
      assert forall q: Pod, s :: !Spare(desired, l, s, q);
    }
  }

  lemma SpareIsLargest(desired: nat, owners: set<Pod>, l: ShardLayout, p: Pod)
    requires WellFormed(desired, owners, l) && p in l.shardOf && IsSpareSurvivor(desired, l, p)
    ensures forall s, q :: Spare(desired, l, s, q) ==> Size(l, s) <= Size(l, l.shardOf[p])
  {
    var shard, k: nat :| FirstSpare(desired, l, shard, k) && l.members[shard][k] == p
        && forall s, q :: Spare(desired, l, s, q) ==> |l.members[s]| <= |l.members[shard]|;
    assert p in l.MembersOf(shard);
    assert l.Placed(p, shard);
  }
}
