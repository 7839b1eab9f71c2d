/** When every desired shard gets a primary from what was polled: slot owners lead their shards, and pods that
    report as masters without slots are free to lead the others. */
module Leaders {
  import opened Types
  import opened Ranking
  import opened Layout
  import opened Claims
  import opened LayoutInvariant
  import opened PlanFacts
  import opened Totality
  import opened Rebalance

  ghost function PolledOwners(input: Input): set<Pod> {
    set p | p in input.statuses && input.OwnsSlots(p)
  }

  /** A survivor that was seen to be a master and owns nothing. */
  predicate IsLoose(input: Input, p: Pod) {
    && p < input.desired && p in input.statuses && !input.OwnsSlots(p)
    && input.statuses[p].connected && input.statuses[p].role != Slave
  }

  ghost function Loose(input: Input): set<Pod> {
    set p | p in input.statuses && IsLoose(input, p)
  }

  /** An owner is parked above an unused shard only if that shard is used. */
  lemma {:induction false} ParkFills(c: map<Pod, nat>, owners: seq<Pod>, s: nat)
    requires s !in Park(c, owners).Values
    ensures forall p :: p in Park(c, owners) ==> (p in c && Park(c, owners)[p] == c[p]) || Park(c, owners)[p] < s
  {
    hide LowestUnused;
    if owners != [] {
      var front, p := owners[..|owners| - 1], owners[|owners| - 1];
      var c', c'' := Park(c, front), Park(c, owners);
      forall q | q in c' ensures c'[q] != s { assert q in c'' && c''[q] == c'[q] && c''[q] in c''.Values; }
      assert s !in c'.Values;
      ParkFills(c, front, s);
      if p !in c' {
        assert LowestUnused(c'.Values, 0) != s by { assert c''[p] in c''.Values; }
        LowestIsLow(c'.Values, s);
      }
    }
  }

  lemma LowestIsLow(used: set<nat>, s: nat)
    requires s !in used
    ensures LowestUnused(used, 0) <= s
  {
  }

  lemma {:induction false} LooseIsFree(input: Input, index: map<string, Pod>, l: ShardLayout, names: seq<Pod>, p: Pod)
    requires IsLoose(input, p) && p in names && p !in l.shardOf && Ascending(names)
    ensures p in AttachAll(input, index, l, names).free
  {
    var front, q := names[..|names| - 1], names[|names| - 1];
    var d := AttachAll(input, index, l, front);
    if q == p {
      AttachOnlyNames(input, index, l, front, p);
    } else {
      LooseIsFree(input, index, l, front, p);
      FreeGrows(input, index, d, q);
    }
  }

  lemma FreeGrows(input: Input, index: map<string, Pod>, d: Draft, q: Pod)
    ensures forall p :: p in d.free ==> p in Attach(input, index, d, q).free
  {
  }

  /** A free pod that filling has used leads a shard. */
  lemma {:induction false} FillLeads(d: Draft, k: nat, p: Pod)
    requires p in d.free && p !in FillBelow(d, k).free && p !in d.layout.shardOf && Distinct(d.free)
    ensures exists s :: 0 <= s < k && FillBelow(d, k).layout.IsPrimaryOf(p, s)
  {
    if k > 0 {
      var d1 := FillBelow(d, k - 1);
      if p in d1.free {
        assert d1.free == [d1.free[0]] + d1.free[1..];
        assert FillBelow(d, k).layout.IsPrimaryOf(p, k - 1);
      } else {
        FillLeads(d, k - 1, p);
        var s :| 0 <= s < k - 1 && d1.layout.IsPrimaryOf(p, s);
        assert FillBelow(d, k).layout.IsPrimaryOf(p, s);
      }
    }
  }

  /** No primary for a shard means that all owners and all loose survivors lead others. */
  lemma LeadersElsewhere(input: Input, ch: Choices, l: ShardLayout, shard: nat, p: Pod)
    requires input.Valid() && PlannedWith(input, ch, l)
    requires shard < input.n && shard !in Filled(input, ch).layout.primaryOf
    requires forall q: Pod :: input.OwnsSlots(q) ==> q < input.desired
    requires p in Owners(input, ch) || IsLoose(input, p)
    ensures p in Filled(input, ch).layout.shardOf && Filled(input, ch).layout.IsPrimary(p)
    ensures Filled(input, ch).layout.shardOf[p] < input.n && Filled(input, ch).layout.shardOf[p] != shard
  {
    hide PlannedWith, Attach, FillBelow, Consistent;
    FilledFacts(input, ch, l);
    OwnersAre(input, ch) by { PlannedClaims(input, ch, l); }
    if p in Owners(input, ch) {
      OwnerBelow(input, ch, l, shard, p);
    } else {
      LooseLeads(input, ch, l, shard, p);
    }
  }

  lemma LooseLeads(input: Input, ch: Choices, l: ShardLayout, shard: nat, p: Pod)
    requires input.Valid() && PlannedWith(input, ch, l)
    requires shard < input.n && shard !in Filled(input, ch).layout.primaryOf
    requires IsLoose(input, p) && p !in Owners(input, ch)
    ensures exists s :: 0 <= s < input.n && Filled(input, ch).layout.IsPrimaryOf(p, s)
  {
    hide Attach, FillBelow, WellFormed, OwnerClaims, ClaimsOnly;
    OwnedFacts(input, ch, l);
    assert input.Named(p) && p in ch.names;
    LooseIsFree(input, ch.index, ch.owned, ch.names, p);
    AttachedFacts(input, ch, l);
    FilterProperties(input.desired, Attached(input, ch).free, false);
    FilledFacts(input, ch, l);
    FillExhausts(Survivors(input, ch), input.n, shard);
    assert p in PodSet(Survivors(input, ch).free);
    FillLeads(Survivors(input, ch), input.n, p);
  }

  lemma OwnerBelow(input: Input, ch: Choices, l: ShardLayout, shard: nat, p: Pod)
    requires input.Valid() && PlannedWith(input, ch, l)
    requires shard < input.n && shard !in Filled(input, ch).layout.primaryOf
    requires forall q: Pod :: input.OwnsSlots(q) ==> q < input.desired
    requires p in Owners(input, ch)
    ensures var filled := Filled(input, ch).layout;
            p in filled.shardOf && filled.IsPrimary(p) && filled.shardOf[p] < input.n && filled.shardOf[p] != shard
  {
    hide Attach, FillBelow, Consistent, Park, StableClaims, AttachAll;
    FilledFacts(input, ch, l);
    OwnedFacts(input, ch, l);
    OwnersAre(input, ch);
    var filled, owners := Filled(input, ch).layout, OwnersIn(input, ch.names);
    assert filled.IsPrimary(p);
    assert filled.ownerOf == ch.owned.ownerOf;
    forall s | s in filled.ownerOf ensures s in filled.primaryOf { assert filled.IsPrimary(filled.ownerOf[s]); }
    assert shard !in ch.claims.Values;
    assert filled.ownerOf[ch.claims[p]] == p;
    var base :| StableClaims(input, owners, base) && ch.claims == Park(base, owners);
    StableClaimsProperties(input, owners, base);
    ParkFills(base, owners, shard);
    assert ch.claims[p] in ch.claims.Values;
  }

  /** As many owners and loose survivors as shards, and no doomed owner: every shard is led. */
  lemma EnoughLeaders(input: Input, l: ShardLayout)
    requires input.Valid() && Planned(input, l)
    requires forall p: Pod :: input.OwnsSlots(p) ==> p < input.desired
    requires |PolledOwners(input)| + |Loose(input)| >= input.n
    ensures forall s :: 0 <= s < input.n ==> s in l.primaryOf
  {
    hide PlannedWith, Filled, WellFormed;
    var ch :| PlannedWith(input, ch, l);
    FinalFacts(input, ch, l);
    assert |ch.heirs| == input.n + 1 && ch.heirs[0] == Filled(input, ch).layout by { HeirsStart(input, ch, l); }
    FilledIsFormed(input, ch, l);
    HeirsKeepPrimaries(input.desired, Owners(input, ch), ch.heirs, input.n);
    forall s | 0 <= s < input.n ensures s in Filled(input, ch).layout.primaryOf {
      if s !in Filled(input, ch).layout.primaryOf { TooManyLeaders(input, ch, l, s); }
    }
  }

  lemma HeirsStart(input: Input, ch: Choices, l: ShardLayout)
    requires input.Valid() && PlannedWith(input, ch, l)
    ensures |ch.heirs| == input.n + 1 && ch.heirs[0] == Filled(input, ch).layout
    ensures HeirTrace(input.desired, ch.heirs[0], ch.heirs)
  {
  }

  lemma FilledIsFormed(input: Input, ch: Choices, l: ShardLayout)
    requires input.Valid() && PlannedWith(input, ch, l)
    ensures WellFormed(input.desired, Owners(input, ch), Filled(input, ch).layout)
    ensures HeirTrace(input.desired, Filled(input, ch).layout, ch.heirs)
  {
    hide WellFormed, HeirTrace;
    FilledFacts(input, ch, l);
  }

  /** The pigeonhole: more pods than shards left to lead. */
  lemma TooManyLeaders(input: Input, ch: Choices, l: ShardLayout, shard: nat)
    requires input.Valid() && PlannedWith(input, ch, l)
    requires shard < input.n && shard !in Filled(input, ch).layout.primaryOf
    requires forall p: Pod :: input.OwnsSlots(p) ==> p < input.desired
    ensures |PolledOwners(input)| + |Loose(input)| < input.n
  {
    hide PlannedWith, Filled, IsLoose, Owners;
    var filled := Filled(input, ch).layout;
    var leaders := PolledOwners(input) + Loose(input);
    forall p | p in leaders
      ensures p in filled.shardOf && filled.IsPrimary(p) && filled.shardOf[p] < input.n && filled.shardOf[p] != shard
    {
      PolledOwnerIsOwner(input, ch, l, p);
      LeadersElsewhere(input, ch, l, shard, p);
    }
    LeadersFit(filled, leaders, input.n, shard);
    LooseOwnNothing(input);
  }

  lemma LooseOwnNothing(input: Input)
    ensures |PolledOwners(input) + Loose(input)| == |PolledOwners(input)| + |Loose(input)|
  {
    assert PolledOwners(input) !! Loose(input);
  }

  lemma LeadersFit(l: ShardLayout, leaders: set<Pod>, n: nat, shard: nat)
    requires shard < n
    requires forall p :: p in leaders ==> p in l.shardOf && l.IsPrimary(p) && l.shardOf[p] < n && l.shardOf[p] != shard
    ensures |leaders| < n
  {
    var c := map p | p in leaders :: l.shardOf[p];
    ValuesBound(c);
    assert |c| == |c.Keys| && c.Keys == leaders;
    assert |c.Values + {shard}| == |c.Values| + 1;
    Bounded(c.Values + {shard}, n);
  }

  lemma PolledOwnerIsOwner(input: Input, ch: Choices, l: ShardLayout, p: Pod)
    requires input.Valid() && PlannedWith(input, ch, l) && forall q: Pod :: input.OwnsSlots(q) ==> q < input.desired
    ensures p in PolledOwners(input) ==> p in Owners(input, ch)
  {
    hide PlannedWith;
    PlannedClaims(input, ch, l);
    OwnersAre(input, ch);
  }
}
