/** With as many slot owners as desired shards, every shard gets a surviving primary,
    however many of the owners are doomed. */
module Totality {
  import opened Types
  import opened Ranking
  import opened Layout
  import opened Claims
  import opened LayoutInvariant
  import opened PlanFacts

  /** Every placed pod is in a desired shard. */
  ghost predicate Within(n: nat, l: ShardLayout) {
    forall p :: p in l.shardOf ==> l.shardOf[p] < n
  }

  lemma {:induction false} AttachWithin(input: Input, index: map<string, Pod>, l: ShardLayout, names: seq<Pod>)
    requires Within(input.n, l)
    ensures Within(input.n, AttachAll(input, index, l, names).layout)
  {
    if names != [] {
      AttachWithin(input, index, l, names[..|names| - 1]);
    }
  }

  lemma {:induction false} FillWithin(d: Draft, k: nat, n: nat)
    requires Within(n, d.layout) && k <= n
    ensures Within(n, FillBelow(d, k).layout)
  {
    if k > 0 { FillWithin(d, k - 1, n); }
  }

  /** A shard is left without a primary only when the free survivors have run out. */
  lemma {:induction false} FillExhausts(d: Draft, k: nat, shard: nat)
    requires shard < k && shard !in FillBelow(d, k).layout.primaryOf
    ensures FillBelow(d, k).free == []
  {
    if shard < k - 1 { FillExhausts(d, k - 1, shard); }
  }

  /** The pigeonhole: fewer primaries than survivors leaves a survivor that is not one. */
  lemma SomeSurvivorIsNoPrimary(desired: nat, n: nat, l: ShardLayout, shard: nat) returns (p: Pod)
    requires Within(n, l) && n <= desired && shard < n && shard !in l.primaryOf
    requires forall q :: 0 <= q < desired ==> q in l.shardOf
    ensures p < desired && !l.IsPrimary(p)
  {
    if forall q: nat :: q < desired ==> l.IsPrimary(q) {
      var c := map q | 0 <= q < desired :: l.shardOf[q];
      assert Injective(c) by {
        forall q, r | q in c && r in c && c[q] == c[r] ensures q == r {
          assert l.IsPrimary(q) && l.IsPrimary(r);
        }
      }
      ValuesBound(c);
      assert |c| == |c.Keys|;
      PrefixBound(c.Keys, desired);
      assert shard !in c.Values by {
        forall q | q in c ensures c[q] != shard { assert l.IsPrimary(q); }
      }
      Bounded(c.Values + {shard}, n);
      assert false;
    }
    p :| p < desired && !l.IsPrimary(p);
  }

  /** When every desired shard has an owner, a survivor that leads nothing can be spared. */
  lemma SpareExists(desired: nat, owners: set<Pod>, n: nat, l: ShardLayout, shard: nat)
    requires WellFormed(desired, owners, l) && Within(n, l) && n <= desired && shard < n && shard !in l.primaryOf
    requires forall q :: 0 <= q < desired ==> q in l.shardOf
    requires forall s :: 0 <= s < n ==> s in l.ownerOf
    ensures HasSpare(desired, l)
  {
    var p := SomeSurvivorIsNoPrimary(desired, n, l, shard);
    var s := l.shardOf[p];
    var owner := l.ownerOf[s];
    assert l.Placed(p, s) && l.Placed(owner, s);
    assert p != owner;
    assert p in l.MembersOf(s) && owner in l.MembersOf(s);
    assert Spare(desired, l, s, p);
  }

  lemma HeirStepWithin(desired: nat, owners: set<Pod>, n: nat, l: ShardLayout, shard: nat, l': ShardLayout)
    requires WellFormed(desired, owners, l) && HeirStep(desired, l, shard, l') && Within(n, l) && shard < n
    ensures Within(n, l') && l.primaryOf.Keys <= l'.primaryOf.Keys
    ensures shard in l.ownerOf && HasSpare(desired, l) ==> shard in l'.primaryOf
  {
    hide HasSpare, IsSpareSurvivor, WellFormed;
    if l' != l {
      var p := HeirOf(desired, owners, l, shard, l');
      HeirWellFormed(desired, owners, l, p, shard);
    }
  }

  /** Walking the shards, each one that lacks a primary finds an heir. */
  lemma {:induction false} HeirsFound(desired: nat, owners: set<Pod>, n: nat, trace: seq<ShardLayout>, k: nat)
    requires k < |trace| && k <= n <= desired && HeirTrace(desired, trace[0], trace)
    requires WellFormed(desired, owners, trace[0]) && Within(n, trace[0])
    requires forall q :: 0 <= q < desired ==> q in trace[0].shardOf
    requires forall s :: 0 <= s < n ==> s in trace[0].ownerOf
    ensures Within(n, trace[k])
    ensures forall s :: 0 <= s < k ==> s in trace[k].primaryOf
  {
    hide WellFormed, HeirTrace, HeirStep, HasSpare;
    if k > 0 {
      HeirsFound(desired, owners, n, trace, k - 1);
      HeirTraceWellFormed(desired, owners, trace, k - 1);
      HeirTraceStep(desired, trace, k - 1);
      if k - 1 !in trace[k - 1].primaryOf {
        SpareExists(desired, owners, n, trace[k - 1], k - 1);
      }
      HeirStepWithin(desired, owners, n, trace[k - 1], k - 1, trace[k]);
    }
  }

  /** Primaries are never given up. */
  lemma {:induction false} HeirsKeepPrimaries(desired: nat, owners: set<Pod>, trace: seq<ShardLayout>, k: nat)
    requires k < |trace| && HeirTrace(desired, trace[0], trace) && WellFormed(desired, owners, trace[0])
    ensures trace[0].primaryOf.Keys <= trace[k].primaryOf.Keys
    ensures forall s :: s in trace[0].primaryOf ==> trace[k].primaryOf[s] == trace[0].primaryOf[s]
  {
    hide WellFormed, HeirTrace, HeirStep;
    if k > 0 {
      HeirsKeepPrimaries(desired, owners, trace, k - 1);
      HeirTraceWellFormed(desired, owners, trace, k - 1);
      HeirTraceStep(desired, trace, k - 1);
      if trace[k] != trace[k - 1] {
        var p := HeirOf(desired, owners, trace[k - 1], k - 1, trace[k]);
      }
    }
  }

  lemma FilledWithin(input: Input, ch: Choices, l: ShardLayout)
    requires input.Valid() && PlannedWith(input, ch, l) && |Owners(input, ch)| == input.n
    ensures Within(input.n, Filled(input, ch).layout)
    ensures forall s :: 0 <= s < input.n ==> s in Filled(input, ch).layout.ownerOf
  {
    hide WellFormed, Attach;
    ClaimsCoverShards(input, OwnersIn(input, ch.names), ch.claims);
    OwnedFacts(input, ch, l);
    AttachWithin(input, ch.index, ch.owned, ch.names);
    FillWithin(Survivors(input, ch), input.n, input.n);
    FilledFacts(input, ch, l);
  }

  lemma EveryShardIsLed(input: Input, ch: Choices, l: ShardLayout)
    requires input.Valid() && PlannedWith(input, ch, l) && |Owners(input, ch)| == input.n
    ensures forall s :: 0 <= s < input.n ==> s in ch.heirs[input.n].primaryOf
  {
    hide WellFormed, Attach;
    FilledWithin(input, ch, l);
    FilledFacts(input, ch, l);
    var filled, owners := Filled(input, ch), Owners(input, ch);
    if s :| 0 <= s < input.n && s !in filled.layout.primaryOf {
      FillExhausts(Survivors(input, ch), input.n, s);
      forall q | 0 <= q < input.desired ensures q in filled.layout.shardOf {
        SurvivorIsPlaced(input, ch, l, q);
      }
      HeirsFound(input.desired, owners, input.n, ch.heirs, input.n);
    } else {
      HeirsKeepPrimaries(input.desired, owners, ch.heirs, input.n);
    }
  }

  lemma SurvivorIsPlaced(input: Input, ch: Choices, l: ShardLayout, q: Pod)
    requires input.Valid() && PlannedWith(input, ch, l) && Filled(input, ch).free == [] && q < input.desired
    ensures q in Filled(input, ch).layout.shardOf
  {
    hide WellFormed, Attach;
    LeftoverFacts(input, ch, l);
    assert input.Named(q) && q in ch.names && q in PodSet(ch.names);
    AttachedFacts(input, ch, l);
    FilterProperties(input.desired, Attached(input, ch).free, true);
  }

  lemma TotalityWith(input: Input, ch: Choices, l: ShardLayout)
    requires input.Valid() && PlannedWith(input, ch, l) && |Owners(input, ch)| == input.n
    ensures forall p :: p in Owners(input, ch) ==> p in l.shardOf && l.shardOf[p] < input.n
    ensures forall s :: 0 <= s < input.n ==> s in l.ownerOf && s in l.primaryOf
  {
    hide WellFormed, Attach, PlannedWith;
    EveryShardIsLed(input, ch, l);
    assert OwnerClaims(input, OwnersIn(input, ch.names), ch.claims) by { PlannedClaims(input, ch, l); }
    ClaimsCoverShards(input, OwnersIn(input, ch.names), ch.claims);
    OwnersKeepClaims(input, ch, l);
    FinalFacts(input, ch, l);
  }

  lemma PlannedClaims(input: Input, ch: Choices, l: ShardLayout)
    requires input.Valid() && PlannedWith(input, ch, l)
    ensures OwnerClaims(input, OwnersIn(input, ch.names), ch.claims) && IsNames(input, ch.names)
    ensures IsNodeIndex(input.statuses, ch.index)
  {
  }

  /** The placed pods that serve slots. */
  ghost function SlotOwners(input: Input, l: ShardLayout): set<Pod> {
    set p | p in l.shardOf && input.OwnsSlots(p)
  }

  lemma SlotOwnersAre(input: Input, ch: Choices, l: ShardLayout)
    requires input.Valid() && PlannedWith(input, ch, l)
    ensures SlotOwners(input, l) == Owners(input, ch)
  {
    hide WellFormed, PlannedWith;
    PlannedClaims(input, ch, l);
    FinalFacts(input, ch, l);
    OwnersAre(input, ch);
  }

  /** Survivor totality: owners map one-to-one onto the shards, and every shard has a primary. */
  lemma SurvivorTotality(input: Input, l: ShardLayout)
    requires input.Valid() && Planned(input, l)
    requires |SlotOwners(input, l)| == input.n
    ensures forall p :: p in SlotOwners(input, l) ==> p in l.shardOf && l.shardOf[p] < input.n
    ensures forall s :: 0 <= s < input.n ==> s in l.ownerOf && s in l.primaryOf
  {
    hide WellFormed, PlannedWith, SlotOwners;
    var ch :| PlannedWith(input, ch, l);
    SlotOwnersAre(input, ch, l);
    TotalityWith(input, ch, l);
  }

  lemma OwnersKeepClaims(input: Input, ch: Choices, l: ShardLayout)
    requires input.Valid() && PlannedWith(input, ch, l)
    ensures forall p :: p in ch.claims ==> p in l.shardOf && l.shardOf[p] == ch.claims[p]
    ensures l.ownerOf.Keys == ch.claims.Values
  {
    FinalFacts(input, ch, l);
    OwnedFacts(input, ch, l);
    forall p | p in ch.claims ensures p in l.shardOf && l.shardOf[p] == ch.claims[p] {
      assert ch.owned.ownerOf[ch.claims[p]] == p;
      assert l.Placed(l.ownerOf[ch.claims[p]], ch.claims[p]);
    }
  }
}
