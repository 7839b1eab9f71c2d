/** The well-formedness theorem and what follows from it at once. */
module PlanFacts {
  import opened Types
  import opened Ranking
  import opened Layout
  import opened Claims
  import opened LayoutInvariant

  /** The named pods that serve slots. */
  ghost predicate IsOwner(input: Input, p: Pod) {
    input.Named(p) && input.OwnsSlots(p)
  }

  ghost function Owners(input: Input, ch: Choices): set<Pod> {
    PodSet(OwnersIn(input, ch.names))
  }

  lemma OwnersAre(input: Input, ch: Choices)
    requires IsNames(input, ch.names)
    ensures forall p :: p in Owners(input, ch) <==> IsOwner(input, p)
  {
    OwnersInProperties(input, ch.names);
  }

  lemma OwnedFacts(input: Input, ch: Choices, l: ShardLayout)
    requires input.Valid() && PlannedWith(input, ch, l)
    ensures WellFormed(input.desired, Owners(input, ch), ch.owned) && ch.owned.shardOf.Keys == Owners(input, ch)
    ensures ch.claims.Keys == Owners(input, ch) && ch.owned.shardOf == ch.claims
  {
    hide WellFormed;
    OwnerClaimsProperties(input, OwnersIn(input, ch.names), ch.claims);
    ClaimsWellFormed(input.desired, ch.claims, ch.owned);
  }

  lemma {:induction false} AttachKeepsOwners(input: Input, index: map<string, Pod>, l: ShardLayout, names: seq<Pod>)
    ensures AttachAll(input, index, l, names).layout.ownerOf == l.ownerOf
    ensures AttachAll(input, index, l, names).layout.replicaMoves == l.replicaMoves
  {
    if names != [] {
      AttachKeepsOwners(input, index, l, names[..|names| - 1]);
    }
  }

  lemma AttachedFacts(input: Input, ch: Choices, l: ShardLayout)
    requires input.Valid() && PlannedWith(input, ch, l)
    ensures DraftOk(input.desired, Owners(input, ch), Attached(input, ch), PodSet(ch.names))
    ensures Attached(input, ch).layout.ownerOf == ch.owned.ownerOf
  {
    hide WellFormed, Attach;
    OwnedFacts(input, ch, l);
    AttachAllOk(input, ch.index, Owners(input, ch), ch.owned, ch.names);
    AttachKeepsOwners(input, ch.index, ch.owned, ch.names);
    OwnersInProperties(input, ch.names);
    assert Owners(input, ch) + PodSet(ch.names) == PodSet(ch.names);
  }

  /** The draft the free survivors are dealt out from. */
  ghost function Survivors(input: Input, ch: Choices): Draft {
    var d := Attached(input, ch);
    d.(free := Filter(input.desired, d.free, false))
  }

  lemma FilledFacts(input: Input, ch: Choices, l: ShardLayout)
    requires input.Valid() && PlannedWith(input, ch, l)
    ensures var named := PodSet(ch.names) - PodSet(Filter(input.desired, Attached(input, ch).free, true));
            DraftOk(input.desired, Owners(input, ch), Survivors(input, ch), named) &&
            DraftOk(input.desired, Owners(input, ch), Filled(input, ch), named)
    ensures Filled(input, ch).layout.ownerOf == ch.owned.ownerOf
    ensures forall p :: p in Survivors(input, ch).free ==> p < input.desired
    ensures forall p :: p in Filled(input, ch).free ==> p < input.desired && p in Survivors(input, ch).free
  {
    hide WellFormed;
    AttachedFacts(input, ch, l);
    var d := Attached(input, ch);
    FilterProperties(input.desired, d.free, false);
    FilterProperties(input.desired, d.free, true);
    var named := PodSet(ch.names) - PodSet(Filter(input.desired, d.free, true));
    assert d.layout.shardOf.Keys + PodSet(Filter(input.desired, d.free, false)) == named;
    FillBelowOk(input.desired, Owners(input, ch), Survivors(input, ch), named, input.n);
  }

  lemma LeftoverFacts(input: Input, ch: Choices, l: ShardLayout)
    requires input.Valid() && PlannedWith(input, ch, l)
    ensures Distinct(Leftover(input, ch))
    ensures Filled(input, ch).layout.shardOf.Keys !! PodSet(Leftover(input, ch))
    ensures Filled(input, ch).layout.shardOf.Keys + PodSet(Leftover(input, ch)) == PodSet(ch.names)
  {
    hide WellFormed;
    AttachedFacts(input, ch, l);
    FilledFacts(input, ch, l);
    var d, filled := Attached(input, ch), Filled(input, ch);
    var gone := Filter(input.desired, d.free, true);
    FilterProperties(input.desired, d.free, true);
    assert forall p :: p in gone ==> p in PodSet(gone) && p in d.free && p in PodSet(ch.names);
    AppendDistinct(filled.free, gone);
    assert Leftover(input, ch) == filled.free + gone;
    assert PodSet(Leftover(input, ch)) == PodSet(filled.free) + PodSet(gone);
  }

  lemma AppendDistinct(a: seq<Pod>, b: seq<Pod>)
    requires Distinct(a) && Distinct(b) && forall p :: p in a ==> p !in b
    ensures Distinct(a + b)
  {
    forall i, j | 0 <= i < j < |a + b| ensures (a + b)[i] != (a + b)[j] {
      if i < |a| <= j {
        assert a[i] in a && b[j - |a|] in b;
      }
    }
  }

  lemma HeirsFacts(input: Input, ch: Choices, l: ShardLayout)
    requires input.Valid() && PlannedWith(input, ch, l)
    ensures WellFormed(input.desired, Owners(input, ch), ch.heirs[input.n])
    ensures ch.heirs[input.n].shardOf.Keys == Filled(input, ch).layout.shardOf.Keys
    ensures ch.heirs[input.n].ownerOf == ch.owned.ownerOf
  {
    hide WellFormed;
    FilledFacts(input, ch, l);
    HeirTraceWellFormed(input.desired, Owners(input, ch), ch.heirs, input.n);
  }

  lemma FinalFacts(input: Input, ch: Choices, l: ShardLayout)
    requires input.Valid() && PlannedWith(input, ch, l)
    ensures WellFormed(input.desired, Owners(input, ch), l)
    ensures l.shardOf.Keys == PodSet(ch.names)
    ensures l.primaryOf == ch.heirs[input.n].primaryOf && l.ownerOf == ch.owned.ownerOf
    ensures forall p :: p in ch.heirs[input.n].shardOf ==>
              p in l.shardOf && l.shardOf[p] == ch.heirs[input.n].shardOf[p]
    ensures forall p :: p in Leftover(input, ch) ==> p in l.shardOf && l.shardOf[p] < input.n
  {
    hide WellFormed;
    LeftoverFacts(input, ch, l);
    HeirsFacts(input, ch, l);
    BalanceOk(input.desired, Owners(input, ch), input.n, ch.heirs[input.n], Leftover(input, ch));
    SortMembersOk(input.desired, Owners(input, ch), Balance(input.n, ch.heirs[input.n], Leftover(input, ch)));
  }

  lemma MembersAscend(input: Input, ch: Choices, l: ShardLayout)
    requires input.Valid() && PlannedWith(input, ch, l)
    ensures forall s: nat :: Ascending(l.MembersOf(s))
  {
    hide WellFormed, Ascending;
    LeftoverFacts(input, ch, l);
    HeirsFacts(input, ch, l);
    BalanceOk(input.desired, Owners(input, ch), input.n, ch.heirs[input.n], Leftover(input, ch));
    SortMembersOk(input.desired, Owners(input, ch), Balance(input.n, ch.heirs[input.n], Leftover(input, ch)));
  }

  /** Layout well-formedness, for every input and every map order: each named pod is in exactly one
      shard and `members` agrees; primaries are distinct, survive and sit in their shard; every
      slot owner has a shard to itself and leads it if it survives; and a shard is handing over
      exactly when its owner is doomed. */
  lemma PlanIsWellFormed(input: Input, l: ShardLayout)
    requires input.Valid() && Planned(input, l)
    ensures forall p :: p in l.shardOf <==> input.Named(p)
    ensures forall p, s: nat :: p in l.MembersOf(s) <==> l.Placed(p, s)
    ensures forall s: nat :: Distinct(l.MembersOf(s))
    ensures forall s :: s in l.primaryOf ==> l.Placed(l.primaryOf[s], s) && l.primaryOf[s] < input.desired
    ensures forall s, r :: s in l.primaryOf && r in l.primaryOf && l.primaryOf[s] == l.primaryOf[r] ==> s == r
    ensures forall p :: IsOwner(input, p) <==>
              p in l.shardOf && l.shardOf[p] in l.ownerOf && l.ownerOf[l.shardOf[p]] == p
    ensures forall p: Pod :: IsOwner(input, p) && p < input.desired ==> l.IsPrimary(p)
    ensures forall s :: l.HandingOver(s) <==> s in l.ownerOf && l.ownerOf[s] >= input.desired
  {
    var ch :| PlannedWith(input, ch, l);
    FinalFacts(input, ch, l);
    OwnersAre(input, ch);
  }
}
