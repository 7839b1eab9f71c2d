/** Executing the planned replica moves is the end of it: the next plan wants no more moves. */
module Rebalance {
  import opened Types
  import opened Matching
  import opened Ranking
  import opened Layout
  import opened Claims
  import opened LayoutInvariant
  import opened PlanFacts
  import opened Totality
  import opened ReplicaMoves

  // ---------------------------------------------------------------- placed pods stay put

  ghost predicate Extends(l: ShardLayout, l': ShardLayout) {
    && (forall p :: p in l.shardOf ==> p in l'.shardOf && l'.shardOf[p] == l.shardOf[p])
    && (forall s :: s in l.primaryOf ==> s in l'.primaryOf && l'.primaryOf[s] == l.primaryOf[s])
  }

  lemma {:induction false} AttachExtends(input: Input, index: map<string, Pod>, l: ShardLayout, names: seq<Pod>)
    ensures Extends(l, AttachAll(input, index, l, names).layout)
  {
    hide Attach;
    if names != [] {
      AttachExtends(input, index, l, names[..|names| - 1]);
      AttachStepExtends(input, index, AttachAll(input, index, l, names[..|names| - 1]), names[|names| - 1]);
    }
  }

  lemma AttachStepExtends(input: Input, index: map<string, Pod>, d: Draft, p: Pod)
    ensures Extends(d.layout, Attach(input, index, d, p).layout)
    ensures forall q :: q != p && q !in d.layout.shardOf ==> q !in Attach(input, index, d, p).layout.shardOf
  {
  }

  /** A pod that follows an owner is attached to the owner's shard. */
  lemma {:induction false} AttachFollows(input: Input, index: map<string, Pod>, l: ShardLayout, names: seq<Pod>, p: Pod)
    requires p in names && p !in l.shardOf && Ascending(names)
    requires var status := StatusOf(input.statuses, p);
             status.role == Slave && status.primaryNodeID != "" && status.primaryNodeID in index
               && index[status.primaryNodeID] in l.shardOf
    ensures AttachAll(input, index, l, names).layout.Placed(p,
            l.shardOf[index[StatusOf(input.statuses, p).primaryNodeID]])
  {
    var front := names[..|names| - 1];
    if p in front {
      hide Attach;
      AttachFollows(input, index, l, front, p);
      AttachStepExtends(input, index, AttachAll(input, index, l, front), names[|names| - 1]);
    } else {
      AttachExtends(input, index, l, front);
      AttachOnlyNames(input, index, l, front, p);
    }
  }

  lemma {:induction false} AttachOnlyNames(input: Input, index: map<string, Pod>, l: ShardLayout, names: seq<Pod>,
                                           p: Pod)
    requires p !in names && p !in l.shardOf
    ensures p !in AttachAll(input, index, l, names).layout.shardOf
  {
    hide Attach;
    if names != [] {
      AttachOnlyNames(input, index, l, names[..|names| - 1], p);
      AttachStepExtends(input, index, AttachAll(input, index, l, names[..|names| - 1]), names[|names| - 1]);
    }
  }

  lemma {:induction false} FillExtends(desired: nat, owners: set<Pod>, d: Draft, named: set<Pod>, k: nat)
    requires DraftOk(desired, owners, d, named) && forall p :: p in d.free ==> p < desired
    ensures Extends(d.layout, FillBelow(d, k).layout)
  {
    hide WellFormed;
    if k > 0 {
      FillExtends(desired, owners, d, named, k - 1);
      FillBelowOk(desired, owners, d, named, k - 1);
      var d1 := FillBelow(d, k - 1);
      if d1.free != [] { assert d1.free[0] in PodSet(d1.free); }
    }
  }

  /** Nobody needs an heir when every shard has a primary. */
  lemma {:induction false} HeirsIdle(desired: nat, trace: seq<ShardLayout>, k: nat)
    requires k < |trace| && HeirTrace(desired, trace[0], trace) && forall s :: 0 <= s < k ==> s in trace[0].primaryOf
    ensures trace[k] == trace[0]
  {
    if k > 0 {
      HeirsIdle(desired, trace, k - 1);
      assert HeirStep(desired, trace[k - 1], k - 1, trace[k]);
    }
  }

  // ---------------------------------------------------------------- only surviving owners, one per shard

  /** Every desired shard has a surviving owner and nobody else owns slots. */
  ghost predicate Complete(input: Input, ch: Choices) {
    |Owners(input, ch)| == input.n && forall p :: p in Owners(input, ch) ==> p < input.desired
  }

  lemma CompleteIsSettled(input: Input, ch: Choices, l: ShardLayout)
    requires input.Valid() && PlannedWith(input, ch, l) && Complete(input, ch)
    ensures forall s :: 0 <= s < input.n ==>
              s in l.ownerOf && l.ownerOf[s] in Owners(input, ch) && l.IsPrimaryOf(l.ownerOf[s], s)
    ensures Settled(input.n, l)
  {
    hide PlannedWith, Owners, Consistent;
    TotalityWith(input, ch, l);
    FinalFacts(input, ch, l);
    forall s | 0 <= s < input.n ensures s in l.ownerOf && l.ownerOf[s] in Owners(input, ch)
      && l.IsPrimaryOf(l.ownerOf[s], s) {
      assert l.Placed(l.ownerOf[s], s);
    }
  }

  lemma OwnedLeadsAll(input: Input, ch: Choices, l: ShardLayout)
    requires input.Valid() && PlannedWith(input, ch, l) && Complete(input, ch)
    ensures forall s :: 0 <= s < input.n ==> s in ch.owned.primaryOf
  {
    hide WellFormed, Owners, OwnerClaims, Attach;
    CompleteIsSettled(input, ch, l);
    FinalFacts(input, ch, l);
    assert SurvivorsLead(input.desired, ch.owned);
  }

  /** Attaching places everyone there is to place, and there it stays. */
  lemma CompleteIsIdle(input: Input, ch: Choices, l: ShardLayout)
    requires input.Valid() && PlannedWith(input, ch, l) && Complete(input, ch)
    ensures forall p :: p in Attached(input, ch).layout.shardOf ==>
              p in l.shardOf && l.shardOf[p] == Attached(input, ch).layout.shardOf[p]
    ensures Within(input.n, l)
  {
    hide WellFormed, Attach, Owners;
    FilledWithin(input, ch, l);
    FilledFacts(input, ch, l);
    FillExtends(input.desired, Owners(input, ch), Survivors(input, ch),
                PodSet(ch.names) - PodSet(Filter(input.desired, Attached(input, ch).free, true)), input.n);
    AttachExtends(input, ch.index, ch.owned, ch.names);
    OwnedLeadsAll(input, ch, l);
    HeirsIdle(input.desired, ch.heirs, input.n);
    FinalFacts(input, ch, l);
    LeftoverFacts(input, ch, l);
    forall p | p in l.shardOf ensures l.shardOf[p] < input.n {
      assert p in PodSet(ch.names);
    }
  }

  // ---------------------------------------------------------------- planning again

  lemma LastOfAscending(a: seq<Pod>)
    requires Ascending(a) && a != []
    ensures a[|a| - 1] in PodSet(a) && forall x :: x in PodSet(a) ==> x <= a[|a| - 1]
    ensures PodSet(a[..|a| - 1]) == PodSet(a) - {a[|a| - 1]}
  {
    assert a == a[..|a| - 1] + [a[|a| - 1]];
  }

  lemma {:induction false} AscendingUnique(a: seq<Pod>, b: seq<Pod>)
    requires Ascending(a) && Ascending(b) && PodSet(a) == PodSet(b)
    ensures a == b
  {
    assert a != [] ==> a[0] in PodSet(a);
    assert b != [] ==> b[0] in PodSet(b);
    if a != [] && b != [] {
      LastOfAscending(a);
      LastOfAscending(b);
      AscendingUnique(a[..|a| - 1], b[..|b| - 1]);
      assert a == a[..|a| - 1] + [a[|a| - 1]] && b == b[..|b| - 1] + [b[|b| - 1]];
    }
  }

  ghost predicate SameSlots(a: Statuses, b: Statuses) {
    forall p :: StatusOf(a, p).slotsServed == StatusOf(b, p).slotsServed
  }

  lemma SameMarket(a: Statuses, b: Statuses, owners: set<Pod>, n: nat)
    requires n > 0 && SameSlots(a, b)
    ensures Market(a, owners, n) == Market(b, owners, n)
  {
    forall x ensures x in Market(a, owners, n) <==> x in Market(b, owners, n) {
      assert PairOf(a, n, x.pod, x.shard) == PairOf(b, n, x.pod, x.shard);
    }
  }

  lemma RepresentsUnique(c: map<Pod, nat>, c': map<Pod, nat>, claims: set<OwnerMatch>)
    requires Represents(c, claims) && Represents(c', claims)
    ensures c == c'
  {
    forall p | p in c ensures p in c' && c'[p] == c[p] {
      var x :| x in claims && x.pod == p;
    }
    forall p | p in c' ensures p in c {
      var x :| x in claims && x.pod == p;
    }
  }

  lemma SameStableClaims(input: Input, input': Input, owners: seq<Pod>, c: map<Pod, nat>, c': map<Pod, nat>)
    requires input.Valid() && input'.Valid() && input.n == input'.n && SameSlots(input.statuses, input'.statuses)
    requires StableClaims(input, owners, c) && StableClaims(input', owners, c')
    ensures c == c'
  {
    hide Stable, Represents, Market, SameSlots;
    SameMarket(input.statuses, input'.statuses, PodSet(owners), input.n);
    var market := Market(input.statuses, PodSet(owners), input.n);
    var claims: set<OwnerMatch> :| Stable(market, claims) && Represents(c, claims);
    var claims': set<OwnerMatch> :| Stable(market, claims') && Represents(c', claims');
    StableIsUnique(market, claims, claims');
    RepresentsUnique(c, c', claims);
  }

  /** The claims depend on the slots the owners serve and on nothing else. */
  lemma SameClaims(input: Input, ch: Choices, l: ShardLayout, input': Input, ch': Choices, l': ShardLayout)
    requires input.Valid() && input'.Valid() && input.n == input'.n && SameSlots(input.statuses, input'.statuses)
    requires PlannedWith(input, ch, l) && PlannedWith(input', ch', l') && Owners(input, ch) == Owners(input', ch')
    ensures ch'.claims == ch.claims
  {
    hide PlannedWith, StableClaims, Park, SameSlots;
    PlannedClaims(input, ch, l);
    PlannedClaims(input', ch', l');
    var owners := OwnersIn(input, ch.names);
    OwnersInProperties(input, ch.names);
    OwnersInProperties(input', ch'.names);
    AscendingUnique(owners, OwnersIn(input', ch'.names));
    var base :| StableClaims(input, owners, base) && ch.claims == Park(base, owners);
    var base' :| StableClaims(input', owners, base') && ch'.claims == Park(base', owners);
    SameStableClaims(input, input', owners, base, base');
  }

  /** What a bootstrap pass leaves behind when every command succeeded: each surviving replica
      follows the primary of the shard it was meant for, and nobody's slots have changed. */
  ghost predicate Executed(input: Input, l: ShardLayout, moves: map<Pod, nat>, input': Input) {
    && input'.n == input.n && input'.desired == input.desired && input'.replicas == input.replicas
    && SameSlots(input.statuses, input'.statuses)
    && UniqueNodes(input'.statuses)
    && (forall s :: s in l.primaryOf ==>
          l.primaryOf[s] in input'.statuses && input'.statuses[l.primaryOf[s]].nodeID != "")
    && (forall p :: IsReplica(input.desired, l, p) && Destination(l, moves, p) in l.primaryOf ==>
          var status := StatusOf(input'.statuses, p);
          status.role == Slave && status.primaryNodeID == input'.statuses[l.primaryOf[Destination(l, moves, p)]].nodeID)
  }

  lemma SameOwners(input: Input, ch: Choices, l: ShardLayout, input': Input, ch': Choices, l': ShardLayout)
    requires input.Valid() && input'.Valid() && input.desired == input'.desired
             && SameSlots(input.statuses, input'.statuses)
    requires PlannedWith(input, ch, l) && PlannedWith(input', ch', l')
    requires forall p: Pod :: input.OwnsSlots(p) ==> p < input.desired
    ensures Owners(input, ch) == Owners(input', ch')
  {
    hide PlannedWith;
    PlannedClaims(input, ch, l);
    PlannedClaims(input', ch', l');
    OwnersAre(input, ch);
    OwnersAre(input', ch');
    forall p ensures p in Owners(input, ch) <==> p in Owners(input', ch') {
      assert input.OwnsSlots(p) <==> input'.OwnsSlots(p);
    }
  }

  /** The same pods lead the same shards. */
  lemma SameLeaders(input: Input, ch: Choices, l: ShardLayout, input': Input, ch': Choices, l': ShardLayout)
    requires input.Valid() && input'.Valid() && input.n == input'.n && input.desired == input'.desired
    requires PlannedWith(input, ch, l) && PlannedWith(input', ch', l') && Complete(input, ch) && Complete(input', ch')
    requires ch'.claims == ch.claims && Owners(input', ch') == Owners(input, ch)
    ensures forall s :: 0 <= s < input.n ==> s in l.primaryOf && s in l'.primaryOf && l'.primaryOf[s] == l.primaryOf[s]
    ensures forall p :: p in Owners(input, ch) ==> l.IsPrimary(p) && l'.IsPrimary(p) && l'.shardOf[p] == l.shardOf[p]
  {
    hide PlannedWith, Owners, Complete;
    forall p | p in Owners(input, ch) ensures l.IsPrimary(p) && l'.IsPrimary(p) && l'.shardOf[p] == l.shardOf[p] {
      OwnerLeadsClaim(input, ch, l, p);
      OwnerLeadsClaim(input', ch', l', p);
    }
    CompleteIsSettled(input, ch, l);
    forall s | 0 <= s < input.n ensures s in l.primaryOf && s in l'.primaryOf && l'.primaryOf[s] == l.primaryOf[s] {
      LeaderPlaced(input, ch, l, s);
      assert l.IsPrimary(l.primaryOf[s]);
    }
  }

  lemma OwnerLeadsClaim(input: Input, ch: Choices, l: ShardLayout, p: Pod)
    requires input.Valid() && PlannedWith(input, ch, l) && Complete(input, ch) && p in Owners(input, ch)
    ensures p in ch.claims && l.IsPrimary(p) && l.shardOf[p] == ch.claims[p]
  {
    hide PlannedWith, Owners, Consistent;
    OwnersKeepClaims(input, ch, l);
    OwnedKeys(input, ch, l);
    FinalFacts(input, ch, l);
  }

  lemma OwnedKeys(input: Input, ch: Choices, l: ShardLayout)
    requires input.Valid() && PlannedWith(input, ch, l)
    ensures ch.claims.Keys == Owners(input, ch) && ch.owned.shardOf == ch.claims
  {
    OwnedFacts(input, ch, l);
  }

  ghost predicate UniqueNodes(statuses: Statuses) {
    forall p, q :: p in statuses && q in statuses && statuses[p].nodeID == statuses[q].nodeID != "" ==> p == q
  }

  /** A pod that follows an owner is planned in the owner's shard. */
  lemma FollowerPlanned(input: Input, ch: Choices, l: ShardLayout, p: Pod, leader: Pod)
    requires input.Valid() && PlannedWith(input, ch, l) && Complete(input, ch) && UniqueNodes(input.statuses)
    requires p < input.desired && p !in Owners(input, ch) && leader in Owners(input, ch) && leader in input.statuses
    requires var status := StatusOf(input.statuses, p);
             status.role == Slave && status.primaryNodeID == input.statuses[leader].nodeID != ""
    ensures leader in ch.claims && l.Placed(p, ch.claims[leader])
  {
    hide PlannedWith, Owners, Complete, Attach;
    CompleteIsIdle(input, ch, l);
    OwnedKeys(input, ch, l);
    PlannedClaims(input, ch, l);
    assert ch.index[input.statuses[leader].nodeID] == leader;
    assert input.Named(p) && p in ch.names;
    AttachFollows(input, ch.index, ch.owned, ch.names, p);
  }

  /** A replica is planned where it was sent. */
  lemma ReplicaArrives(input: Input, ch: Choices, l: ShardLayout, moves: map<Pod, nat>, input': Input, ch': Choices,
                       l': ShardLayout, p: Pod)
    requires input.Valid() && input'.Valid() && PlannedWith(input, ch, l) && PlannedWith(input', ch', l')
    requires Complete(input, ch) && Complete(input', ch') && Executed(input, l, moves, input')
    requires ch'.claims == ch.claims && Owners(input', ch') == Owners(input, ch)
    requires IsReplica(input.desired, l, p) && Destination(l, moves, p) < input.n
    ensures l'.Placed(p, Destination(l, moves, p))
  {
    hide PlannedWith, Owners, Complete, SameSlots;
    var s := Destination(l, moves, p);
    SameLeaders(input, ch, l, input', ch', l');
    CompleteIsSettled(input, ch, l);
    OwnersKeepClaims(input', ch', l');
    OwnersKeepClaims(input, ch, l);
    OwnedKeys(input, ch, l);
    var leader := l.primaryOf[s];
    assert leader in Owners(input, ch) && l.shardOf[leader] == s by { LeaderPlaced(input, ch, l, s); }
    FollowerPlanned(input', ch', l', p, leader);
  }

  lemma LeaderPlaced(input: Input, ch: Choices, l: ShardLayout, s: nat)
    requires input.Valid() && PlannedWith(input, ch, l) && s in l.primaryOf
    ensures l.Placed(l.primaryOf[s], s) && l.primaryOf[s] < input.desired
  {
    FinalFacts(input, ch, l);
  }

  /** Every replica is counted, after the moves, where the next plan finds it. */
  lemma CountsCarryOver(input: Input, ch: Choices, l: ShardLayout, moves: map<Pod, nat>, input': Input, ch': Choices,
                        l': ShardLayout, s: nat)
    requires input.Valid() && input'.Valid() && PlannedWith(input, ch, l) && PlannedWith(input', ch', l')
    requires Complete(input, ch) && Complete(input', ch') && Executed(input, l, moves, input')
    requires ch'.claims == ch.claims && Owners(input', ch') == Owners(input, ch)
    requires forall p :: IsReplica(input.desired, l, p) ==> Destination(l, moves, p) < input.n
    requires s < input.n
    ensures Before(input', l', s) == After(input, l, moves, s)
  {
    hide PlannedWith, Owners, Complete, Executed;
    forall p: Pod ensures p in ReplicasAt(input.desired, l, moves, s) <==>
      p in ReplicasAt(input.desired, l', map[], s) {
      if p < input.desired {
        SameReplica(input, ch, l, moves, input', ch', l', p);
      }
    }
    assert ReplicasAt(input.desired, l, moves, s) == ReplicasAt(input.desired, l', map[], s);
    assert input'.desired == input.desired by { SameDesired(input, l, moves, input'); }
  }

  lemma SameDesired(input: Input, l: ShardLayout, moves: map<Pod, nat>, input': Input)
    requires Executed(input, l, moves, input')
    ensures input'.desired == input.desired && input'.n == input.n && input'.replicas == input.replicas
  {
  }

  lemma SameReplica(input: Input, ch: Choices, l: ShardLayout, moves: map<Pod, nat>, input': Input, ch': Choices,
                    l': ShardLayout, p: Pod)
    requires input.Valid() && input'.Valid() && PlannedWith(input, ch, l) && PlannedWith(input', ch', l')
    requires Complete(input, ch) && Complete(input', ch') && Executed(input, l, moves, input')
    requires ch'.claims == ch.claims && Owners(input', ch') == Owners(input, ch)
    requires forall q :: IsReplica(input.desired, l, q) ==> Destination(l, moves, q) < input.n
    requires p < input.desired
    ensures IsReplica(input.desired, l', p) <==> IsReplica(input.desired, l, p)
    ensures IsReplica(input.desired, l, p) ==> l'.Placed(p, Destination(l, moves, p))
  {
    hide PlannedWith, Owners, Complete;
    assert input.Named(p) && input'.Named(p);
    PlacedIffNamed(input, ch, l, p);
    PlacedIffNamed(input', ch', l', p);
    SameLeaders(input, ch, l, input', ch', l');
    LeadersAreOwners(input, ch, l, p);
    LeadersAreOwners(input', ch', l', p);
    if IsReplica(input.desired, l, p) {
      ReplicaArrives(input, ch, l, moves, input', ch', l', p);
    }
  }

  lemma PlacedIffNamed(input: Input, ch: Choices, l: ShardLayout, p: Pod)
    requires input.Valid() && PlannedWith(input, ch, l)
    ensures p in l.shardOf <==> input.Named(p)
  {
    hide WellFormed;
    FinalFacts(input, ch, l);
  }

  lemma LeadersAreOwners(input: Input, ch: Choices, l: ShardLayout, p: Pod)
    requires input.Valid() && PlannedWith(input, ch, l) && Complete(input, ch)
    ensures l.IsPrimary(p) <==> p in Owners(input, ch)
  {
    hide PlannedWith, Owners;
    CompleteIsIdle(input, ch, l);
    CompleteIsSettled(input, ch, l);
    FinalFacts(input, ch, l);
  }

  /** Replica balancing: when every desired shard has a surviving owner, nobody else owns slots and
      every surviving replica can move, the moves leave each shard with exactly the desired number of
      replicas, and once they have been executed any further plan moves nobody. */
  lemma BalancingIsFinal(input: Input, l: ShardLayout, moves: map<Pod, nat>, input': Input, l': ShardLayout,
                         moves': map<Pod, nat>)
    requires input.Valid() && input.replicas >= 0 && input.desired == input.n * (1 + input.replicas)
    requires Planned(input, l) && GoodMoves(input, l, moves)
    requires |SlotOwners(input, l)| == input.n && forall p: Pod :: input.OwnsSlots(p) ==> p < input.desired
    requires forall p :: IsReplica(input.desired, l, p) ==> Movable(input, l, p)
    requires Executed(input, l, moves, input') && Planned(input', l') && GoodMoves(input', l', moves')
    ensures forall s :: 0 <= s < input.n ==> After(input, l, moves, s) == input.replicas
    ensures moves' == map[]
  {
    hide PlannedWith, Owners, GoodMoves, After, SlotOwners, WellFormed;
    var ch :| PlannedWith(input, ch, l);
    var ch' :| PlannedWith(input', ch', l');
    SlotOwnersAre(input, ch, l);
    OwnersSurvive(input, ch, l);
    SameOwners(input, ch, l, input', ch', l');
    SameClaims(input, ch, l, input', ch', l');
    BalanceReached(input, ch, l, moves);
    forall s | 0 <= s < input.n ensures Before(input', l', s) == input.replicas {
      DestinationsWithin(input, ch, l, moves);
      CountsCarryOver(input, ch, l, moves, input', ch', l', s);
    }
    NothingLeftToMove(input', l', moves');
  }

  lemma OwnersSurvive(input: Input, ch: Choices, l: ShardLayout)
    requires input.Valid() && PlannedWith(input, ch, l) && |Owners(input, ch)| == input.n
    requires forall p: Pod :: input.OwnsSlots(p) ==> p < input.desired
    ensures Complete(input, ch)
  {
    hide PlannedWith;
    PlannedClaims(input, ch, l);
    OwnersAre(input, ch);
  }

  lemma DestinationsWithin(input: Input, ch: Choices, l: ShardLayout, moves: map<Pod, nat>)
    requires input.Valid() && PlannedWith(input, ch, l) && Complete(input, ch) && GoodMoves(input, l, moves)
    ensures forall p :: IsReplica(input.desired, l, p) ==> Destination(l, moves, p) < input.n
  {
    hide PlannedWith, Owners, Complete;
    CompleteIsIdle(input, ch, l);
  }

  lemma BalanceReached(input: Input, ch: Choices, l: ShardLayout, moves: map<Pod, nat>)
    requires input.Valid() && input.replicas >= 0 && input.desired == input.n * (1 + input.replicas)
    requires PlannedWith(input, ch, l) && Complete(input, ch) && GoodMoves(input, l, moves)
    requires forall p :: IsReplica(input.desired, l, p) ==> Movable(input, l, p)
    ensures forall s :: 0 <= s < input.n ==> After(input, l, moves, s) == input.replicas
  {
    hide PlannedWith, Owners, Complete, GoodMoves, After, IsReplica, Movable;
    CompleteIsIdle(input, ch, l);
    CompleteIsSettled(input, ch, l);
    forall p | 0 <= p < input.desired ensures p in l.shardOf { PlacedIffNamed(input, ch, l, p); }
    forall s | 0 <= s < input.n ensures l.Placed(l.primaryOf[s], s) && l.primaryOf[s] < input.desired {
      LeaderPlaced(input, ch, l, s);
    }
    MovesReachBalance(input, l, moves);
  }

  lemma NothingLeftToMove(input: Input, l: ShardLayout, moves: map<Pod, nat>)
    requires GoodMoves(input, l, moves) && forall s :: 0 <= s < input.n ==> Before(input, l, s) == input.replicas
    ensures moves == map[]
  {
    hide After;
    assert moves.Keys == {};
  }
}
