/** A cluster whose survivors are attached one after the other to a doomed pod that claims another shard, until
    nobody is left to lead the first shard and resharding stops. */
module LostHeirs {
  import opened Types
  import opened Slots
  import opened Matching
  import opened Layout
  import opened PlanFacts
  import opened Totality
  import opened Rebalance
  import opened Leaders
  import opened ReplicaMoves
  import opened Ownership
  import opened Convergence
  import opened Reshard
  import opened ReshardRuns
  import opened Homes
  import opened Decisions
  import StalledHandover

  /** What a pod without slots reports: that it replicates pod 3, or that it is a master. */
  function Idle(id: string, follows: bool): InstanceStatus {
    if follows then InstanceStatus(true, Slave, id, "n3", true, []) else InstanceStatus(true, Master, id, "", false, [])
  }

  function Reports(zero: bool, one: bool): Statuses {
    map[0 := Idle("n0", zero), 1 := Idle("n1", one),
        2 := InstanceStatus(true, Master, "n2", "", false, [SlotRange(2, 5461), SlotRange(10923, 16383)]),
        3 := InstanceStatus(true, Master, "n3", "", false, [SlotRange(0, 1), SlotRange(5462, 10922)])]
  }

  /** Pods 0, 1 and 2 are to stay and pod 3 is to go; the arguments say which of pods 0 and 1 replicate it. */
  function Seen(zero: bool, one: bool): Input {
    var listed := StalledHandover.LISTED;
    Input(3, 3, 0, map[0 := listed, 1 := listed, 2 := listed, 3 := listed], Reports(zero, one))
  }

  function Holder(x: int): Pod {
    if x <= 1 then 3 else if x <= 5461 then 2 else if x <= 10922 then 3 else 2
  }

  /** Every slot is owned, by its holder. */
  ghost predicate Held(own: Owner) {
    && (forall x :: x in own <==> 0 <= x < SLOTS)
    && (forall x :: x in own ==> own[x] == Holder(x))
  }

  lemma ServesIsHolding(zero: bool, one: bool, p: Pod, x: int)
    ensures Serves(StatusOf(Reports(zero, one), p), x) <==> 0 <= x < SLOTS && Holder(x) == p
  {
    var served := StatusOf(Reports(zero, one), p).slotsServed;
    if p == 2 {
      assert served[0].Contains(x) <==> 2 <= x <= 5461;
      assert served[1].Contains(x) <==> 10923 <= x <= 16383;
    } else if p == 3 {
      assert served[0].Contains(x) <==> 0 <= x <= 1;
      assert served[1].Contains(x) <==> 5462 <= x <= 10922;
    }
  }

  lemma ReportsHolders(zero: bool, one: bool, own: Owner)
    requires Held(own)
    ensures Observes(Seen(zero, one), own)
  {
    hide Serves, StatusOf;
    forall p: Pod ensures SoundRanges(StatusOf(Reports(zero, one), p).slotsServed) { RangesAreSound(zero, one, p); }
    forall p: Pod, x ensures Serves(StatusOf(Reports(zero, one), p), x) <==> Owns(own, p, x) {
      ServesIsHolding(zero, one, p, x);
    }
    assert forall x :: 0 <= x < SLOTS ==> Seen(zero, one).Named(Holder(x));
  }

  lemma RangesAreSound(zero: bool, one: bool, p: Pod)
    ensures SoundRanges(StatusOf(Reports(zero, one), p).slotsServed)
  {
  }

  /** Who holds how much of each shard, and from which slot on. */
  function Share(p: Pod, s: nat): nat {
    if p == 3 && s == 0 then 2 else if p == 2 && s == 0 then 5460
    else if (p == 3 && s == 1) || (p == 2 && s == 2) then 5461 else 0
  }

  function Lowest(p: Pod, s: nat): int {
    if s == 0 then if p == 2 then 2 else 0 else if s == 1 then 5462 else 10923
  }

  lemma Shares(own: Owner, p: Pod, s: nat)
    requires Held(own) && s < 3
    ensures Owned(own, 3, p, s) == Share(p, s)
  {
    StalledHandover.Ranges();
    hide RangeStart;
    RunShare(own, 3, p, s, Lowest(p, s), Lowest(p, s) + Share(p, s) - 1);
  }

  const CLAIMS := {OwnerMatch(3, 1, 5461), OwnerMatch(2, 2, 5461)}

  /** Pods 3 and 2 claim shards 1 and 2, and nobody claims shard 0. */
  lemma ClaimsAreStable(own: Owner)
    requires Held(own)
    ensures Stable(OwnMarket(own, 3), CLAIMS)
  {
    hide Owned, OwnMarket, Held;
    forall x | x in CLAIMS ensures x in OwnMarket(own, 3) {
      Shares(own, x.pod, x.shard);
      assert InOwnMarket(own, 3, x);
    }
    forall x | x in OwnMarket(own, 3) ensures x in CLAIMS || Beaten(CLAIMS, x) {
      assert InOwnMarket(own, 3, x);
      Shares(own, x.pod, x.shard);
      if x !in CLAIMS {
        assert x.shard == 0 && (Rivals(OwnerMatch(3, 1, 5461), x) || Rivals(OwnerMatch(2, 2, 5461), x));
      }
    }
  }

  /** In every plan pod 2 leads shard 2, the doomed pod 3 owns shard 1, and shard 0 has no owner. */
  lemma EveryPlanHasTwoOwners(input: Input, own: Owner, l: ShardLayout)
    requires input.n == 3 && input.desired == 3 && Planned(input, l) && Observes(input, own) && Held(own)
    ensures l.IsPrimaryOf(2, 2) && l.Placed(3, 1) && 0 !in l.ownerOf
    ensures 1 in l.ownerOf && l.ownerOf[1] == 3
    ensures forall p: Pod :: input.OwnsSlots(p) <==> p in {2, 3}
    ensures forall s :: s in l.primaryOf && s != 2 ==> l.primaryOf[s] in {0, 1}
  {
    hide Planned, Observes, Stable, OwnMarket;
    ClaimsAreStable(own);
    var behind := ClaimsBehind(input, own, l);
    StableIsUnique(OwnMarket(own, 3), CLAIMS, behind);
    assert OwnerMatch(3, 1, 5461) in behind && OwnerMatch(2, 2, 5461) in behind;
    forall p: Pod ensures input.OwnsSlots(p) <==> p in {2, 3} {
      OwnerServes(input, own, p);
      assert Owns(own, 2, 2) && Owns(own, 3, 0);
    }
    PlanIsWellFormed(input, l);
    assert l.IsPrimary(2);
    if 0 in l.ownerOf { OwnerOfIsOwner(input, l, 0); }
  }

  /** A survivor that reports as a master without slots leads something while a shard goes without a primary. */
  lemma LooseLead(input: Input, l: ShardLayout, shard: nat, p: Pod)
    requires input.Valid() && Planned(input, l) && shard < input.n && shard !in l.primaryOf && IsLoose(input, p)
    ensures exists s :: 0 <= s < input.n && l.IsPrimaryOf(p, s)
  {
    hide PlannedWith;
    var ch :| PlannedWith(input, ch, l);
    FilledLeadersStay(input, ch, l);
    assert p !in Owners(input, ch) by { PlannedClaims(input, ch, l); OwnersAre(input, ch); }
    LooseLeads(input, ch, l, shard, p);
    var s :| 0 <= s < input.n && Filled(input, ch).layout.IsPrimaryOf(p, s);
    assert l.IsPrimaryOf(p, s);
  }

  /** A master without slots belongs nowhere. */
  lemma LooseIsNoCandidate(input: Input, index: map<string, Pod>, claims: map<Pod, nat>, s: nat, p: Pod)
    requires IsLoose(input, p)
    ensures !Candidate(input, index, claims, s, p)
  {
    if p !in claims {
      assert Leader(input, index, p) == None;
    }
  }

  /** Who leads shard 0 while pods 0 and 1 are not both attached: one that is not. */
  lemma LeadersWhileOneIsLoose(zero: bool, one: bool, own: Owner, l: ShardLayout)
    requires Held(own) && Planned(Seen(zero, one), l) && !(zero && one)
    ensures 0 in l.primaryOf && 1 in l.primaryOf && 2 in l.primaryOf
    ensures (l.primaryOf[0] == 0 && !zero) || (l.primaryOf[0] == 1 && !one)
  {
    hide Planned, Observes, Held, Reports, IsLoose, FollowsOwner, UniqueNodes;
    var input := Seen(zero, one);
    ReportsHolders(zero, one, own);
    SeenIsSound(zero, one);
    if !zero && !one {
      EveryPlanHasTwoOwners(input, own, l);
      TwoLooseLead(input, l, 0);
      TwoLooseLead(input, l, 1);
    } else if zero {
      OneLooseLeads(input, own, l, 0, 1);
    } else {
      OneLooseLeads(input, own, l, 1, 0);
    }
  }

  lemma OneLooseLeads(input: Input, own: Owner, l: ShardLayout, h: Pod, k: Pod)
    requires input.n == 3 && input.desired == 3 && Planned(input, l) && Observes(input, own) && Held(own)
    requires UniqueNodes(input.statuses) && {h, k} == {0, 1} && IsLoose(input, k) && FollowsOwner(input, 3, h)
    ensures l.IsPrimaryOf(k, 0) && l.IsPrimaryOf(h, 1) && l.IsPrimaryOf(2, 2)
  {
    hide Planned, Observes, IsLoose, FollowsOwner, Held;
    EveryPlanHasTwoOwners(input, own, l);
    AttachedLeadsOne(input, own, l, h, k);
    PlanIsWellFormed(input, l);
    if 0 !in l.primaryOf { LooseLead(input, l, 0, k); }
    assert l.Placed(l.primaryOf[0], 0) && l.Placed(h, 1);
  }

  lemma TwoLooseLead(input: Input, l: ShardLayout, shard: nat)
    requires input.n == 3 && input.desired == 3 && Planned(input, l) && shard < 2
    requires IsLoose(input, 0) && IsLoose(input, 1) && l.IsPrimaryOf(2, 2)
    ensures shard in l.primaryOf
  {
    hide Planned;
    if shard !in l.primaryOf {
      PlanIsWellFormed(input, l);
      LooseLead(input, l, shard, 0);
      LooseLead(input, l, shard, 1);
    }
  }

  lemma AttachedLeadsOne(input: Input, own: Owner, l: ShardLayout, h: Pod, k: Pod)
    requires input.n == 3 && input.desired == 3 && Planned(input, l) && Observes(input, own) && Held(own)
    requires UniqueNodes(input.statuses) && {h, k} == {0, 1} && IsLoose(input, k) && FollowsOwner(input, 3, h)
    ensures l.IsPrimaryOf(h, 1)
  {
    hide Planned, Candidate, Observes;
    EveryPlanHasTwoOwners(input, own, l);
    PlanIsWellFormed(input, l);
    var index := PlanGoesByHomes(input, l);
    var claims := OwnerShards(input, l);
    FollowerIsCandidate(input, index, claims, 3, h);
    assert Orphaned(input, l, 1);
    LooseIsNoCandidate(input, index, claims, 1, k);
  }

  lemma SeenIsSound(zero: bool, one: bool)
    ensures UniqueNodes(Seen(zero, one).statuses) && Seen(zero, one).DesiredReachable()
    ensures Addressable(Seen(zero, one), 3)
    ensures if zero then FollowsOwner(Seen(zero, one), 3, 0) else IsLoose(Seen(zero, one), 0)
    ensures if one then FollowsOwner(Seen(zero, one), 3, 1) else IsLoose(Seen(zero, one), 1)
  {
    forall p: Pod | p < 3 ensures Seen(zero, one).Reachable(p) { assert p in {0, 1, 2}; }
  }

  // ---------------------------------------------------------------- what the passes do

  /** While one of pods 0 and 1 is not attached, every pass attaches one that is not to the doomed pod. */
  lemma PassAttaches(zero: bool, one: bool, own: Owner, l: ShardLayout, table: seq<Option<Pod>>, action: Action)
    requires Held(own) && !(zero && one) && PlanResult(Seen(zero, one), l)
    requires OwnerTable(Seen(zero, one).statuses, table) && |table| == SLOTS
             && Outcome(Seen(zero, one), l, table, action)
    ensures (action == Attach(0, 3) && !zero) || (action == Attach(1, 3) && !one)
  {
    hide PlanResult, Observes, OwnerTable, Outcome, Reports, Planned;
    var input := Seen(zero, one);
    ResultIsPlanned(input, l);
    ReportsHolders(zero, one, own);
    SeenIsSound(zero, one);
    LeadersWhileOneIsLoose(zero, one, own, Membership(l));
    EveryPlanHasTwoOwners(input, own, Membership(l));
    PassDecides(input, own, l, table, action);
    SlotZeroIsMisplaced(own, l);
    assert AllLeadersAnswer(input, l) by { LeadersAnswer(input, l); }
    var to := l.primaryOf[0];
    assert !Follows(input.statuses, to, 3) by { LooseFollowsNobody(input, to); }
  }

  lemma LooseFollowsNobody(input: Input, p: Pod)
    requires IsLoose(input, p)
    ensures !Follows(input.statuses, p, 3)
  {
  }

  lemma LeadersAnswer(input: Input, l: ShardLayout)
    requires input.n == 3 && input.desired == 3 && input.DesiredReachable()
    requires 0 in l.primaryOf && 1 in l.primaryOf && 2 in l.primaryOf
    requires forall s :: s in l.primaryOf ==> l.primaryOf[s] < 3
    ensures AllLeadersAnswer(input, l)
  {
  }

  lemma SlotZeroIsMisplaced(own: Owner, l: ShardLayout)
    requires Held(own) && 0 in l.primaryOf && l.primaryOf[0] != 3
    ensures FirstMisplaced(own, 3, l, 0) && ShardOfSlot(3, 0) == 0 && own[0] == 3
  {
    StalledHandover.Ranges();
    RangesPartition(3, 0, 0);
  }

  /** Once both replicate the doomed pod, every pass stops: shard 0 has no primary in any plan. */
  lemma PassStops(own: Owner, l: ShardLayout, table: seq<Option<Pod>>, action: Action)
    requires Held(own) && PlanResult(Seen(true, true), l)
    requires OwnerTable(Seen(true, true).statuses, table) && |table| == SLOTS
             && Outcome(Seen(true, true), l, table, action)
    ensures action == Stop(false)
  {
    hide PlanResult, Observes, OwnerTable, Outcome, Reports, Planned;
    var input := Seen(true, true);
    ResultIsPlanned(input, l);
    ReportsHolders(true, true, own);
    SeenIsSound(true, true);
    NobodyLeadsZero(input, own, Membership(l));
    PassDecides(input, own, l, table, action);
  }

  lemma NobodyLeadsZero(input: Input, own: Owner, l: ShardLayout)
    requires input.n == 3 && input.desired == 3 && Planned(input, l) && Observes(input, own) && Held(own)
    requires UniqueNodes(input.statuses) && FollowsOwner(input, 3, 0) && FollowsOwner(input, 3, 1)
    ensures 0 !in l.primaryOf
  {
    hide Planned, Observes, Candidate, Home, FollowsOwner, UniqueNodes;
    EveryPlanHasTwoOwners(input, own, l);
    PlanIsWellFormed(input, l);
    var index := PlanGoesByHomes(input, l);
    var claims := OwnerShards(input, l);
    forall p: Pod | p < 3 ensures Home(input, index, claims, p).Some? && !Candidate(input, index, claims, 0, p) {
      if p == 2 {
        OwnerHome(input, index, claims, p);
      } else {
        FollowerIsCandidate(input, index, claims, 3, p);
        CandidateHome(input, index, claims, 1, p);
        if Candidate(input, index, claims, 0, p) { CandidateHome(input, index, claims, 0, p); }
      }
    }
    NobodyLeads(input, l, index, 0);
  }

  lemma OwnerHome(input: Input, index: map<string, Pod>, claims: map<Pod, nat>, p: Pod)
    requires p in claims
    ensures Home(input, index, claims, p).Some? && forall s :: !Candidate(input, index, claims, s, p)
  {
  }
}
