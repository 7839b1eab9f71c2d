/** A cluster in which resharding makes no progress: three shards are wanted, the owner of the first is
    doomed, and the first slot of that shard is held by the owner of the second. */
module StalledHandover {
  import opened Types
  import opened Slots
  import opened Matching
  import opened Layout
  import opened PlanFacts
  import opened Totality
  import opened ReplicaMoves
  import opened Ownership
  import opened Convergence
  import opened Reshard
  import opened ReshardRuns
  import opened Stall

  const LISTED := PodMeta(None, false, true)

  const STATUSES: Statuses := map[
    0 := InstanceStatus(true, Master, "n0", "", false, []),
    1 := InstanceStatus(true, Master, "n1", "", false, [SlotRange(0, 0), SlotRange(5462, 10922)]),
    2 := InstanceStatus(true, Master, "n2", "", false, [SlotRange(10923, 16383)]),
    3 := InstanceStatus(true, Master, "n3", "", false, [SlotRange(1, 5461)])]

  /** Pods 0, 1 and 2 are to stay, pod 3 is to go. */
  const STALLED := Input(3, 3, 0, map[0 := LISTED, 1 := LISTED, 2 := LISTED, 3 := LISTED], STATUSES)

  function Holder(x: int): Pod {
    if x == 0 then 1 else if x <= 5461 then 3 else if x <= 10922 then 1 else 2
  }

  /** Every slot is owned, by its holder. */
  ghost predicate Held(own: Owner) {
    && (forall x :: x in own <==> 0 <= x < SLOTS)
    && (forall x :: x in own ==> own[x] == Holder(x))
  }

  lemma {:induction false} HoldersBelow(k: nat) returns (own: Owner)
    ensures forall x :: x in own <==> 0 <= x < k
    ensures forall x :: x in own ==> own[x] == Holder(x)
  {
    if k == 0 {
      own := map[];
    } else {
      own := HoldersBelow(k - 1);
      own := own[k - 1 := Holder(k - 1)];
    }
  }

  lemma Ranges()
    ensures RangeStart(3, 0) == 0 && RangeStart(3, 1) == 5462 && RangeStart(3, 2) == 10923 && RangeStart(3, 3) == 16384
  {
  }

  lemma ServesIsHolding(p: Pod, x: int)
    ensures Serves(StatusOf(STATUSES, p), x) <==> 0 <= x < SLOTS && Holder(x) == p
  {
    var served := StatusOf(STATUSES, p).slotsServed;
    if p == 1 {
      assert served[0].Contains(x) <==> x == 0;
      assert served[1].Contains(x) <==> 5462 <= x <= 10922;
    } else if p == 2 {
      assert served[0].Contains(x) <==> 10923 <= x <= 16383;
    } else if p == 3 {
      assert served[0].Contains(x) <==> 1 <= x <= 5461;
    }
  }

  lemma RangesAreSound(p: Pod)
    ensures SoundRanges(StatusOf(STATUSES, p).slotsServed)
  {
  }

  lemma ReportsHolders(own: Owner)
    requires Held(own)
    ensures Observes(STALLED, own)
  {
    hide Serves, SoundRanges, StatusOf;
    forall p: Pod ensures SoundRanges(StatusOf(STATUSES, p).slotsServed) { RangesAreSound(p); }
    forall p: Pod, x ensures Serves(StatusOf(STATUSES, p), x) <==> Owns(own, p, x) { ServesIsHolding(p, x); }
    assert forall x :: 0 <= x < SLOTS ==> STALLED.Named(Holder(x));
  }

  /** Who holds how much of each shard. */
  function Share(p: Pod, s: nat): nat {
    if p == 3 && s == 0 then 5461 else if p == 1 && s == 0 then 1 else if p == s && 0 < s < 3 then 5461 else 0
  }

  /** What pod `p` holds of shard `s` is one run. */
  function Lowest(p: Pod, s: nat): int {
    if p == 3 && s == 0 then 1 else if s == 0 then 0 else if s == 1 then 5462 else 10923
  }

  lemma Shares(own: Owner, p: Pod, s: nat)
    requires Held(own) && s < 3
    ensures Owned(own, 3, p, s) == Share(p, s)
  {
    Ranges();
    hide RangeStart;
    RunShare(own, 3, p, s, Lowest(p, s), Lowest(p, s) + Share(p, s) - 1);
  }

  const CLAIMS := {OwnerMatch(3, 0, 5461), OwnerMatch(1, 1, 5461), OwnerMatch(2, 2, 5461)}

  /** Pods 3, 1 and 2 claim shards 0, 1 and 2. */
  lemma ClaimsAreStable(own: Owner)
    requires Held(own)
    ensures Stable(OwnMarket(own, 3), CLAIMS)
  {
    hide Owned, OwnMarket, Held;
    forall x | x in CLAIMS ensures x in OwnMarket(own, 3) {
      Shares(own, x.pod, x.shard);
      assert InOwnMarket(own, 3, x);
    }
    forall x | x in OwnMarket(own, 3) ensures x in CLAIMS || Beaten(CLAIMS, x) {
      assert InOwnMarket(own, 3, x);
      Shares(own, x.pod, x.shard);
      if x !in CLAIMS { assert x.shard == 0 && Rivals(OwnerMatch(3, 0, 5461), x); }
    }
  }

  // ---------------------------------------------------------------- three shards, the first held by pod 3

  /** Pods 1 and 2 claim their shards, the doomed pod 3 claims the first, and nobody else owns slots. */
  ghost predicate Handing(own: Owner, claims: set<OwnerMatch>) {
    && Stable(OwnMarket(own, 3), claims)
    && ClaimedBy(claims, 3, 0) && ClaimedBy(claims, 1, 1) && ClaimedBy(claims, 2, 2)
    && (forall p :: OwnsSome(own, p) <==> p in {1, 2, 3})
  }

  /** Every plan for such a cluster gives shard 0 to the doomed pod 3 and names pod 0 as its heir. */
  lemma EveryPlanHandsOver(input: Input, own: Owner, claims: set<OwnerMatch>, l: ShardLayout)
    requires input.n == 3 && input.desired == 3 && Planned(input, l) && Observes(input, own) && Handing(own, claims)
    ensures l.HandingOver(0) && l.ownerOf[0] == 3 && l.IsPrimaryOf(0, 0)
    ensures l.IsPrimaryOf(1, 1) && l.IsPrimaryOf(2, 2)
  {
    hide Planned, Observes, Stable, OwnMarket, SlotOwners;
    var behind := ClaimsBehind(input, own, l);
    StableIsUnique(OwnMarket(own, 3), claims, behind);
    assert ClaimedBy(behind, 3, 0) && ClaimedBy(behind, 1, 1) && ClaimedBy(behind, 2, 2);
    SlotOwnersAreThree(input, own, l);
    SurvivorTotality(input, l);
    PlanIsWellFormed(input, l);
    assert l.Placed(l.primaryOf[0], 0) && l.Placed(l.primaryOf[1], 1) && l.Placed(l.primaryOf[2], 2);
  }

  lemma SlotOwnersAreThree(input: Input, own: Owner, l: ShardLayout)
    requires input.Valid() && Planned(input, l) && Observes(input, own) && forall p :: OwnsSome(own, p) <==>
             p in {1, 2, 3}
    ensures SlotOwners(input, l) == {1, 2, 3} && |SlotOwners(input, l)| == 3
  {
    hide Planned, Observes;
    PlanIsWellFormed(input, l);
    forall p ensures p in SlotOwners(input, l) <==> p in {1, 2, 3} {
      OwnerServes(input, own, p);
      assert OwnsSome(own, p) <==> p in {1, 2, 3};
    }
    assert SlotOwners(input, l) == {1, 2, 3};
  }

  lemma HoldersAreThree(own: Owner)
    requires Held(own)
    ensures Handing(own, CLAIMS)
  {
    hide Stable;
    ClaimsAreStable(own);
    assert OwnerMatch(3, 0, 5461) in CLAIMS && OwnerMatch(1, 1, 5461) in CLAIMS && OwnerMatch(2, 2, 5461) in CLAIMS;
    assert Owns(own, 1, 0) && Owns(own, 2, 10923) && Owns(own, 3, 1);
    forall p | OwnsSome(own, p) ensures p in {1, 2, 3} {
      var x :| Owns(own, p, x);
    }
  }

  /** Pod 1 holds the slots up to `last` and pod 3 the next one. */
  ghost predicate Misplaced(own: Owner, last: nat) {
    last + 1 <= 5461 && (forall x :: 0 <= x <= last ==> Owns(own, 1, x)) && Owns(own, 3, last + 1)
  }

  /** When every desired pod can be reached, every pass over such a cluster sends those slots to the heir. */
  lemma PassMigrates(input: Input, own: Owner, claims: set<OwnerMatch>, l: ShardLayout, table: seq<Option<Pod>>,
                     action: Action, last: nat)
    requires input.n == 3 && input.desired == 3 && input.DesiredReachable()
    requires Observes(input, own) && Handing(own, claims)
    requires PlanResult(input, l) && OwnerTable(input.statuses, table) && Outcome(input, l, table, action)
    requires Misplaced(own, last)
    ensures action == Migrate(1, 0, 0, last)
  {
    hide PlanResult, OwnerTable, Observes, Handing;
    ResultIsPlanned(input, l);
    EveryPlanHandsOver(input, own, claims, Membership(l));
    TableLength(input.statuses, table);
    forall x | 0 <= x <= last ensures table[x] == Some(1) {
      TableIsOwnership(input, own, table, x);
      assert Owns(own, 1, x);
    }
    TableIsOwnership(input, own, table, last + 1);
    Ranges();
    RangesPartition(3, 0, 0);
    assert !InPlace(3, l, table, 0);
    NobodyBlocks(input, l);
    FirstSegmentStartsAtZero(input, l, table, action, last);
  }

  lemma NobodyBlocks(input: Input, l: ShardLayout)
    requires input.n == 3 && input.desired == 3 && input.DesiredReachable()
    requires l.IsPrimaryOf(0, 0) && l.IsPrimaryOf(1, 1) && l.IsPrimaryOf(2, 2)
    ensures Blocked(input, l).None?
  {
    forall s | 0 <= s < 3 ensures s in l.primaryOf && !Unreachable(input, l.primaryOf[s]) {
      assert l.primaryOf[s] == s;
    }
  }

  lemma FirstSegmentStartsAtZero(input: Input, l: ShardLayout, table: seq<Option<Pod>>, action: Action, last: nat)
    requires input.n == 3 && input.desired == 3 && input.DesiredReachable() && last + 1 <= 5461
    requires |table| == SLOTS && (forall x :: 0 <= x <= last ==> table[x] == Some(1)) && table[last + 1] == Some(3)
    requires l.IsPrimaryOf(0, 0) && !InPlace(3, l, table, 0) && Acts(input, l, table, action)
    ensures action == Migrate(1, 0, 0, last)
  {
    Ranges();
    hide RangeStart;
    var shard: nat, owner, lo, hi :| FirstSegment(3, l, table, shard, owner, lo, hi)
        && Decides(input, l, shard, owner, lo, hi, action);
    assert lo == 0;
    assert shard == 0 by { RangeMonotone(3, if shard > 0 then 1 else 0, shard); }
    assert owner == Some(1);
    assert table[last + 1] != owner;
    assert hi == last;
    assert input.Reachable(1);
  }

  lemma StalledIsReachable()
    ensures STALLED.DesiredReachable()
  {
    forall p: Pod | p < 3 ensures STALLED.Reachable(p) { assert p in {0, 1, 2}; }
  }

  /** The pass finds slot 0 out of place and sends it to the heir. */
  lemma PassMigratesSlotZero(own: Owner, l: ShardLayout, table: seq<Option<Pod>>, action: Action)
    requires Held(own) && PlanResult(STALLED, l) && OwnerTable(STATUSES, table) && Outcome(STALLED, l, table, action)
    ensures action == Migrate(1, 0, 0, 0)
  {
    hide PlanResult, OwnerTable, Observes, Handing, Outcome;
    ReportsHolders(own);
    HoldersAreThree(own);
    StalledIsReachable();
    assert Misplaced(own, 0);
    PassMigrates(STALLED, own, CLAIMS, l, table, action, 0);
  }

  /** Moving that slot gains nothing, whatever is observed and planned next. */
  lemma PassGainsNothing(own: Owner, l: ShardLayout, input': Input, l': ShardLayout)
    requires Held(own) && Planned(STALLED, l) && input'.Valid() && input'.n == 3 && input'.desired == 3
    requires Planned(input', l') && Observes(input', Reassigned(own, 0, 0, 0))
    ensures CorrectCount(Reassigned(own, 0, 0, 0), 3, l') == CorrectCount(own, 3, l)
    ensures !l'.IsPrimaryOf(0, 0)
  {
    hide Planned, Observes, Owned, Reassigned, CorrectCount, Handing;
    ReportsHolders(own);
    HoldersAreThree(own);
    EveryPlanHandsOver(STALLED, own, CLAIMS, l);
    Shares(own, 3, 0);
    Ranges();
    assert Segment(3, 0, 0, 0);
    assert !Owns(own, 3, 0);
    NoProgressIntoHandover(STALLED, own, l, 0, 0, 0, input', l');
  }

  /** And nothing ever moves again: in every run that goes on from there, every pass stops. */
  lemma StalledForever(own: Owner, owns: seq<Owner>, passes: seq<Pass>, k: nat)
    requires Held(own) && IsRun(3, 3, owns, passes) && k < |passes| && owns[0] == Reassigned(own, 0, 0, 0)
    ensures owns[k] == Reassigned(own, 0, 0, 0) && passes[k].action.Stop? && passes[k].moved == 0
  {
    hide IsRun, Held, Stuck;
    MoveIsStuck(own);
    StuckForever(3, 3, owns, passes, k);
  }

  /** Slot 0 has made pod 0 an owner, so no survivor is left to be the heir. */
  lemma MoveIsStuck(own: Owner)
    requires Held(own)
    ensures Stuck(3, 3, Reassigned(own, 0, 0, 0))
  {
    hide Owned, Reassigned, OwnMarket, Stable;
    var own' := Reassigned(own, 0, 0, 0);
    ClaimsAreStable(own);
    Shares(own, 3, 0);
    Ranges();
    hide RangeStart;
    ClaimsStand(own, 3, CLAIMS, 0, 0, 0, 0, 3);
    assert OwnerMatch(3, 0, 5461) in CLAIMS;
    assert Owns(own', 0, 0) && Owns(own', 1, 5462) && Owns(own', 2, 10923);
    forall p: Pod | p < 3 ensures OwnsSome(own',
      p) { assert Owns(own', p, if p == 0 then 0 else if p == 1 then 5462 else 10923); }
  }
}
