/** A cluster in which a move into a shard that is handing over is progress, but not by as much as was
    moved: the doomed owner, displaced by the heir, takes another shard from a surviving owner. */
module CostlyHandover {
  import opened Types
  import opened Slots
  import opened Matching
  import opened Displacement
  import opened Layout
  import opened Ownership
  import opened Convergence
  import opened HandoverProgress
  import opened Stall
  import opened StalledHandover
  import opened ReplicaMoves
  import opened Reshard

  const REPORTS: Statuses := map[
    0 := InstanceStatus(true, Master, "n0", "", false, []),
    1 := InstanceStatus(true, Master, "n1", "", false,
      [SlotRange(0, 2999), SlotRange(5462, 10922), SlotRange(12923, 14883)]),
    2 := InstanceStatus(true, Master, "n2", "", false, [SlotRange(14884, 16383)]),
    3 := InstanceStatus(true, Master, "n3", "", false, [SlotRange(3000, 5461), SlotRange(10923, 12922)])]

  /** Pods 0, 1 and 2 are to stay, pod 3 is to go. */
  const COSTLY := Input(3, 3, 0, map[0 := LISTED, 1 := LISTED, 2 := LISTED, 3 := LISTED], REPORTS)

  function Keeper(x: int): Pod {
    if x <= 2999 then 1 else if x <= 5461 then 3 else if x <= 10922 then 1
    else if x <= 12922 then 3 else if x <= 14883 then 1 else 2
  }

  /** Every slot is owned, by its keeper. */
  ghost predicate Kept(own: Owner) {
    && (forall x :: x in own <==> 0 <= x < SLOTS)
    && (forall x :: x in own ==> own[x] == Keeper(x))
  }

  lemma ServesIsKeeping(p: Pod, x: int)
    ensures Serves(StatusOf(REPORTS, p), x) <==> 0 <= x < SLOTS && Keeper(x) == p
  {
    var served := StatusOf(REPORTS, p).slotsServed;
    if p == 1 {
      assert served[0].Contains(x) <==> 0 <= x <= 2999;
      assert served[1].Contains(x) <==> 5462 <= x <= 10922;
      assert served[2].Contains(x) <==> 12923 <= x <= 14883;
    } else if p == 2 {
      assert served[0].Contains(x) <==> 14884 <= x <= 16383;
    } else if p == 3 {
      assert served[0].Contains(x) <==> 3000 <= x <= 5461;
      assert served[1].Contains(x) <==> 10923 <= x <= 12922;
    }
  }

  lemma ReportsAreSound(p: Pod)
    ensures SoundRanges(StatusOf(REPORTS, p).slotsServed)
  {
  }

  lemma ReportsKeepers(own: Owner)
    requires Kept(own)
    ensures Observes(COSTLY, own)
  {
    hide Serves, SoundRanges, StatusOf;
    forall p: Pod ensures SoundRanges(StatusOf(REPORTS, p).slotsServed) { ReportsAreSound(p); }
    forall p: Pod, x ensures Serves(StatusOf(REPORTS, p), x) <==> Owns(own, p, x) { ServesIsKeeping(p, x); }
    assert forall x :: 0 <= x < SLOTS ==> COSTLY.Named(Keeper(x));
  }

  // ---------------------------------------------------------------- before

  function Part(p: Pod, s: nat): nat {
    if p == 1 then (if s == 0 then 3000 else if s == 1 then 5461 else 1961)
    else if p == 3 then (if s == 0 then 2462 else if s == 1 then 0 else 2000)
    else if p == 2 && s == 2 then 1500
    else 0
  }

  function From(p: Pod, s: nat): int {
    if s == 0 then (if p == 3 then 3000 else 0)
    else if s == 1 then 5462
    else if p == 1 then 12923 else if p == 2 then 14884 else 10923
  }

  lemma Parts(own: Owner, p: Pod, s: nat)
    requires Kept(own) && s < 3
    ensures Owned(own, 3, p, s) == Part(p, s)
  {
    Ranges();
    hide RangeStart;
    RunShare(own, 3, p, s, From(p, s), From(p, s) + Part(p, s) - 1);
  }

  const BEFORE := {OwnerMatch(3, 0, 2462), OwnerMatch(1, 1, 5461), OwnerMatch(2, 2, 1500)}

  lemma BeforeIsStable(own: Owner)
    requires Kept(own)
    ensures Stable(OwnMarket(own, 3), BEFORE)
  {
    hide Owned, OwnMarket, Kept;
    forall x | x in BEFORE ensures x in OwnMarket(own, 3) {
      Parts(own, x.pod, x.shard);
      assert InOwnMarket(own, 3, x);
    }
    forall x | x in OwnMarket(own, 3) ensures x in BEFORE || Beaten(BEFORE, x) {
      assert InOwnMarket(own, 3, x);
      Parts(own, x.pod, x.shard);
      assert OwnerMatch(3, 0, 2462) in BEFORE && OwnerMatch(1, 1, 5461) in BEFORE;
      if x !in BEFORE { assert x.pod == 1 || x.pod == 3; }
    }
  }

  // ---------------------------------------------------------------- after

  const AFTER := {OwnerMatch(0, 0, 3000), OwnerMatch(1, 1, 5461), OwnerMatch(3, 2, 2000)}

  lemma PartsAfter(own: Owner, p: Pod, s: nat)
    requires Kept(own) && s < 3
    ensures Owned(Reassigned(own, 0, 2999, 0), 3, p, s) ==
            if p == 0 && s == 0 then 3000 else if p == 1 && s == 0 then 0 else Part(p, s)
  {
    Ranges();
    hide RangeStart, Reassigned;
    var size := if p == 0 && s == 0 then 3000 else if p == 1 && s == 0 then 0 else Part(p, s);
    RunShare(Reassigned(own, 0, 2999, 0), 3, p, s, From(p, s), From(p, s) + size - 1);
  }

  lemma AfterIsStable(own: Owner)
    requires Kept(own)
    ensures Stable(OwnMarket(Reassigned(own, 0, 2999, 0), 3), AFTER)
  {
    hide Owned, OwnMarket, Kept, Reassigned;
    var own' := Reassigned(own, 0, 2999, 0);
    forall x | x in AFTER ensures x in OwnMarket(own', 3) {
      PartsAfter(own, x.pod, x.shard);
      assert InOwnMarket(own', 3, x);
    }
    forall x | x in OwnMarket(own', 3) ensures x in AFTER || Beaten(AFTER, x) {
      assert InOwnMarket(own', 3, x);
      PartsAfter(own, x.pod, x.shard);
      assert OwnerMatch(0, 0, 3000) in AFTER && OwnerMatch(3, 2, 2000) in AFTER && OwnerMatch(1, 1, 5461) in AFTER;
    }
  }

  // ---------------------------------------------------------------- the counts

  lemma WeightOfThree(claims: set<OwnerMatch>, a: OwnerMatch, b: OwnerMatch, c: OwnerMatch)
    requires Compatible(claims) && a in claims && b in claims && c in claims && a.shard == 0 && b.shard == 1
             && c.shard == 2
    ensures Weight(3, claims, 3) == (if a.pod < 3 then a.overlap else 0) + (if b.pod < 3 then b.overlap else 0)
                                  + (if c.pod < 3 then c.overlap else 0)
  {
    ValueOfClaim(3, claims, a);
    ValueOfClaim(3, claims, b);
    ValueOfClaim(3, claims, c);
    hide Value;
    assert Weight(3, claims, 1) == Value(3, claims, 0);
    assert Weight(3, claims, 2) == Value(3, claims, 0) + Value(3, claims, 1);
  }

  lemma CountIs(input: Input, own: Owner, l: ShardLayout, claims: set<OwnerMatch>)
    requires input.n == 3 && input.desired == 3 && Planned(input, l) && Observes(input, own)
    requires Stable(OwnMarket(own, 3), claims)
    ensures CorrectCount(own, 3, l) == Weight(3, claims, 3)
  {
    hide Planned, Observes, Stable, OwnMarket, CorrectCount, Weight;
    var behind := ClaimsBehind(input, own, l);
    StableIsUnique(OwnMarket(own, 3), claims, behind);
    CorrectIsWeight(input, own, l, behind);
  }

  lemma KeepersAreThree(own: Owner)
    requires Kept(own)
    ensures Handing(own, BEFORE)
  {
    hide Stable;
    BeforeIsStable(own);
    assert OwnerMatch(3, 0, 2462) in BEFORE && OwnerMatch(1, 1, 5461) in BEFORE && OwnerMatch(2, 2, 1500) in BEFORE;
    assert Owns(own, 1, 0) && Owns(own, 2, 16383) && Owns(own, 3, 3000);
    forall p | OwnsSome(own, p) ensures p in {1, 2, 3} {
      var x :| Owns(own, p, x);
    }
  }

  lemma CostlyIsReachable()
    ensures COSTLY.DesiredReachable()
  {
    forall p: Pod | p < 3 ensures COSTLY.Reachable(p) { assert p in {0, 1, 2}; }
  }

  /** Every pass over this cluster sends the 3000 slots to the heir. */
  lemma PassMigratesThem(own: Owner, l: ShardLayout, table: seq<Option<Pod>>, action: Action)
    requires Kept(own) && PlanResult(COSTLY, l) && OwnerTable(REPORTS, table) && Outcome(COSTLY, l, table, action)
    ensures action == Migrate(1, 0, 0, 2999)
  {
    hide PlanResult, OwnerTable, Observes, Handing, Outcome;
    ReportsKeepers(own);
    KeepersAreThree(own);
    CostlyIsReachable();
    assert Misplaced(own, 2999);
    PassMigrates(COSTLY, own, BEFORE, l, table, action, 2999);
  }

  /** 3000 slots go to the heir of shard 0, more than the doomed pod 3 holds of it; but pod 3 then takes
      shard 2 from pod 2, whose 1500 correct slots are correct no longer. The count rises from 6961 to
      8461, by half of what was moved. */
  lemma CorrectSlotsAreLost(own: Owner, l: ShardLayout, input': Input, l': ShardLayout)
    requires Kept(own) && Planned(COSTLY, l) && input'.n == 3 && input'.desired == 3
    requires Planned(input', l') && Observes(input', Reassigned(own, 0, 2999, 0))
    ensures l.HandingOver(0) && l.ownerOf[0] == 3 && l.IsPrimaryOf(0, 0) && Owned(own, 3, 3, 0) <= 3000
    ensures CorrectCount(own, 3, l) == 6961 && CorrectCount(Reassigned(own, 0, 2999, 0), 3, l') == 8461
  {
    hide Planned, Observes, Owned, Reassigned, CorrectCount, Handing, Stable, OwnMarket, Weight, Kept;
    ReportsKeepers(own);
    KeepersAreThree(own);
    EveryPlanHandsOver(COSTLY, own, BEFORE, l);
    Parts(own, 3, 0);
    BeforeIsStable(own);
    AfterIsStable(own);
    CountIs(COSTLY, own, l, BEFORE);
    CountIs(input', Reassigned(own, 0, 2999, 0), l', AFTER);
    WeightOfThree(BEFORE, OwnerMatch(3, 0, 2462), OwnerMatch(1, 1, 5461), OwnerMatch(2, 2, 1500));
    WeightOfThree(AFTER, OwnerMatch(0, 0, 3000), OwnerMatch(1, 1, 5461), OwnerMatch(3, 2, 2000));
  }
}
