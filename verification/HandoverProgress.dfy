/** Moving slots into a shard whose owner is doomed, followed through the displacement it may set off. */
module HandoverProgress {
  import opened Types
  import opened Slots
  import opened Counting
  import opened Matching
  import opened Displacement
  import opened Layout
  import opened PlanFacts
  import opened Ownership
  import opened Convergence

  // ---------------------------------------------------------------- correct slots are what survivors claim

  lemma ShardIsValue(input: Input, own: Owner, l: ShardLayout, claims: set<OwnerMatch>, s: nat)
    requires input.Valid() && Planned(input, l) && Observes(input, own) && Claiming(own, input.n, l, claims)
    requires s < input.n
    ensures Count(x => Correct(own, input.n, l, x), RangeStart(input.n, s), RangeStart(input.n, s + 1))
         == Value(input.desired, claims, s)
  {
    hide Planned, Observes, RangeStart, Count, OwnMarket, Correct;
    var first, last := RangeStart(input.n, s), RangeStart(input.n, s + 1);
    var f := x => Correct(own, input.n, l, x);
    if c :| Counted(input.desired, claims, s, c) {
      ValueOfClaim(input.desired, claims, c);
      assert c.overlap == Owned(own, input.n, c.pod, s) by { assert InOwnMarket(own, input.n, c); }
      forall x | first <= x < last ensures f(x) == Owns(own, c.pod, x) {
        CorrectInShard(input, own, l, claims, s, x);
        if Owns(own, c.pod, x) { assert c in claims; }
        assert forall y :: y in claims && y.shard == s ==> Rivals(y, c);
      }
      CountSame(f, x => Owns(own, c.pod, x), first, last);
    } else {
      forall c | c in claims && c.shard == s ensures c.pod >= input.desired {
        assert !Counted(input.desired, claims, s, c);
      }
      forall x | first <= x < last ensures !f(x) { CorrectInShard(input, own, l, claims, s, x); }
      CountSame(f, x => false, first, last);
      CountNone(first, last);
    }
  }

  lemma CorrectInShard(input: Input, own: Owner, l: ShardLayout, claims: set<OwnerMatch>, s: nat, x: int)
    requires input.Valid() && Planned(input, l) && Observes(input, own) && Claiming(own, input.n, l, claims)
    requires s < input.n && RangeStart(input.n, s) <= x < RangeStart(input.n, s + 1)
    ensures Correct(own, input.n, l, x) <==> x in own && own[x] < input.desired && ClaimedBy(claims, own[x], s)
  {
    hide Planned, Observes, OwnMarket;
    RangesPartition(input.n, x, s);
    if x in own { CorrectIsClaimed(input, own, l, claims, x); }
  }

  lemma {:induction false} CorrectBelow(input: Input, own: Owner, l: ShardLayout, claims: set<OwnerMatch>, k: nat)
    requires input.Valid() && Planned(input, l) && Observes(input, own) && Claiming(own, input.n, l, claims)
    requires k <= input.n
    ensures Count(x => Correct(own, input.n, l, x), 0, RangeStart(input.n, k)) == Weight(input.desired, claims, k)
  {
    hide Planned, Observes, RangeStart, Claiming, Correct, Value, Count;
    RangeEnds(input.n);
    if k == 0 {
      CountNothing(x => Correct(own, input.n, l, x));
    } else {
      CorrectBelow(input, own, l, claims, k - 1);
      ShardIsValue(input, own, l, claims, k - 1);
      RangeMonotone(input.n, 0, k - 1);
      RangeMonotone(input.n, k - 1, k);
      CountJoin(x => Correct(own, input.n, l, x), 0, RangeStart(input.n, k - 1), RangeStart(input.n, k));
    }
  }

  lemma CountNothing(f: int -> bool)
    ensures Count(f, 0, 0) == 0
  {
  }

  /** The number of correct slots is the weight of the claims behind the plan. */
  lemma CorrectIsWeight(input: Input, own: Owner, l: ShardLayout, claims: set<OwnerMatch>)
    requires input.Valid() && Planned(input, l) && Observes(input, own) && Claiming(own, input.n, l, claims)
    ensures CorrectCount(own, input.n, l) == Weight(input.desired, claims, input.n)
  {
    hide Planned, Observes, RangeStart, Claiming, Correct, Weight, Count;
    CorrectBelow(input, own, l, claims, input.n);
    RangeEnds(input.n);
  }

  // ---------------------------------------------------------------- the heir arrives

  /** In the market after the move the old claims are stable but for the heir, which can win exactly
      the shard it received slots of. */
  lemma HeirArrives(own: Owner, n: nat, claims: set<OwnerMatch>, shard: nat, lo: int, hi: int, heir: Pod, owner: Pod)
    requires n > 0 && Stable(OwnMarket(own, n), claims) && Segment(n, shard, lo, hi) && heir < owner
    requires (forall x :: !Owns(own, heir, x)) && forall x :: lo <= x <= hi ==> !Owns(own, owner, x)
    requires Owned(own, n, owner, shard) <= hi - lo + 1 && forall y :: y in claims && y.shard == shard ==>
               y.pod == owner
    ensures var market := OwnMarket(Reassigned(own, lo, hi, heir), n);
            && Positive(market, n) && StableBut(market, claims, heir)
            && Winnable(market, claims, heir) == {OwnerMatch(heir, shard, hi - lo + 1)}
  {
    hide Owned, Reassigned, OwnMarket;
    var own', gain := Reassigned(own, lo, hi, heir), OwnerMatch(heir, shard, hi - lo + 1);
    var market, market' := OwnMarket(own, n), OwnMarket(own', n);
    forall y | y in claims ensures y in market' && y.pod != heir {
      ClaimStays(own, n, shard, lo, hi, heir, owner, y);
    }
    forall x | x in market' && x !in claims && x.pod != heir ensures Beaten(claims, x) {
      StillBeaten(own, n, claims, shard, lo, hi, heir, owner, x);
    }
    HeirOverlap(own, n, shard, lo, hi, heir, shard);
    assert InOwnMarket(own', n, gain);
    forall y | y in claims && Rivals(y, gain) ensures !Ahead(y, gain) { assert InOwnMarket(own, n, y); }
    forall x | x in Winnable(market', claims, heir)
      ensures x == gain { HeirOverlap(own, n, shard, lo, hi, heir, x.shard); }
  }

  lemma ClaimStays(own: Owner, n: nat, shard: nat, lo: int, hi: int, heir: Pod, owner: Pod, y: OwnerMatch)
    requires n > 0 && Segment(n, shard, lo, hi) && heir != owner && y in OwnMarket(own, n)
             && (y.shard == shard ==> y.pod == owner)
    requires (forall x :: !Owns(own, heir, x)) && forall x :: lo <= x <= hi ==> !Owns(own, owner, x)
    ensures y in OwnMarket(Reassigned(own, lo, hi, heir), n) && y.pod != heir
  {
    hide Reassigned, OwnMarket, RangeStart;
    assert InOwnMarket(own, n, y);
    var slot := CountWitness(x => Owns(own, y.pod, x), RangeStart(n, y.shard), RangeStart(n, y.shard + 1));
    OwnedAfter(own, n, shard, lo, hi, heir, y.pod, y.shard);
    DoomedOverlap(own, n, shard, lo, hi, heir, owner, y.shard);
  }

  lemma StillBeaten(own: Owner, n: nat, claims: set<OwnerMatch>, shard: nat, lo: int, hi: int, heir: Pod, owner: Pod,
                    x: OwnerMatch)
    requires n > 0 && Stable(OwnMarket(own, n), claims) && Segment(n, shard, lo, hi) && heir != owner
    requires (forall y :: lo <= y <= hi ==> !Owns(own, owner, y)) && forall y :: y in claims && y.shard == shard ==>
               y.pod == owner
    requires x in OwnMarket(Reassigned(own, lo, hi, heir), n) && x !in claims && x.pod != heir
    ensures Beaten(claims, x)
  {
    hide Owned, Reassigned, OwnMarket;
    var own' := Reassigned(own, lo, hi, heir);
    assert InOwnMarket(own', n, x);
    OwnedAfter(own, n, shard, lo, hi, heir, x.pod, x.shard);
    DoomedOverlap(own, n, shard, lo, hi, heir, owner, x.shard);
    var y := OwnerMatch(x.pod, x.shard, Owned(own, n, x.pod, x.shard));
    assert InOwnMarket(own, n, y);
    assert y !in claims;
    var z :| z in claims && Rivals(z, y) && Ahead(z, y);
    assert Rivals(z, x) && Ahead(z, x);
  }

  // ---------------------------------------------------------------- progress

  /** A segment of a shard that is handing over goes to its heir, and the next pass plans afresh. */
  ghost predicate IntoHandover(input: Input, own: Owner, l: ShardLayout, shard: nat, lo: int, hi: int, input': Input,
                               l': ShardLayout) {
    && input.Valid() && Planned(input, l) && Observes(input, own)
    && Segment(input.n, shard, lo, hi) && shard in l.primaryOf && l.HandingOver(shard)
    && (forall x :: lo <= x <= hi ==> !Owns(own, l.ownerOf[shard], x))
    && input'.Valid() && input'.n == input.n && input'.desired == input.desired
    && Planned(input', l') && Observes(input', Reassigned(own, lo, hi, l.primaryOf[shard]))
  }

  /** The facts about heir and owner that the market needs. */
  lemma HeirAndOwner(input: Input, own: Owner, l: ShardLayout, claims: set<OwnerMatch>, shard: nat)
    requires input.Valid() && Planned(input, l) && Observes(input, own) && shard in l.primaryOf && l.HandingOver(shard)
    requires Claiming(own, input.n, l, claims)
    ensures l.primaryOf[shard] < input.desired <= l.ownerOf[shard]
    ensures forall x :: !Owns(own, l.primaryOf[shard], x)
    ensures forall y :: y in claims && y.shard == shard ==> y.pod == l.ownerOf[shard]
  {
    hide Planned, Observes, OwnMarket;
    PlanIsWellFormed(input, l);
    forall x ensures !Owns(own, l.primaryOf[shard], x) { HeirOwnsNothing(input, own, l, shard, x); }
  }

  lemma HandoverGains(input: Input, own: Owner, l: ShardLayout, shard: nat, lo: int, hi: int, input': Input,
                      l': ShardLayout)
    requires IntoHandover(input, own, l, shard, lo, hi, input', l')
    requires Owned(own, input.n, l.ownerOf[shard], shard) <= hi - lo + 1
    ensures CorrectCount(Reassigned(own, lo, hi, l.primaryOf[shard]), input.n, l') > CorrectCount(own, input.n, l)
  {
    hide Planned, Observes, Owned, Reassigned, CorrectCount, Weight, OwnMarket, Stable, StableBut, Winnable;
    var heir, owner := l.primaryOf[shard], l.ownerOf[shard];
    var own' := Reassigned(own, lo, hi, heir);
    var claims := ClaimsBehind(input, own, l);
    var claims' := ClaimsBehind(input', own', l');
    HeirAndOwner(input, own, l, claims, shard);
    HeirArrives(own, input.n, claims, shard, lo, hi, heir, owner);
    ArrivalGains(input.desired, input.n, OwnMarket(own', input.n), claims, OwnerMatch(heir, shard, hi - lo + 1),
      claims');
    CorrectIsWeight(input, own, l, claims);
    CorrectIsWeight(input', own', l', claims');
  }

  /** Exactly when moving slots into a shard that is handing over is of use. If and only if the segment is
      at least as long as what the doomed owner holds of the shard, the number of correct slots grows, the
      heir leads the shard in the next plan, and the moved slots are correct there. Correct slots may be
      lost on the way, but always fewer than are gained. */
  lemma MigrationIntoHandover(input: Input, own: Owner, l: ShardLayout, shard: nat, lo: int, hi: int, input': Input,
                              l': ShardLayout)
    requires IntoHandover(input, own, l, shard, lo, hi, input', l')
    ensures CorrectCount(Reassigned(own, lo, hi, l.primaryOf[shard]), input.n, l') > CorrectCount(own, input.n, l) <==>
            Owned(own, input.n, l.ownerOf[shard], shard) <= hi - lo + 1
    ensures l'.IsPrimaryOf(l.primaryOf[shard], shard) <==> Owned(own, input.n, l.ownerOf[shard], shard) <= hi - lo + 1
    ensures forall x :: lo <= x <= hi ==>
              (Correct(Reassigned(own, lo, hi, l.primaryOf[shard]), input.n, l', x) <==>
                l'.IsPrimaryOf(l.primaryOf[shard], shard))
  {
    hide Planned, Observes, Owned, Reassigned, CorrectCount;
    if Owned(own, input.n, l.ownerOf[shard], shard) <= hi - lo + 1 {
      HeirTakesOver(input, own, l, shard, lo, hi, input', l');
      HandoverGains(input, own, l, shard, lo, hi, input', l');
    } else {
      NoProgressIntoHandover(input, own, l, shard, lo, hi, input', l');
    }
    forall x | lo <= x <= hi
      ensures Correct(Reassigned(own, lo, hi, l.primaryOf[shard]), input.n, l', x) <==>
              l'.IsPrimaryOf(l.primaryOf[shard], shard)
    {
      RangesPartition(input.n, x, shard);
    }
  }

  /** On each other shard the doomed owner has part of, the pod that owns the shard ranks ahead of it. */
  ghost predicate WinsNothingElse(own: Owner, n: nat, l: ShardLayout, shard: nat)
    requires n > 0 && shard in l.ownerOf
  {
    forall t: nat :: t < n && t != shard && Owned(own, n, l.ownerOf[shard], t) > 0 ==>
      && t in l.ownerOf && Owned(own, n, l.ownerOf[t], t) > 0
      && Ahead(OwnerMatch(l.ownerOf[t], t, Owned(own, n, l.ownerOf[t], t)),
               OwnerMatch(l.ownerOf[shard], t, Owned(own, n, l.ownerOf[shard], t)))
  }

  lemma OwnerIsLost(input: Input, own: Owner, l: ShardLayout, claims: set<OwnerMatch>, shard: nat, lo: int, hi: int,
                    heir: Pod, z: OwnerMatch)
    requires input.Valid() && Planned(input, l) && Observes(input, own) && Claiming(own, input.n, l, claims)
    requires Segment(input.n, shard, lo, hi) && shard in l.ownerOf && heir != l.ownerOf[shard]
    requires forall x :: lo <= x <= hi ==> !Owns(own, l.ownerOf[shard], x)
    requires WinsNothingElse(own, input.n, l, shard) && z.pod == l.ownerOf[shard] && z.shard == shard
    ensures Lost(OwnMarket(Reassigned(own, lo, hi, heir), input.n), claims, z)
  {
    hide Planned, Observes, Owned, Reassigned, OwnMarket, Stable;
    var own' := Reassigned(own, lo, hi, heir);
    forall y | y in OwnMarket(own', input.n) && y.pod == z.pod && y.shard != shard
      ensures exists w :: w in claims && w.shard == y.shard && Ahead(w, y)
    {
      assert InOwnMarket(own', input.n, y);
      DoomedOverlap(own, input.n, shard, lo, hi, heir, z.pod, y.shard);
      DoomedOwnerClaims(input, own, l, claims, y.shard);
    }
  }

  /** When the doomed owner can win no other shard, nothing is lost: the count grows by exactly the segment. */
  lemma ExactProgressIntoHandover(input: Input, own: Owner, l: ShardLayout, shard: nat, lo: int, hi: int,
                                  input': Input, l': ShardLayout)
    requires IntoHandover(input, own, l, shard, lo, hi, input', l')
    requires Owned(own, input.n, l.ownerOf[shard], shard) <= hi - lo + 1 && WinsNothingElse(own, input.n, l, shard)
    ensures CorrectCount(Reassigned(own, lo, hi, l.primaryOf[shard]), input.n, l') ==
            CorrectCount(own, input.n, l) + (hi - lo + 1)
  {
    hide Planned, Observes, Owned, Reassigned, CorrectCount, Weight, OwnMarket, Stable, StableBut, Winnable,
      WinsNothingElse, Lost;
    var heir, owner := l.primaryOf[shard], l.ownerOf[shard];
    var own' := Reassigned(own, lo, hi, heir);
    var claims := ClaimsBehind(input, own, l);
    var claims' := ClaimsBehind(input', own', l');
    HeirAndOwner(input, own, l, claims, shard);
    HeirArrives(own, input.n, claims, shard, lo, hi, heir, owner);
    forall z | z in claims && z.shard == shard ensures Lost(OwnMarket(own', input.n), claims, z) {
      OwnerIsLost(input, own, l, claims, shard, lo, hi, heir, z);
    }
    ArrivalGainsAll(input.desired, input.n, OwnMarket(own', input.n), claims, OwnerMatch(heir, shard, hi - lo + 1),
      claims');
    CorrectIsWeight(input, own, l, claims);
    CorrectIsWeight(input', own', l', claims');
  }
}
