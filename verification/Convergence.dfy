/** Why resharding converges although every pass plans afresh: moving slots to the primary
    of a shard leaves every other claim as it was, so a slot once placed stays placed. */
module Convergence {
  import opened Types
  import opened Slots
  import opened Counting
  import opened Matching
  import opened Ranking
  import opened Layout
  import opened Claims
  import opened LayoutInvariant
  import opened PlanFacts
  import opened Totality
  import opened Ownership

  ghost predicate ClaimedBy(claims: set<OwnerMatch>, p: Pod, shard: nat) {
    exists x :: x in claims && x.pod == p && x.shard == shard
  }

  /** The stable claims behind a layout: a pod is placed, alone among owners, where it claims. */
  ghost predicate Claiming(own: Owner, n: nat, l: ShardLayout, claims: set<OwnerMatch>)
    requires n > 0
  {
    && Stable(OwnMarket(own, n), claims)
    && forall x :: x in claims ==> l.Placed(x.pod, x.shard) && x.shard in l.ownerOf && l.ownerOf[x.shard] == x.pod
  }

  lemma ClaimsBehind(input: Input, own: Owner, l: ShardLayout) returns (claims: set<OwnerMatch>)
    requires input.Valid() && Planned(input, l) && Observes(input, own)
    ensures Claiming(own, input.n, l, claims)
  {
    hide WellFormed, PlannedWith, Observes, Market, Park, Stable, OwnersIn, OwnMarket;
    var ch :| PlannedWith(input, ch, l);
    PlannedClaims(input, ch, l);
    var owners := OwnersIn(input, ch.names);
    var base :| StableClaims(input, owners, base) && ch.claims == Park(base, owners);
    claims :| Stable(Market(input.statuses, PodSet(owners), input.n), claims) && Represents(base, claims);
    MarketIsOwnership(input, own, ch);
    forall x | x in claims ensures l.Placed(x.pod, x.shard) && x.shard in l.ownerOf && l.ownerOf[x.shard] == x.pod {
      ClaimIsKept(input, ch, l, base, x);
    }
  }

  lemma ClaimIsKept(input: Input, ch: Choices, l: ShardLayout, base: map<Pod, nat>, x: OwnerMatch)
    requires input.Valid() && PlannedWith(input, ch, l)
    requires StableClaims(input, OwnersIn(input, ch.names), base) && ch.claims == Park(base, OwnersIn(input, ch.names))
    requires x.pod in base && base[x.pod] == x.shard
    ensures l.Placed(x.pod, x.shard) && x.shard in l.ownerOf && l.ownerOf[x.shard] == x.pod
  {
    hide WellFormed, Attach, StableClaims;
    StableClaimsProperties(input, OwnersIn(input, ch.names), base);
    ParkProperties(base, OwnersIn(input, ch.names));
    OwnersKeepClaims(input, ch, l);
    FinalFacts(input, ch, l);
    assert ch.owned.ownerOf[ch.claims[x.pod]] == x.pod;
  }

  /** A pod that owns part of the shard it is placed at claims it. */
  lemma PlacedOwnerClaims(input: Input, own: Owner, l: ShardLayout, claims: set<OwnerMatch>, p: Pod, slot: int)
    requires input.Valid() && Planned(input, l) && Observes(input, own) && Claiming(own, input.n, l, claims)
    requires 0 <= slot < SLOTS && Owns(own, p, slot) && l.Placed(p, ShardOfSlot(input.n, slot))
    ensures ClaimedBy(claims, p, ShardOfSlot(input.n, slot))
  {
    hide Planned, Observes;
    var s := ShardOfSlot(input.n, slot);
    var x := OwnerMatch(p, s, Owned(own, input.n, p, s));
    CountSome(y => Owns(own, p, y), RangeStart(input.n, s), RangeStart(input.n, s + 1), slot);
    if x !in claims {
      var y :| y in claims && Rivals(y, x) && Ahead(y, x);
      OwnerServes(input, own, p);
      PlanIsWellFormed(input, l);
      assert false;
    }
  }

  /** A slot is where it should be exactly when its owner survives and claims its shard. */
  lemma CorrectIsClaimed(input: Input, own: Owner, l: ShardLayout, claims: set<OwnerMatch>, slot: int)
    requires input.Valid() && Planned(input, l) && Observes(input, own) && Claiming(own, input.n, l, claims)
    requires 0 <= slot < SLOTS && slot in own
    ensures Correct(own, input.n, l, slot) <==>
            own[slot] < input.desired && ClaimedBy(claims, own[slot], ShardOfSlot(input.n, slot))
  {
    var p, s := own[slot], ShardOfSlot(input.n, slot);
    PlanIsWellFormed(input, l);
    if l.IsPrimaryOf(p, s) {
      PlacedOwnerClaims(input, own, l, claims, p, slot);
    }
    if p < input.desired && ClaimedBy(claims, p, s) {
      OwnerServes(input, own, p);
      assert Owns(own, p, slot);
      assert l.IsPrimary(p);
    }
  }

  // ---------------------------------------------------------------- one pass

  /** The owners after the slots `lo..hi` have gone to a pod. */
  function Reassigned(own: Owner, lo: int, hi: int, to: Pod): (own': Owner)
    ensures forall x :: x in own' <==> x in own || lo <= x <= hi
    ensures forall x :: x in own' ==> own'[x] == if lo <= x <= hi then to else own[x]
    decreases if hi >= lo then hi - lo + 1 else 0
  {
    if hi < lo then own else Reassigned(own, lo, hi - 1, to)[hi := to]
  }

  /** The segment lies in the range of one shard. */
  ghost predicate Segment(n: nat, shard: nat, lo: int, hi: int)
    requires n > 0
  {
    shard < n && RangeOf(n, shard).start <= lo <= hi <= RangeOf(n, shard).end
  }

  lemma OwnedAfter(own: Owner, n: nat, shard: nat, lo: int, hi: int, to: Pod, p: Pod, s: nat)
    requires n > 0 && Segment(n, shard, lo, hi) && s < n
    ensures var own' := Reassigned(own, lo, hi, to);
            && (s != shard ==> Owned(own', n, p, s) == Owned(own, n, p, s))
            && (p != to ==> Owned(own', n, p, s) <= Owned(own, n, p, s))
            && (p == to ==> Owned(own', n, p, s) >= Owned(own, n, p, s))
            && Owned(own', n, to, shard) > 0
  {
    var own' := Reassigned(own, lo, hi, to);
    var f, f' := x => Owns(own, p, x), x => Owns(own', p, x);
    var first, last := RangeStart(n, s), RangeStart(n, s + 1);
    if s != shard {
      if s < shard { RangesBalanced(n, s, shard); } else { RangesBalanced(n, shard, s); }
      CountSame(f, f', first, last);
    } else if p == to {
      CountMore(f, f', first, last);
    } else {
      CountMore(f', f, first, last);
    }
    CountSome(x => Owns(own', to, x), RangeStart(n, shard), RangeStart(n, shard + 1), lo);
  }

  /** The primary of a shard that is not handing over is the only pod that can claim it. */
  lemma PrimaryClaimsItsShard(input: Input, own: Owner, l: ShardLayout, claims: set<OwnerMatch>, shard: nat)
    requires input.Valid() && Planned(input, l) && Claiming(own, input.n, l, claims)
    requires shard in l.primaryOf && !l.HandingOver(shard)
    ensures forall x :: x in claims ==> (x.pod == l.primaryOf[shard] <==> x.shard == shard)
  {
    hide Planned;
    PlanIsWellFormed(input, l);
  }

  /** The claims after slots of `shard` have gone to the pod that alone can claim it. */
  lemma ClaimsAfter(own: Owner, n: nat, claims: set<OwnerMatch>, shard: nat, lo: int, hi: int, to: Pod)
    requires n > 0 && Stable(OwnMarket(own, n), claims) && Segment(n, shard, lo, hi)
    requires forall x :: x in claims ==> (x.pod == to <==> x.shard == shard)
    ensures var own' := Reassigned(own, lo, hi, to);
            Stable(OwnMarket(own', n), Replaced(claims, OwnerMatch(to, shard, Owned(own', n, to, shard))))
  {
    hide Owned, Reassigned, OwnMarket;
    var own' := Reassigned(own, lo, hi, to);
    var gain := OwnerMatch(to, shard, Owned(own', n, to, shard));
    OwnedAfter(own, n, shard, lo, hi, to, to, shard);
    forall x | x in OwnMarket(own', n) && x != gain ensures Shrunk(OwnMarket(own, n), x) {
      OwnedAfter(own, n, shard, lo, hi, to, x.pod, x.shard);
      assert InOwnMarket(own, n, OwnerMatch(x.pod, x.shard, Owned(own, n, x.pod, x.shard)));
    }
    forall y | y in claims ensures y in OwnMarket(own', n) || (Rivals(y, gain) && y.overlap <= gain.overlap) {
      OwnedAfter(own, n, shard, lo, hi, to, y.pod, y.shard);
      assert InOwnMarket(own, n, y);
    }
    StableAfterGain(OwnMarket(own, n), claims, OwnMarket(own', n), gain);
  }

  /** After the move, a pod claims a shard exactly when it did before, except that the
      receiving pod now claims the shard it received slots of. */
  lemma ClaimedAfter(own: Owner, n: nat, claims: set<OwnerMatch>, shard: nat, lo: int, hi: int, to: Pod,
                     claims': set<OwnerMatch>, p: Pod, s: nat)
    requires n > 0 && Stable(OwnMarket(own, n), claims) && Segment(n, shard, lo, hi)
    requires forall x :: x in claims ==> (x.pod == to <==> x.shard == shard)
    requires Stable(OwnMarket(Reassigned(own, lo, hi, to), n), claims')
    ensures ClaimedBy(claims', p, s) <==> ClaimedBy(claims, p, s) || (p == to && s == shard)
  {
    hide Owned, Reassigned, OwnMarket, Stable;
    var own' := Reassigned(own, lo, hi, to);
    var gain := OwnerMatch(to, shard, Owned(own', n, to, shard));
    ClaimsAfter(own, n, claims, shard, lo, hi, to);
    StableIsUnique(OwnMarket(own', n), claims', Replaced(claims, gain));
  }

  /** Slots of one shard go to its primary; the next pass plans afresh from what it then observes.
      Exactly the moved slots become correct: no slot that was correct stops being so. */
  lemma MovedSlotsBecomeCorrect(input: Input, own: Owner, l: ShardLayout, shard: nat, lo: int, hi: int, input': Input,
                                l': ShardLayout, slot: int)
    requires input.Valid() && Planned(input, l) && Observes(input, own)
    requires Segment(input.n, shard, lo, hi) && shard in l.primaryOf && !l.HandingOver(shard)
    requires input'.Valid() && input'.n == input.n && input'.desired == input.desired
    requires Planned(input', l') && Observes(input', Reassigned(own, lo, hi, l.primaryOf[shard]))
    ensures Correct(Reassigned(own, lo, hi, l.primaryOf[shard]), input.n, l', slot)
       <==> Correct(own, input.n, l, slot) || lo <= slot <= hi
  {
    hide Planned, Observes, Stable;
    var to := l.primaryOf[shard];
    var own' := Reassigned(own, lo, hi, to);
    PlanIsWellFormed(input, l);
    var claims := ClaimsBehind(input, own, l);
    var claims' := ClaimsBehind(input', own', l');
    PrimaryClaimsItsShard(input, own, l, claims, shard);
    if 0 <= slot < SLOTS && slot in own' {
      var s := ShardOfSlot(input.n, slot);
      RangesPartition(input.n, slot, shard);
      ClaimedAfter(own, input.n, claims, shard, lo, hi, to, claims', own'[slot], s);
      CorrectIsClaimed(input', own', l', claims', slot);
      if !(lo <= slot <= hi) {
        CorrectIsClaimed(input, own, l, claims, slot);
        if own[slot] == to && s == shard {
          PlacedOwnerClaims(input, own, l, claims, to, slot);
        }
      }
    } else {
      RangesPartition(input.n, lo, shard);
      RangesPartition(input.n, hi, shard);
    }
  }

  /** Progress: the pass raises the number of correct slots, measured against the freshly planned
      layout, by exactly the number of misplaced slots it moved. */
  lemma MigrationProgress(input: Input, own: Owner, l: ShardLayout, shard: nat, lo: int, hi: int, input': Input,
                          l': ShardLayout)
    requires input.Valid() && Planned(input, l) && Observes(input, own)
    requires Segment(input.n, shard, lo, hi) && shard in l.primaryOf && !l.HandingOver(shard)
    requires forall x :: lo <= x <= hi ==> !Owns(own, l.primaryOf[shard], x)
    requires input'.Valid() && input'.n == input.n && input'.desired == input.desired
    requires Planned(input', l') && Observes(input', Reassigned(own, lo, hi, l.primaryOf[shard]))
    ensures CorrectCount(Reassigned(own, lo, hi, l.primaryOf[shard]), input.n, l') ==
            CorrectCount(own, input.n, l) + (hi - lo + 1)
  {
    hide Planned, Observes;
    var own' := Reassigned(own, lo, hi, l.primaryOf[shard]);
    var f, f' := x => Correct(own, input.n, l, x), x => Correct(own', input.n, l', x);
    var h := x => lo <= x <= hi;
    forall x ensures (f'(x) <==> f(x) || h(x)) && !(f(x) && h(x)) {
      MovedSlotsBecomeCorrect(input, own, l, shard, lo, hi, input', l', x);
      if h(x) {
        RangesPartition(input.n, x, shard);
        assert !Owns(own, l.primaryOf[shard], x);
      }
    }
    CountSplit(f', f, h, 0, SLOTS);
    CountRange(h, lo, hi, 0, SLOTS);
    RangesPartition(input.n, lo, shard);
    RangesPartition(input.n, hi, shard);
  }

  // ---------------------------------------------------------------- into a shard that is handing over

  /** A primary that is not the owner of its shard owns nothing. */
  lemma HeirOwnsNothing(input: Input, own: Owner, l: ShardLayout, shard: nat, x: int)
    requires input.Valid() && Planned(input, l) && Observes(input, own) && shard in l.primaryOf && l.HandingOver(shard)
    ensures !Owns(own, l.primaryOf[shard], x)
  {
    hide Planned, Observes;
    PlanIsWellFormed(input, l);
    OwnerServes(input, own, l.primaryOf[shard]);
  }

  lemma HeirCount(own: Owner, lo: int, hi: int, heir: Pod, first: int, last: int)
    requires lo <= hi && forall x :: !Owns(own, heir, x)
    ensures first <= lo && hi < last ==>
              Count(x => Owns(Reassigned(own, lo, hi, heir), heir, x), first, last) == hi - lo + 1
    ensures last <= lo || hi < first ==> Count(x => Owns(Reassigned(own, lo, hi, heir), heir, x), first, last) == 0
  {
    var h := x => lo <= x <= hi;
    forall x ensures Owns(Reassigned(own, lo, hi, heir), heir, x) <==> h(x) { assert !Owns(own, heir, x); }
    CountSame(x => Owns(Reassigned(own, lo, hi, heir), heir, x), h, first, last);
    CountRange(h, lo, hi, first, last);
  }

  lemma HeirOverlap(own: Owner, n: nat, shard: nat, lo: int, hi: int, heir: Pod, s: nat)
    requires n > 0 && Segment(n, shard, lo, hi) && s < n && forall x :: !Owns(own, heir, x)
    ensures Owned(Reassigned(own, lo, hi, heir), n, heir, s) == if s == shard then hi - lo + 1 else 0
  {
    hide RangeStart, Reassigned;
    HeirCount(own, lo, hi, heir, RangeStart(n, s), RangeStart(n, s + 1));
    if s < shard { RangesBalanced(n, s, shard); }
    if s > shard { RangesBalanced(n, shard, s); }
  }

  lemma DoomedOverlap(own: Owner, n: nat, shard: nat, lo: int, hi: int, heir: Pod, owner: Pod, s: nat)
    requires n > 0 && Segment(n, shard, lo, hi) && owner != heir && forall x :: lo <= x <= hi ==> !Owns(own, owner, x)
    ensures Owned(Reassigned(own, lo, hi, heir), n, owner, s) == Owned(own, n, owner, s)
  {
    CountSame(x => Owns(Reassigned(own, lo, hi, heir), owner, x), x =>
      Owns(own, owner, x), RangeStart(n, s), RangeStart(n, s + 1));
  }

  /** While a doomed owner holds more of its shard than the heir received, the claims do not change. */
  lemma ClaimsStand(own: Owner, n: nat, claims: set<OwnerMatch>, shard: nat, lo: int, hi: int, heir: Pod, owner: Pod)
    requires n > 0 && Stable(OwnMarket(own, n), claims) && Segment(n, shard, lo, hi) && owner != heir
    requires (forall x :: !Owns(own, heir, x)) && forall x :: lo <= x <= hi ==> !Owns(own, owner, x)
    requires OwnerMatch(owner, shard, Owned(own, n, owner, shard)) in claims
             && Owned(own, n, owner, shard) > hi - lo + 1
    ensures Stable(OwnMarket(Reassigned(own, lo, hi, heir), n), claims)
  {
    hide Owned, Reassigned, OwnMarket;
    var own', claim := Reassigned(own, lo, hi, heir), OwnerMatch(owner, shard, Owned(own, n, owner, shard));
    forall y | y in claims ensures y in OwnMarket(own', n) {
      assert InOwnMarket(own, n, y);
      OwnedAfter(own, n, shard, lo, hi, heir, y.pod, y.shard);
      DoomedOverlap(own, n, shard, lo, hi, heir, owner, y.shard);
      assert y.shard == shard ==> Rivals(y, claim);
    }
    forall x | x in OwnMarket(own', n) ensures Shrunk(OwnMarket(own, n), x) || Beaten(claims, x) {
      OwnedAfter(own, n, shard, lo, hi, heir, x.pod, x.shard);
      HeirOverlap(own, n, shard, lo, hi, heir, x.shard);
      if x.pod == heir {
        assert Rivals(claim, x) && Ahead(claim, x);
      } else {
        assert InOwnMarket(own, n, OwnerMatch(x.pod, x.shard, Owned(own, n, x.pod, x.shard)));
      }
    }
    StableIfClaimsStand(OwnMarket(own, n), claims, OwnMarket(own', n));
  }

  /** Convergence fails into a shard that is handing over: as long as its doomed owner holds more of
      it than the segment, moving another pod's slots to the heir gains nothing, because the next
      plan still sees the doomed owner's claim and no longer offers the shard to that heir. */
  lemma NoProgressIntoHandover(input: Input, own: Owner, l: ShardLayout, shard: nat, lo: int, hi: int, input': Input,
                               l': ShardLayout)
    requires input.Valid() && Planned(input, l) && Observes(input, own)
    requires Segment(input.n, shard, lo, hi) && shard in l.primaryOf && l.HandingOver(shard)
    requires forall x :: lo <= x <= hi ==> !Owns(own, l.ownerOf[shard], x)
    requires Owned(own, input.n, l.ownerOf[shard], shard) > hi - lo + 1
    requires input'.Valid() && input'.n == input.n && input'.desired == input.desired
    requires Planned(input', l') && Observes(input', Reassigned(own, lo, hi, l.primaryOf[shard]))
    ensures CorrectCount(Reassigned(own, lo, hi, l.primaryOf[shard]), input.n, l') == CorrectCount(own, input.n, l)
    ensures !l'.IsPrimaryOf(l.primaryOf[shard], shard)
  {
    hide Planned, Observes, Claiming, Owned, Reassigned, Correct, Segment;
    var heir, n := l.primaryOf[shard], input.n;
    var own' := Reassigned(own, lo, hi, heir);
    forall x ensures !Owns(own, heir, x) { HeirOwnsNothing(input, own, l, shard, x); }
    var claims := StandingClaims(input, own, l, shard, lo, hi, input', l');
    forall x | 0 <= x < SLOTS ensures Correct(own', n, l', x) == Correct(own, n, l, x) {
      StillAsCorrect(input, own, l, claims, shard, lo, hi, input', l', x);
    }
    CountSame(x => Correct(own', n, l', x), x => Correct(own, n, l, x), 0, SLOTS);
    assert Owns(own', heir, lo) by { assert lo <= hi by { SegmentIsNotEmpty(n, shard, lo, hi); } }
    HeirIsPassedOver(input, own, l, claims, shard, input', own', l');
  }

  /** A doomed owner that holds no more of its shard than the heir received loses it to the heir. */
  lemma HeirClaims(own: Owner, n: nat, claims: set<OwnerMatch>, shard: nat, lo: int, hi: int, heir: Pod, owner: Pod,
                   claims': set<OwnerMatch>)
    requires n > 0 && Stable(OwnMarket(own, n), claims) && Segment(n, shard, lo, hi) && heir < owner
    requires Stable(OwnMarket(Reassigned(own, lo, hi, heir), n), claims')
    requires (forall x :: !Owns(own, heir, x)) && Owned(own, n, owner, shard) <= hi - lo + 1
    requires forall y :: y in claims && y.shard == shard ==> y.pod == owner
    ensures ClaimedBy(claims', heir, shard)
  {
    hide Owned, Reassigned, OwnMarket;
    var own', gain := Reassigned(own, lo, hi, heir), OwnerMatch(heir, shard, hi - lo + 1);
    HeirOverlap(own, n, shard, lo, hi, heir, shard);
    assert InOwnMarket(own', n, gain);
    forall x | x in OwnMarket(own, n) && x.shard != shard ensures x in OwnMarket(own', n) {
      assert InOwnMarket(own, n, x);
      OwnedAfter(own, n, shard, lo, hi, heir, x.pod, x.shard);
    }
    forall x | x in OwnMarket(own', n) && x != gain
      ensures x.pod != heir && Shrunk(OwnMarket(own, n), x) && (x.shard != shard ==> x in OwnMarket(own, n))
    {
      OwnedAfter(own, n, shard, lo, hi, heir, x.pod, x.shard);
      HeirOverlap(own, n, shard, lo, hi, heir, x.shard);
      assert InOwnMarket(own, n, OwnerMatch(x.pod, x.shard, Owned(own, n, x.pod, x.shard)));
    }
    forall y | y in claims && y.shard == shard ensures Ahead(gain, y) { assert InOwnMarket(own, n, y); }
    ArrivalClaims(OwnMarket(own, n), claims, OwnMarket(own', n), claims', gain);
  }

  lemma HeirTakesOver(input: Input, own: Owner, l: ShardLayout, shard: nat, lo: int, hi: int, input': Input,
                      l': ShardLayout)
    requires input.Valid() && Planned(input, l) && Observes(input, own)
    requires Segment(input.n, shard, lo, hi) && shard in l.primaryOf && l.HandingOver(shard)
    requires Owned(own, input.n, l.ownerOf[shard], shard) <= hi - lo + 1
    requires input'.Valid() && input'.n == input.n && input'.desired == input.desired
    requires Planned(input', l') && Observes(input', Reassigned(own, lo, hi, l.primaryOf[shard]))
    ensures l'.IsPrimaryOf(l.primaryOf[shard], shard)
  {
    hide Planned, Observes, Stable, Owned, Reassigned, OwnMarket;
    var heir, owner := l.primaryOf[shard], l.ownerOf[shard];
    var own' := Reassigned(own, lo, hi, heir);
    forall x ensures !Owns(own, heir, x) { HeirOwnsNothing(input, own, l, shard, x); }
    assert heir < input.desired <= owner by { PlanIsWellFormed(input, l); }
    var claims := ClaimsBehind(input, own, l);
    var claims' := ClaimsBehind(input', own', l');
    HeirClaims(own, input.n, claims, shard, lo, hi, heir, owner, claims');
    assert Owns(own', heir, lo);
    OwnerServes(input', own', heir);
    PlanIsWellFormed(input', l');
  }

  lemma SegmentIsNotEmpty(n: nat, shard: nat, lo: int, hi: int)
    requires n > 0 && Segment(n, shard, lo, hi)
    ensures lo <= hi
  {
  }

  /** The same claims stand behind the plans before and after. */
  lemma StandingClaims(input: Input, own: Owner, l: ShardLayout, shard: nat, lo: int, hi: int, input': Input,
                       l': ShardLayout)
    returns (claims: set<OwnerMatch>)
    requires input.Valid() && Planned(input, l) && Observes(input, own)
    requires Segment(input.n, shard, lo, hi) && shard in l.primaryOf && l.HandingOver(shard)
    requires (forall x :: !Owns(own, l.primaryOf[shard], x)) && forall x :: lo <= x <= hi ==>
               !Owns(own, l.ownerOf[shard], x)
    requires Owned(own, input.n, l.ownerOf[shard], shard) > hi - lo + 1
    requires input'.Valid() && input'.n == input.n
    requires Planned(input', l') && Observes(input', Reassigned(own, lo, hi, l.primaryOf[shard]))
    ensures Claiming(own, input.n, l, claims)
            && Claiming(Reassigned(own, lo, hi, l.primaryOf[shard]), input.n, l', claims)
    ensures ClaimedBy(claims, l.ownerOf[shard], shard)
  {
    hide Planned, Observes, Stable, Owned, Reassigned, OwnMarket;
    var own' := Reassigned(own, lo, hi, l.primaryOf[shard]);
    claims := ClaimsBehind(input, own, l);
    var claims' := ClaimsBehind(input', own', l');
    DoomedOwnerClaims(input, own, l, claims, shard);
    ClaimsStand(own, input.n, claims, shard, lo, hi, l.primaryOf[shard], l.ownerOf[shard]);
    StableIsUnique(OwnMarket(own', input.n), claims, claims');
  }

  /** The next plan still has the doomed owner in the shard, so the pod that received slots of it cannot lead it. */
  lemma HeirIsPassedOver(input: Input, own: Owner, l: ShardLayout, claims: set<OwnerMatch>, shard: nat, input': Input,
                         own': Owner, l': ShardLayout)
    requires input.Valid() && Planned(input, l) && input'.Valid() && Planned(input', l') && Observes(input', own')
    requires input'.n == input.n && input'.desired == input.desired && Claiming(own', input'.n, l', claims)
    requires shard in l.primaryOf && l.HandingOver(shard) && ClaimedBy(claims, l.ownerOf[shard], shard)
    requires exists x :: Owns(own', l.primaryOf[shard], x)
    ensures !l'.IsPrimaryOf(l.primaryOf[shard], shard)
  {
    hide Planned, Observes, Stable;
    PlanIsWellFormed(input, l);
    PlanIsWellFormed(input', l');
    OwnerServes(input', own', l.primaryOf[shard]);
  }

  lemma DoomedOwnerClaims(input: Input, own: Owner, l: ShardLayout, claims: set<OwnerMatch>, shard: nat)
    requires input.Valid() && Planned(input, l) && Observes(input, own) && Claiming(own, input.n, l, claims)
    requires shard < input.n && shard in l.ownerOf && Owned(own, input.n, l.ownerOf[shard], shard) > 0
    ensures OwnerMatch(l.ownerOf[shard], shard, Owned(own, input.n, l.ownerOf[shard], shard)) in claims
  {
    hide Planned, Observes;
    var p := l.ownerOf[shard];
    var slot := CountWitness(x => Owns(own, p, x), RangeStart(input.n, shard), RangeStart(input.n, shard + 1));
    RangesPartition(input.n, slot, shard);
    PlanPlacesOwners(input, l, shard);
    PlacedOwnerClaims(input, own, l, claims, p, slot);
    var x :| x in claims && x.pod == p && x.shard == shard;
    assert InOwnMarket(own, input.n, x);
  }

  lemma PlanPlacesOwners(input: Input, l: ShardLayout, shard: nat)
    requires input.Valid() && Planned(input, l) && shard in l.ownerOf
    ensures l.Placed(l.ownerOf[shard], shard)
  {
    var ch :| PlannedWith(input, ch, l);
    FinalFacts(input, ch, l);
  }

  lemma StillAsCorrect(input: Input, own: Owner, l: ShardLayout, claims: set<OwnerMatch>, shard: nat, lo: int, hi: int,
                       input': Input, l': ShardLayout, x: int)
    requires input.Valid() && Planned(input, l) && Observes(input, own) && Claiming(own, input.n, l, claims)
    requires Segment(input.n, shard, lo, hi) && shard in l.primaryOf && l.HandingOver(shard) && 0 <= x < SLOTS
    requires input'.Valid() && input'.n == input.n && input'.desired == input.desired && Planned(input', l')
    requires var own' := Reassigned(own, lo, hi, l.primaryOf[shard]);
             Observes(input', own') && Claiming(own', input.n, l', claims)
    requires ClaimedBy(claims, l.ownerOf[shard], shard) && forall y :: !Owns(own, l.primaryOf[shard], y)
    ensures Correct(Reassigned(own, lo, hi, l.primaryOf[shard]), input.n, l', x) <==> Correct(own, input.n, l, x)
  {
    hide Planned, Observes, OwnMarket;
    var own' := Reassigned(own, lo, hi, l.primaryOf[shard]);
    RangesPartition(input.n, x, shard);
    if x in own { CorrectIsClaimed(input, own, l, claims, x); }
    if x in own' { CorrectIsClaimed(input', own', l', claims, x); }
    if lo <= x <= hi {
      var c :| c in claims && c.pod == l.ownerOf[shard] && c.shard == shard;
      assert forall y :: y in claims && y.shard == shard ==> Rivals(y, c);
      assert x in own ==> !Owns(own, l.primaryOf[shard], x);
    }
  }
}
