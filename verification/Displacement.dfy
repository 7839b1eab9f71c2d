/** What an arrival does to the claims behind it: it may displace a claim, the displaced pod takes the best
    shard it can still win, displaces the next one, and so on. The value of the survivors' claims grows. */
module Displacement {
  import opened Types
  import opened Matching

  /** The claims would be stable if only pod `u` did not want a shard. */
  ghost predicate StableBut(market: set<OwnerMatch>, claims: set<OwnerMatch>, u: Pod) {
    && claims <= market && Compatible(claims)
    && (forall x :: x in claims ==> x.pod != u)
    && forall x :: x in market ==> x in claims || x.pod == u || Beaten(claims, x)
  }

  /** What pod `u` can still win. */
  ghost function Winnable(market: set<OwnerMatch>, claims: set<OwnerMatch>, u: Pod): set<OwnerMatch> {
    set x | x in market && x.pod == u && !Beaten(claims, x)
  }

  /** The pair takes its shard from whoever claims it. */
  ghost function Seated(claims: set<OwnerMatch>, x: OwnerMatch): set<OwnerMatch> {
    (set y | y in claims && y.shard != x.shard) + {x}
  }

  lemma {:induction false} BestOf(pairs: set<OwnerMatch>) returns (best: OwnerMatch)
    requires pairs != {}
    ensures best in pairs && forall x :: x in pairs ==> x == best || Ahead(best, x)
    decreases |pairs|
  {
    var x :| x in pairs;
    if pairs == {x} {
      best := x;
    } else {
      assert pairs - {x} != {};
      var next := BestOf(pairs - {x});
      best := if Ahead(x, next) then x else next;
      forall y | y in pairs ensures y == best || Ahead(best, y) {
        if y != x { assert y in pairs - {x}; }
      }
    }
  }

  /** A pair that beats whoever claims its shard. */
  ghost predicate BestWin(market: set<OwnerMatch>, claims: set<OwnerMatch>, x: OwnerMatch) {
    x in Winnable(market, claims, x.pod) && forall y :: y in Winnable(market, claims, x.pod) ==> y == x || Ahead(x, y)
  }

  /** After the pod has taken its best shard, at most the pod displaced from it wants another one. */
  lemma SeatKeeps(market: set<OwnerMatch>, claims: set<OwnerMatch>, x: OwnerMatch, y: OwnerMatch)
    requires StableBut(market, claims, x.pod) && BestWin(market, claims, x)
    requires y in market && y !in Seated(claims, x)
    ensures Beaten(Seated(claims, x), y) || (exists z :: z in claims && z.shard == x.shard && z.pod == y.pod)
  {
    var after := Seated(claims, x);
    if y.pod == x.pod {
      if Beaten(claims, y) {
        var z :| z in claims && Rivals(z, y) && Ahead(z, y);
        if z.shard == x.shard { assert Rivals(x, y); } else { assert z in after; }
      } else {
        assert y in Winnable(market, claims, x.pod);
        assert Rivals(x, y) && Ahead(x, y);
      }
    } else if y in claims {
      assert y.shard == x.shard;
    } else {
      var z :| z in claims && Rivals(z, y) && Ahead(z, y);
      if z.shard != x.shard {
        assert z in after;
      } else if z.pod != y.pod {
        WinnerIsAhead(market, claims, x, z);
        AheadIsTransitive(x, z, y);
        assert x in after && Rivals(x, y);
      }
    }
  }

  lemma WinnerIsAhead(market: set<OwnerMatch>, claims: set<OwnerMatch>, x: OwnerMatch, z: OwnerMatch)
    requires x in Winnable(market, claims, x.pod) && z in claims && z.shard == x.shard && z.pod != x.pod
    ensures Ahead(x, z)
  {
    assert Rivals(z, x) && !Ahead(z, x);
  }

  /** The shard was free: the claims are stable now. */
  lemma SeatFree(market: set<OwnerMatch>, claims: set<OwnerMatch>, x: OwnerMatch)
    requires StableBut(market, claims, x.pod) && BestWin(market, claims, x)
    requires forall z :: z in claims ==> z.shard != x.shard
    ensures Stable(market, Seated(claims, x))
  {
    forall y | y in market && y !in Seated(claims, x) ensures Beaten(Seated(claims, x), y) {
      SeatKeeps(market, claims, x, y);
    }
  }

  /** The shard was taken: its claimant is the one to want another now, and can only win less. */
  lemma SeatTaken(market: set<OwnerMatch>, claims: set<OwnerMatch>, x: OwnerMatch, z: OwnerMatch)
    requires StableBut(market, claims, x.pod) && BestWin(market, claims, x) && z in claims && z.shard == x.shard
    ensures Ahead(x, z) && StableBut(market, Seated(claims, x), z.pod)
    ensures forall y :: y in Winnable(market, Seated(claims, x), z.pod) ==> Ahead(z, y)
  {
    var after := Seated(claims, x);
    WinnerIsAhead(market, claims, x, z);
    forall y | y in market && y !in after ensures y.pod == z.pod || Beaten(after, y) {
      SeatKeeps(market, claims, x, y);
    }
    forall y | y in Winnable(market, after, z.pod) ensures Ahead(z, y) {
      if y == z {
        assert x in after && Rivals(x, y);
      } else if Ahead(y, z) {
        assert y !in claims;
        var w :| w in claims && Rivals(w, y) && Ahead(w, y);
      }
    }
  }

  // ---------------------------------------------------------------- the value of the survivors' claims

  ghost predicate Counted(desired: nat, claims: set<OwnerMatch>, s: nat, x: OwnerMatch) {
    x in claims && x.shard == s && x.pod < desired
  }

  /** The overlap with which a survivor claims the shard. */
  ghost function Value(desired: nat, claims: set<OwnerMatch>, s: nat): nat {
    if exists x :: Counted(desired, claims, s, x) then
      var x :| Counted(desired, claims, s, x);
      x.overlap
    else 0
  }

  ghost function Weight(desired: nat, claims: set<OwnerMatch>, n: nat): nat {
    if n == 0 then 0 else Weight(desired, claims, n - 1) + Value(desired, claims, n - 1)
  }

  lemma ValueOfClaim(desired: nat, claims: set<OwnerMatch>, x: OwnerMatch)
    requires Compatible(claims) && x in claims
    ensures Value(desired, claims, x.shard) == if x.pod < desired then x.overlap else 0
  {
    if x.pod < desired { assert Counted(desired, claims, x.shard, x); }
    forall y | Counted(desired, claims, x.shard, y) ensures y == x { assert Rivals(x, y); }
  }

  lemma SameValue(desired: nat, claims: set<OwnerMatch>, claims': set<OwnerMatch>, s: nat)
    requires Compatible(claims) && Compatible(claims')
    requires forall x: OwnerMatch :: x.shard == s ==> (x in claims <==> x in claims')
    ensures Value(desired, claims, s) == Value(desired, claims', s)
  {
    if x :| Counted(desired, claims, s, x) {
      ValueOfClaim(desired, claims, x);
      ValueOfClaim(desired, claims', x);
    } else {
      assert forall x :: Counted(desired, claims', s, x) ==> Counted(desired, claims, s, x);
    }
  }

  /** Only one shard changes hands. */
  lemma {:induction false} WeightChange(desired: nat, claims: set<OwnerMatch>, claims': set<OwnerMatch>, t: nat, n: nat)
    requires Compatible(claims) && Compatible(claims') && forall x: OwnerMatch :: x.shard != t ==>
               (x in claims <==> x in claims')
    ensures Weight(desired, claims', n) - Weight(desired, claims, n) ==
            if t < n then Value(desired, claims', t) - Value(desired, claims, t) else 0
  {
    hide Value, Compatible;
    if n > 0 {
      WeightChange(desired, claims, claims', t, n - 1);
      if t != n - 1 { SameValue(desired, claims, claims', n - 1); }
    }
  }

  /** What seating a pair does to the weight. */
  lemma SeatWeight(desired: nat, claims: set<OwnerMatch>, x: OwnerMatch, n: nat)
    requires Compatible(claims) && Compatible(Seated(claims, x)) && x.shard < n
    ensures var gain := if x.pod < desired then x.overlap else 0;
            Weight(desired, Seated(claims, x), n) == Weight(desired, claims, n) + gain - Value(desired, claims, x.shard)
  {
    WeightChange(desired, claims, Seated(claims, x), x.shard, n);
    ValueOfClaim(desired, Seated(claims, x), x);
  }

  ghost predicate Positive(market: set<OwnerMatch>, n: nat) {
    forall x :: x in market ==> x.shard < n && x.overlap > 0
  }

  /** How much of the market the claims hold off. */
  ghost function HeldOff(market: set<OwnerMatch>, claims: set<OwnerMatch>): set<OwnerMatch> {
    set y | y in market && exists x :: x in claims && x.shard == y.shard && (x == y || Ahead(x, y))
  }

  lemma HoldsMore(market: set<OwnerMatch>, claims: set<OwnerMatch>, x: OwnerMatch)
    requires BestWin(market, claims, x) && x !in claims && claims <= market && Compatible(claims)
    requires forall z :: z in claims ==> z.pod != x.pod
    ensures |HeldOff(market, claims)| < |HeldOff(market, Seated(claims, x))| <= |market|
  {
    var after := Seated(claims, x);
    forall y | y in HeldOff(market, claims) ensures y in HeldOff(market, after) {
      var z :| z in claims && z.shard == y.shard && (z == y || Ahead(z, y));
      if z.shard == x.shard {
        WinnerIsAhead(market, claims, x, z);
        assert x in after && Ahead(x, y);
      } else {
        assert z in after;
      }
    }
    assert x in HeldOff(market, after) && x !in HeldOff(market, claims);
    assert HeldOff(market, after) == HeldOff(market, claims) + (HeldOff(market, after) - HeldOff(market, claims));
    assert x in HeldOff(market, after) - HeldOff(market, claims);
    assert market == HeldOff(market, after) + (market - HeldOff(market, after));
  }

  /** Displacement: a survivor that looks for another shard never lowers the weight; a doomed pod lowers
      it by less than the best it can win. */
  lemma {:induction false} Resettle(desired: nat, n: nat, market: set<OwnerMatch>, claims: set<OwnerMatch>, u: Pod,
                                    claims': set<OwnerMatch>, bound: nat)
    requires Positive(market, n) && StableBut(market, claims, u) && Stable(market, claims')
    requires bound > 0 && forall x :: x in Winnable(market, claims, u) ==> x.overlap <= bound
    ensures u < desired ==> Weight(desired, claims', n) >= Weight(desired, claims, n)
    ensures u >= desired ==> Weight(desired, claims', n) > Weight(desired, claims, n) - bound
    decreases |market| - |HeldOff(market, claims)|
  {
    hide Weight, Value, HeldOff, Winnable, Seated;
    if Winnable(market, claims, u) == {} {
      NothingToWin(market, claims, u, claims');
    } else {
      var x := BestOf(Winnable(market, claims, u));
      BestIsWin(market, claims, u, x);
      HoldsMore(market, claims, x);
      SeatedIsCompatible(market, claims, x);
      SeatWeight(desired, claims, x, n);
      if z :| z in claims && z.shard == x.shard {
        SeatTaken(market, claims, x, z);
        ValueOfClaim(desired, claims, z);
        Resettle(desired, n, market, Seated(claims, x), z.pod, claims', z.overlap);
      } else {
        SeatFree(market, claims, x);
        StableIsUnique(market, claims', Seated(claims, x));
        NoValue(desired, claims, x.shard);
      }
    }
  }

  lemma NoValue(desired: nat, claims: set<OwnerMatch>, s: nat)
    requires forall x :: x in claims ==> x.shard != s
    ensures Value(desired, claims, s) == 0
  {
  }

  lemma BestIsWin(market: set<OwnerMatch>, claims: set<OwnerMatch>, u: Pod, x: OwnerMatch)
    requires x in Winnable(market, claims, u) && forall y :: y in Winnable(market, claims, u) ==> y == x || Ahead(x, y)
    ensures x.pod == u && x in market && BestWin(market, claims, x)
  {
  }

  lemma SeatedIsCompatible(market: set<OwnerMatch>, claims: set<OwnerMatch>, x: OwnerMatch)
    requires StableBut(market, claims, x.pod)
    ensures Compatible(Seated(claims, x))
  {
  }

  lemma NothingToWin(market: set<OwnerMatch>, claims: set<OwnerMatch>, u: Pod, claims': set<OwnerMatch>)
    requires StableBut(market, claims, u) && Stable(market, claims') && Winnable(market, claims, u) == {}
    ensures claims == claims'
  {
    forall x | x in market ensures x in claims || Beaten(claims, x) {
      assert x !in Winnable(market, claims, u);
    }
    StableIsUnique(market, claims, claims');
  }

  /** A survivor arrives and displaces a doomed pod that claimed no more than the arrival brings: the
      survivors' claims are worth strictly more afterwards. */
  lemma ArrivalGains(desired: nat, n: nat, market: set<OwnerMatch>, claims: set<OwnerMatch>, gain: OwnerMatch,
                     claims': set<OwnerMatch>)
    requires Positive(market, n) && StableBut(market, claims, gain.pod) && Stable(market, claims')
    requires Winnable(market, claims, gain.pod) == {gain} && gain.pod < desired
    requires forall z :: z in claims && z.shard == gain.shard ==> z.pod >= desired
    ensures Weight(desired, claims', n) > Weight(desired, claims, n)
  {
    hide Weight, Value, HeldOff, Winnable, Seated;
    BestIsWin(market, claims, gain.pod, gain);
    SeatedIsCompatible(market, claims, gain);
    SeatWeight(desired, claims, gain, n);
    if z :| z in claims && z.shard == gain.shard {
      SeatTaken(market, claims, gain, z);
      ValueOfClaim(desired, claims, z);
      Resettle(desired, n, market, Seated(claims, gain), z.pod, claims', z.overlap);
    } else {
      SeatFree(market, claims, gain);
      StableIsUnique(market, claims', Seated(claims, gain));
      NoValue(desired, claims, gain.shard);
    }
  }

  /** If the displaced pod can win nothing else, the weight grows by exactly what the arrival brings. */
  lemma ArrivalGainsAll(desired: nat, n: nat, market: set<OwnerMatch>, claims: set<OwnerMatch>, gain: OwnerMatch,
                        claims': set<OwnerMatch>)
    requires Positive(market, n) && StableBut(market, claims, gain.pod) && Stable(market, claims')
    requires Winnable(market, claims, gain.pod) == {gain} && gain.pod < desired
    requires forall z :: z in claims && z.shard == gain.shard ==> z.pod >= desired && Lost(market, claims, z)
    ensures Weight(desired, claims', n) == Weight(desired, claims, n) + gain.overlap
  {
    hide Weight, Value, HeldOff, Seated;
    BestIsWin(market, claims, gain.pod, gain);
    SeatedIsCompatible(market, claims, gain);
    SeatWeight(desired, claims, gain, n);
    if z :| z in claims && z.shard == gain.shard {
      SeatTaken(market, claims, gain, z);
      ValueOfClaim(desired, claims, z);
      LostWinsNothing(market, claims, gain, z);
      NothingToWin(market, Seated(claims, gain), z.pod, claims');
    } else {
      SeatFree(market, claims, gain);
      StableIsUnique(market, claims', Seated(claims, gain));
      NoValue(desired, claims, gain.shard);
    }
  }

  /** Every other pair of the claim's pod is beaten by the claim standing on its shard. */
  ghost predicate Lost(market: set<OwnerMatch>, claims: set<OwnerMatch>, z: OwnerMatch) {
    forall y :: y in market && y.pod == z.pod && y.shard != z.shard ==>
      exists w :: w in claims && w.shard == y.shard && Ahead(w, y)
  }

  lemma LostWinsNothing(market: set<OwnerMatch>, claims: set<OwnerMatch>, gain: OwnerMatch, z: OwnerMatch)
    requires StableBut(market, claims, gain.pod) && BestWin(market, claims, gain) && z in claims
             && z.shard == gain.shard
    requires Lost(market, claims, z)
    ensures Winnable(market, Seated(claims, gain), z.pod) == {}
  {
    var after := Seated(claims, gain);
    SeatTaken(market, claims, gain, z);
    forall y | y in market && y.pod == z.pod ensures Beaten(after, y) {
      if y.shard != z.shard {
        var w :| w in claims && w.shard == y.shard && Ahead(w, y);
        assert w in after && Rivals(w, y);
      } else {
        assert !(y in Winnable(market, after, z.pod)) || Ahead(z, y);
        if Ahead(z, y) { AheadIsTransitive(gain, z, y); }
        assert gain in after && Rivals(gain, y);
      }
    }
  }
}
