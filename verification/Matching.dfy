/** Which owner claims which shard. The planner ranks owner/shard pairs by overlap and
    claims greedily; the result is the one set of claims in which no pair is left out
    without a better claim standing in its way. */
module Matching {
  import opened Types

  /** A pod, a shard it serves part of, and how many slots of it. */
  datatype OwnerMatch = OwnerMatch(pod: Pod, shard: nat, overlap: nat)

  /** Larger overlaps first, then lower shards, then lower ordinals. */
  predicate Ahead(a: OwnerMatch, b: OwnerMatch) {
    || a.overlap > b.overlap
    || (a.overlap == b.overlap && a.shard < b.shard)
    || (a.overlap == b.overlap && a.shard == b.shard && a.pod < b.pod)
  }

  predicate Rivals(a: OwnerMatch, b: OwnerMatch) {
    a.pod == b.pod || a.shard == b.shard
  }

  ghost predicate Compatible(claims: set<OwnerMatch>) {
    forall a, b :: a in claims && b in claims && Rivals(a, b) ==> a == b
  }

  /** Some claim on the same pod or the same shard ranks ahead of this pair. */
  ghost predicate Beaten(claims: set<OwnerMatch>, x: OwnerMatch) {
    exists y :: y in claims && Rivals(y, x) && Ahead(y, x)
  }

  ghost predicate Stable(market: set<OwnerMatch>, claims: set<OwnerMatch>) {
    && claims <= market
    && Compatible(claims)
    && forall x :: x in market ==> x in claims || Beaten(claims, x)
  }

  ghost predicate Ranked(ranked: seq<OwnerMatch>) {
    forall i, j :: 0 <= i < j < |ranked| ==> Ahead(ranked[i], ranked[j])
  }

  ghost function Elements(ranked: seq<OwnerMatch>): set<OwnerMatch> {
    set x | x in ranked
  }

  /** Walk the ranking and claim whatever is still free on both sides. */
  ghost function Greedy(ranked: seq<OwnerMatch>): set<OwnerMatch> {
    if ranked == [] then {}
    else
      Take(Greedy(ranked[..|ranked| - 1]), ranked[|ranked| - 1])
  }

  ghost function Take(claims: set<OwnerMatch>, x: OwnerMatch): set<OwnerMatch> {
    if exists y :: y in claims && Rivals(y, x) then claims else claims + {x}
  }

  lemma {:induction false} GreedyIsStable(ranked: seq<OwnerMatch>)
    requires Ranked(ranked)
    ensures Stable(Elements(ranked), Greedy(ranked))
  {
    if ranked != [] {
      var front, x := ranked[..|ranked| - 1], ranked[|ranked| - 1];
      GreedyIsStable(front);
      assert Elements(ranked) == Elements(front) + {x};
      var claims, claims' := Greedy(front), Greedy(ranked);
      forall y | y in Elements(front) ensures Ahead(y, x) {
        var i :| 0 <= i < |front| && front[i] == y;
        assert ranked[i] == y;
      }
      forall y | y in Elements(front) && y !in claims' ensures Beaten(claims', y) {
        var z :| z in claims && Rivals(z, y) && Ahead(z, y);
        assert z in claims';
      }
    }
  }

  /** A pair claimed on one side only leads to a better pair claimed on the other side only. */
  lemma {:induction false} NoDifference(market: set<OwnerMatch>, a: set<OwnerMatch>, b: set<OwnerMatch>, x: OwnerMatch)
    requires Stable(market, a) && Stable(market, b)
    ensures x in a ==> x in b
    decreases |Better(market, x)|
  {
    if x in a && x !in b {
      var y :| y in b && Rivals(y, x) && Ahead(y, x);
      FewerBetter(market, x, y);
      NoDifference(market, b, a, y);
    }
  }

  ghost function Better(market: set<OwnerMatch>, x: OwnerMatch): set<OwnerMatch> {
    set y | y in market && Ahead(y, x)
  }

  lemma FewerBetter(market: set<OwnerMatch>, x: OwnerMatch, y: OwnerMatch)
    requires y in market && Ahead(y, x)
    ensures |Better(market, y)| < |Better(market, x)|
  {
    assert Better(market, x) == Better(market, y) + (Better(market, x) - Better(market, y));
    assert y in Better(market, x) - Better(market, y);
  }

  /** A market has only one stable set of claims. */
  lemma StableIsUnique(market: set<OwnerMatch>, a: set<OwnerMatch>, b: set<OwnerMatch>)
    requires Stable(market, a) && Stable(market, b)
    ensures a == b
  {
    forall x ensures x in a <==> x in b {
      NoDifference(market, a, b, x);
      NoDifference(market, b, a, x);
    }
  }

  /** Giving one pod more of one shard, at the expense of other pods' part of that shard, keeps
      every other claim: provided the pod claims the shard already, or neither was claimed. */
  lemma StableAfterGain(market: set<OwnerMatch>, claims: set<OwnerMatch>, market': set<OwnerMatch>, gain: OwnerMatch)
    requires Stable(market, claims)
    requires forall y :: y in claims ==> (y.pod == gain.pod <==> y.shard == gain.shard)
    requires gain in market'
    requires forall x, y :: x in market' && y in market' && x.pod == y.pod && x.shard == y.shard ==> x == y
    requires forall x :: x in market' && x != gain ==> Shrunk(market, x)
    requires forall y :: y in claims ==> y in market' || (Rivals(y, gain) && y.overlap <= gain.overlap)
    ensures Stable(market', Replaced(claims, gain))
  {
    var claims' := Replaced(claims, gain);
    forall x | x in market' && x !in claims' ensures Beaten(claims', x) {
      var y :| y in market && y.pod == x.pod && y.shard == x.shard && x.overlap <= y.overlap;
      assert y !in claims;
      var z :| z in claims && Rivals(z, y) && Ahead(z, y);
      var z' := if Rivals(z, gain) then gain else z;
      assert z' in claims' && Rivals(z', x) && Ahead(z', x);
    }
  }

  /** Claims that stand unchanged stay stable when other pairs only shrink or appear beaten. */
  lemma StableIfClaimsStand(market: set<OwnerMatch>, claims: set<OwnerMatch>, market': set<OwnerMatch>)
    requires Stable(market, claims) && claims <= market'
    requires forall x, y :: x in market' && y in market' && x.pod == y.pod && x.shard == y.shard ==> x == y
    requires forall x :: x in market' ==> Shrunk(market, x) || Beaten(claims, x)
    ensures Stable(market', claims)
  {
    forall x | x in market' && x !in claims && Shrunk(market, x) ensures Beaten(claims, x) {
      var y :| y in market && y.pod == x.pod && y.shard == x.shard && x.overlap <= y.overlap;
      assert y !in claims;
      var z :| z in claims && Rivals(z, y) && Ahead(z, y);
      assert Rivals(z, x) && Ahead(z, x);
    }
  }

  /** A pod new to the market arrives with a pair for one shard, at the expense of other pairs for that
      shard, and ranks ahead of whoever claims it. */
  ghost predicate Arrival(market: set<OwnerMatch>, claims: set<OwnerMatch>, market': set<OwnerMatch>,
                          gain: OwnerMatch) {
    && gain in market'
    && (forall x :: x in market ==> x.shard != gain.shard ==> x in market')
    && (forall x :: x in market' && x != gain ==>
      x.pod != gain.pod && Shrunk(market, x) && (x.shard != gain.shard ==> x in market))
    && (forall y :: y in claims && y.shard == gain.shard ==> Ahead(gain, y))
  }

  lemma AheadIsTransitive(a: OwnerMatch, b: OwnerMatch, c: OwnerMatch)
    requires Ahead(a, b) && Ahead(b, c)
    ensures Ahead(a, c) && a != b
  {
  }

  lemma RivalAfter(market: set<OwnerMatch>, claims: set<OwnerMatch>, market': set<OwnerMatch>, claims': set<OwnerMatch>,
                   gain: OwnerMatch, x: OwnerMatch) returns (y: OwnerMatch)
    requires Stable(market, claims) && Stable(market', claims') && Arrival(market, claims, market', gain)
             && Ahead(x, gain)
    requires x in claims && x !in claims'
    ensures y in claims' && Rivals(y, x) && Ahead(y, x)
  {
    assert x in market';
    y :| y in claims' && Rivals(y, x) && Ahead(y, x);
  }

  lemma RivalBefore(market: set<OwnerMatch>, claims: set<OwnerMatch>, market': set<OwnerMatch>, gain: OwnerMatch,
                    x: OwnerMatch)
    returns (z: OwnerMatch)
    requires Stable(market, claims) && Arrival(market, claims, market', gain) && Ahead(x, gain)
    requires x in market' && x !in claims
    ensures z in claims && Rivals(z, x) && Ahead(z, x)
  {
    var y := x;
    if x.shard == gain.shard {
      y :| y in market && y.pod == x.pod && y.shard == x.shard && x.overlap <= y.overlap;
    }
    assert y in market && y !in claims;
    z :| z in claims && Rivals(z, y) && Ahead(z, y);
  }

  /** An arrival changes no claim that ranks ahead of it. */
  lemma {:induction false} SameClaimsAhead(market: set<OwnerMatch>, claims: set<OwnerMatch>, market': set<OwnerMatch>,
                                           claims': set<OwnerMatch>,
                                           gain: OwnerMatch, x: OwnerMatch)
    requires Stable(market, claims) && Stable(market', claims') && Arrival(market, claims, market', gain)
             && Ahead(x, gain)
    ensures x in claims <==> x in claims'
    decreases |Better(market + market', x)|
  {
    hide Better, Arrival, Ahead, Beaten;
    if x in claims && x !in claims' {
      var y := RivalAfter(market, claims, market', claims', gain, x);
      AheadIsTransitive(y, x, gain);
      FewerBetter(market + market', x, y);
      SameClaimsAhead(market, claims, market', claims', gain, y);
    } else if x in claims' && x !in claims {
      var y := RivalBefore(market, claims, market', gain, x);
      AheadIsTransitive(y, x, gain);
      FewerBetter(market + market', x, y);
      SameClaimsAhead(market, claims, market', claims', gain, y);
    }
  }

  /** So the arrival gets its claim. */
  lemma ArrivalClaims(market: set<OwnerMatch>, claims: set<OwnerMatch>, market': set<OwnerMatch>,
                      claims': set<OwnerMatch>, gain: OwnerMatch)
    requires Stable(market, claims) && Stable(market', claims') && Arrival(market, claims, market', gain)
    ensures gain in claims'
  {
    if gain !in claims' {
      var y :| y in claims' && Rivals(y, gain) && Ahead(y, gain);
      SameClaimsAhead(market, claims, market', claims', gain, y);
      assert false;
    }
  }

  /** The pair was in the market with at least this overlap. */
  ghost predicate Shrunk(market: set<OwnerMatch>, x: OwnerMatch) {
    exists y :: y in market && y.pod == x.pod && y.shard == x.shard && x.overlap <= y.overlap
  }

  ghost function Replaced(claims: set<OwnerMatch>, gain: OwnerMatch): set<OwnerMatch> {
    (set y | y in claims && !Rivals(y, gain)) + {gain}
  }
}
