/** What claiming and parking give: a distinct shard for every slot owner. */
module Claims {
  import opened Types
  import opened Matching
  import opened Ranking
  import opened Layout

  lemma {:induction false} OwnersInProperties(input: Input, names: seq<Pod>)
    requires Ascending(names)
    ensures Ascending(OwnersIn(input, names))
    ensures forall p :: p in OwnersIn(input, names) <==> p in names && input.OwnsSlots(p)
  {
    if names != [] {
      var front, last := names[..|names| - 1], names[|names| - 1];
      assert names == front + [last];
      OwnersInProperties(input, front);
      var owners := OwnersIn(input, front);
      assert forall i :: 0 <= i < |owners| ==> owners[i] in front;
    }
  }

  lemma StableClaimsProperties(input: Input, owners: seq<Pod>, c: map<Pod, nat>)
    requires input.Valid() && StableClaims(input, owners, c)
    ensures c.Keys <= PodSet(owners) && Injective(c)
    ensures forall p :: p in c ==> c[p] < input.n
  {
    var market := Market(input.statuses, PodSet(owners), input.n);
    var claims: set<OwnerMatch> :| Stable(market, claims) && Represents(c, claims);
    forall p | p in c ensures p in owners && c[p] < input.n && exists x ::
      x in claims && x.pod == p && x.shard == c[p] {
      var x :| x in claims && x.pod == p;
      assert x in market && InMarket(input.statuses, PodSet(owners), input.n, x);
    }
    forall p, q | p in c && q in c && c[p] == c[q] ensures p == q {
      var x :| x in claims && x.pod == p && x.shard == c[p];
      var y :| y in claims && y.pod == q && y.shard == c[q];
      assert Rivals(x, y);
    }
  }

  /** As many shards as there are claims, or fewer. */
  lemma {:induction false} ValuesBound(c: map<Pod, nat>)
    ensures |c.Values| <= |c|
    ensures Injective(c) ==> |c.Values| == |c|
    decreases |c|
  {
    if c == map[] {
      assert c.Values == {};
    } else {
      var p :| p in c;
      var c' := c - {p};
      assert c'.Keys == c.Keys - {p} && |c| == |c.Keys| && |c'| == |c'.Keys|;
      ValuesBound(c');
      forall v | v in c.Values ensures v in c'.Values + {c[p]} {
        var q :| q in c && c[q] == v;
        assert q != p ==> q in c' && c'[q] == v;
      }
      assert c.Values == c'.Values + {c[p]};
      if Injective(c) {
        assert c[p] !in c'.Values;
      }
    }
  }

  /** A set that holds all of 0..k-1 has at least k elements. */
  lemma {:induction false} PrefixBound(used: set<nat>, k: nat)
    requires forall i :: 0 <= i < k ==> i in used
    ensures k <= |used|
    decreases k
  {
    if k > 0 {
      PrefixBound(used - {k - 1}, k - 1);
    }
  }

  lemma LowestUnusedBound(used: set<nat>)
    ensures LowestUnused(used, 0) <= |used|
  {
    PrefixBound(used, LowestUnused(used, 0));
  }

  /** Parking gives every owner a shard of its own and moves nobody. */
  lemma {:induction false} ParkProperties(c: map<Pod, nat>, owners: seq<Pod>)
    requires Injective(c)
    ensures Injective(Park(c, owners))
    ensures Park(c, owners).Keys == c.Keys + PodSet(owners)
    ensures forall p :: p in c ==> Park(c, owners)[p] == c[p]
  {
    if owners == [] {
      assert c.Keys + PodSet(owners) == c.Keys;
    } else {
      var front, p := owners[..|owners| - 1], owners[|owners| - 1];
      assert owners == front + [p];
      assert PodSet(owners) == PodSet(front) + {p};
      ParkProperties(c, front);
    }
  }

  /** With no more owners than shards, nobody is parked beyond the desired shards. */
  lemma {:induction false} ParkWithin(c: map<Pod, nat>, owners: seq<Pod>, all: set<Pod>, n: nat)
    requires Injective(c) && c.Keys <= all && PodSet(owners) <= all && |all| <= n
    requires forall p :: p in c ==> c[p] < n
    ensures forall p :: p in Park(c, owners) ==> Park(c, owners)[p] < n
  {
    hide Injective, LowestUnused;
    if owners != [] {
      var front, p := owners[..|owners| - 1], owners[|owners| - 1];
      assert p in PodSet(owners) && forall q :: q in PodSet(front) ==> q in PodSet(owners);
      ParkProperties(c, front);
      ParkWithin(c, front, all, n);
      if p !in Park(c, front) {
        ParkedWithin(Park(c, front), all, n, p);
      }
    }
  }

  lemma ParkedWithin(c: map<Pod, nat>, all: set<Pod>, n: nat, p: Pod)
    requires c.Keys <= all && p in all - c.Keys && |all| <= n
    ensures LowestUnused(c.Values, 0) < n
  {
    assert |c| == |c.Keys|;
    SubsetSize(c.Keys, all - {p});
    ValuesBound(c);
    LowestUnusedBound(c.Values);
  }

  lemma SubsetSize(a: set<Pod>, b: set<Pod>)
    requires a <= b
    ensures |a| <= |b|
  {
    assert b == a + (b - a);
  }

  lemma {:induction false} FullSet(values: set<nat>, n: nat)
    requires |values| == n && forall v :: v in values ==> v < n
    ensures forall s :: 0 <= s < n ==> s in values
    decreases n
  {
    if n > 0 {
      if n - 1 in values {
        FullSet(values - {n - 1}, n - 1);
        forall s | 0 <= s < n ensures s in values {
          assert s < n - 1 ==> s in values - {n - 1};
        }
      } else {
        Bounded(values, n - 1);
      }
    }
  }

  lemma {:induction false} Bounded(values: set<nat>, n: nat)
    requires forall v :: v in values ==> v < n
    ensures |values| <= n
    decreases n
  {
    if n == 0 {
      assert values == {};
    } else {
      Bounded(values - {n - 1}, n - 1);
    }
  }

  /** Exactly as many owners as shards: the claims are a bijection onto the shards. */
  lemma ClaimsCoverShards(input: Input, owners: seq<Pod>, c: map<Pod, nat>)
    requires input.Valid() && OwnerClaims(input, owners, c) && |PodSet(owners)| == input.n
    ensures c.Keys == PodSet(owners) && Injective(c)
    ensures forall p :: p in c ==> c[p] < input.n
    ensures forall s :: 0 <= s < input.n ==> s in c.Values
  {
    hide StableClaims, Park, Injective;
    var base :| StableClaims(input, owners, base) && c == Park(base, owners);
    StableClaimsProperties(input, owners, base);
    ParkProperties(base, owners);
    assert base.Keys + PodSet(owners) == PodSet(owners);
    ParkWithin(base, owners, PodSet(owners), input.n);
    ValuesBound(c);
    assert |c| == |c.Keys|;
    assert forall v :: v in c.Values ==> v < input.n;
    FullSet(c.Values, input.n);
  }

  lemma OwnerClaimsProperties(input: Input, owners: seq<Pod>, c: map<Pod, nat>)
    requires input.Valid() && OwnerClaims(input, owners, c)
    ensures c.Keys == PodSet(owners) && Injective(c)
  {
    hide StableClaims, Park, Injective;
    var base :| StableClaims(input, owners, base) && c == Park(base, owners);
    StableClaimsProperties(input, owners, base);
    ParkProperties(base, owners);
    assert base.Keys + PodSet(owners) == PodSet(owners);
  }
}
