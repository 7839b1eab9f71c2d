/** The layout of a cluster nobody has reported on yet: pods are dealt out round robin. */
module FreshLayout {
  import opened Types
  import opened Ranking
  import opened Layout
  import opened Claims

  /** Nothing polled, nothing labelled, nothing beyond the desired pods. */
  ghost predicate Fresh(input: Input) {
    input.statuses == map[] && forall p :: p in input.pods ==> p < input.desired && input.pods[p].shardLabel.None?
  }

  ghost function Count(k: nat): seq<Pod> {
    seq(k, i => i)
  }

  lemma {:induction false} NamesCount(names: seq<Pod>, k: nat)
    requires Ascending(names) && forall p: Pod :: p in names <==> p < k
    ensures names == Count(k)
  {
    forall i | 0 <= i < |names| ensures names[i] < k { assert names[i] in names; }
    assert |names| > 0 ==> names[0] < k;
    if k > 0 {
      assert k - 1 in names;
      var i :| 0 <= i < |names| && names[i] == k - 1;
      var front := names[..|names| - 1];
      assert names == front + [k - 1];
      forall p: Pod ensures p in front <==> p < k - 1 {
        if p in front {
          var j :| 0 <= j < |front| && front[j] == p;
          assert names[j] < names[|names| - 1];
        }
        if p < k - 1 { assert p in names; }
      }
      NamesCount(front, k - 1);
    }
  }

  lemma {:induction false} FreshAttach(input: Input, index: map<string, Pod>, k: nat)
    requires Fresh(input)
    ensures AttachAll(input, index, EMPTY, Count(k)) == Draft(EMPTY, Count(k))
    ensures OwnersIn(input, Count(k)) == []
  {
    if k > 0 {
      assert Count(k)[..k - 1] == Count(k - 1);
      FreshAttach(input, index, k - 1);
      assert Count(k) == Count(k - 1) + [k - 1];
    }
  }

  lemma {:induction false} FilterCount(desired: nat, k: nat)
    requires k <= desired
    ensures Filter(desired, Count(k), false) == Count(k) && Filter(desired, Count(k), true) == []
  {
    if k > 0 {
      assert Count(k)[..k - 1] == Count(k - 1);
      FilterCount(desired, k - 1);
      assert Count(k) == Count(k - 1) + [k - 1];
    }
  }

  lemma NoClaims(input: Input, c: map<Pod, nat>, l: ShardLayout)
    requires input.Valid() && OwnerClaims(input, [], c) && ClaimsOnly(input.desired, c, l)
    ensures l == EMPTY
  {
    OwnerClaimsProperties(input, [], c);
    assert c.Keys == {};
    assert c == map[];
    assert c.Values == {};
    assert l.ownerOf == map[] && l.members == map[];
    assert l.primaryOf == map[];
  }

  /** The first `k` shards have been given the first `k` pods. */
  ghost function Dealt(k: nat): ShardLayout {
    if k == 0 then EMPTY else Dealt(k - 1).Assign(k - 1, k - 1).WithPrimary(k - 1, k - 1)
  }

  lemma {:induction false} DealtProperties(k: nat)
    ensures Dealt(k).ownerOf == map[]
    ensures forall s: nat :: (s in Dealt(k).shardOf <==> s < k) && (s in Dealt(k).primaryOf <==> s < k)
    ensures forall s: nat :: s < k ==> Dealt(k).shardOf[s] == s && Dealt(k).primaryOf[s] == s
    ensures forall s: nat :: |Dealt(k).MembersOf(s)| == if s < k then 1 else 0
  {
    if k > 0 {
      DealtProperties(k - 1);
      forall s: nat ensures |Dealt(k).MembersOf(s)| == if s < k then 1 else 0 {
        assert |Dealt(k - 1).MembersOf(s)| == if s < k - 1 then 1 else 0;
      }
    }
  }

  lemma {:induction false} FreshFill(desired: nat, k: nat)
    requires k <= desired
    ensures FillBelow(Draft(EMPTY, Count(desired)), k) == Draft(Dealt(k), Count(desired)[k..])
  {
    if k == 0 {
      assert Count(desired)[0..] == Count(desired);
    } else {
      DealtProperties(k - 1);
      FreshFill(desired, k - 1);
      var d := FillBelow(Draft(EMPTY, Count(desired)), k - 1);
      assert d.free[0] == k - 1;
      assert d.free[1..] == Count(desired)[k..];
    }
  }

  lemma {:induction false} NoHeirs(desired: nat, trace: seq<ShardLayout>, k: nat)
    requires k < |trace| && HeirTrace(desired, trace[0], trace) && trace[0].ownerOf == map[]
    ensures trace[k] == trace[0]
  {
    if k > 0 {
      NoHeirs(desired, trace, k - 1);
      assert HeirStep(desired, trace[k - 1], k - 1, trace[k]);
    }
  }

  // ---------------------------------------------------------------- round robin

  lemma DivModStep(n: nat, t: nat)
    requires n > 0
    ensures t % n == n - 1 ==> (t + 1) % n == 0 && (t + 1) / n == t / n + 1
    ensures t % n < n - 1 ==> (t + 1) % n == t % n + 1 && (t + 1) / n == t / n
  {
    var q, r := t / n, t % n;
    assert t == n * q + r;
    if r == n - 1 {
      assert t + 1 == n * (q + 1);
      DivModUnique(n, q + 1, 0, t + 1);
    } else {
      DivModUnique(n, q, r + 1, t + 1);
    }
  }

  lemma DivModUnique(n: nat, q: nat, r: nat, t: nat)
    requires n > 0 && r < n && t == n * q + r
    ensures t / n == q && t % n == r
  {
    var d := t / n - q;
    assert n * d == r - t % n by { assert n * (t / n) - n * q == n * d; }
    Multiples(n, d);
  }

  lemma Multiples(n: nat, d: int)
    ensures d > 0 ==> n * d >= n
    ensures d < 0 ==> n * d <= -(n as int)
  {
  }

  /** How many of the first `t` pods, dealt round robin, shard `s` has. */
  function Share(n: nat, t: nat, s: nat): nat
    requires n > 0
  {
    t / n + if s < t % n then 1 else 0
  }

  /** The first `t` pods have been dealt out round robin. */
  ghost predicate RoundRobin(n: nat, l: ShardLayout, t: nat)
    requires n > 0
  {
    && (forall i: nat :: i in l.shardOf <==> i < t)
    && (forall i: nat :: i < t ==> l.shardOf[i] == i % n)
    && (forall s: nat :: s < n ==> |l.MembersOf(s)| == Share(n, t, s))
  }

  lemma {:induction false} NextIsLeastLoaded(n: nat, l: ShardLayout, t: nat, k: nat)
    requires 0 < k <= n && RoundRobin(n, l, t)
    ensures LeastLoaded(l, k) == if t % n < k then t % n else 0
  {
    if k > 1 { NextIsLeastLoaded(n, l, t, k - 1); }
  }

  lemma DealNext(n: nat, l: ShardLayout, t: nat)
    requires n > 0 && RoundRobin(n, l, t)
    ensures LeastLoaded(l, n) == t % n
    ensures RoundRobin(n, l.Assign(t, t % n), t + 1)
  {
    NextIsLeastLoaded(n, l, t, n);
    DivModStep(n, t);
    var l' := l.Assign(t, t % n);
    forall s: nat | s < n ensures |l'.MembersOf(s)| == Share(n, t + 1, s) {
      assert |l.MembersOf(s)| == Share(n, t, s);
    }
  }

  lemma DealtRoundRobin(n: nat)
    requires n > 0
    ensures RoundRobin(n, Dealt(n), n)
  {
    DealtProperties(n);
    DivModUnique(n, 1, 0, n);
    forall i: nat | i < n ensures i == i % n { DivModUnique(n, 0, i, i); }
  }

  lemma {:induction false} FreshBalance(n: nat, desired: nat, t: nat)
    requires 0 < n <= t <= desired
    ensures RoundRobin(n, Balance(n, Dealt(n), Count(desired)[n..t]), t)
    ensures Balance(n, Dealt(n), Count(desired)[n..t]).primaryOf == Dealt(n).primaryOf
  {
    hide RoundRobin, Dealt, Count, LeastLoaded;
    if t == n {
      assert Count(desired)[n..n] == [] by { CountSlice(desired, n, n); }
      DealtRoundRobin(n);
    } else {
      FreshBalance(n, desired, t - 1);
      CountSlice(desired, n, t);
      DealNext(n, Balance(n, Dealt(n), Count(desired)[n..t - 1]), t - 1);
    }
  }

  lemma CountSlice(desired: nat, n: nat, t: nat)
    requires n <= t <= desired
    ensures |Count(desired)| == desired
    ensures n < t ==>
              Count(desired)[n..t][..t - n - 1] == Count(desired)[n..t - 1] && Count(desired)[n..t][t - n - 1] == t - 1
  {
  }

  /** Fresh layout: pod `i` lands in shard `i mod n`, the first `n` pods lead, and every shard has its share. */
  lemma FreshLayoutIsRoundRobin(input: Input, l: ShardLayout)
    requires input.Valid() && Fresh(input) && Planned(input, l)
    ensures forall s: nat :: s in l.primaryOf <==> s < input.n
    ensures forall s: nat :: s < input.n ==> l.primaryOf[s] == s
    ensures forall i: nat :: i in l.shardOf <==> i < input.desired
    ensures forall i: nat :: i < input.desired ==> l.shardOf[i] == i % input.n
    ensures input.desired == input.n * (1 + input.replicas) && input.replicas >= 0 ==>
              forall s: nat :: s < input.n ==> |l.MembersOf(s)| == 1 + input.replicas
  {
    hide PlannedWith, Balance, RoundRobin;
    var ch :| PlannedWith(input, ch, l);
    FreshStages(input, ch, l);
    var l0 := Balance(input.n, Dealt(input.n), Count(input.desired)[input.n..input.desired]);
    FreshBalance(input.n, input.desired, input.desired);
    DealtProperties(input.n);
    RoundRobinShares(input.n, l0, input.desired, input.replicas);
    forall s: nat ensures |l.MembersOf(s)| == |l0.MembersOf(s)| {
      SortLength(l0, s);
    }
  }

  lemma RoundRobinShares(n: nat, l: ShardLayout, desired: nat, replicas: int)
    requires n > 0 && RoundRobin(n, l, desired)
    ensures forall i: nat :: i in l.shardOf <==> i < desired
    ensures forall i: nat :: i < desired ==> l.shardOf[i] == i % n
    ensures desired == n * (1 + replicas) && replicas >= 0 ==> forall s: nat :: s < n ==>
              |l.MembersOf(s)| == 1 + replicas
  {
    if desired == n * (1 + replicas) && replicas >= 0 {
      DivModUnique(n, 1 + replicas, 0, desired);
    }
  }

  lemma SortLength(l: ShardLayout, s: nat)
    ensures |SortMembers(l).MembersOf(s)| == |l.MembersOf(s)|
  {
    if s in l.members { SortPodsLength(l.members[s]); }
  }

  lemma {:induction false} SortPodsLength(pods: seq<Pod>)
    ensures |SortPods(pods)| == |pods|
  {
    if pods != [] {
      SortPodsLength(pods[..|pods| - 1]);
      InsertPodLength(SortPods(pods[..|pods| - 1]), pods[|pods| - 1]);
    }
  }

  lemma {:induction false} InsertPodLength(pods: seq<Pod>, p: Pod)
    ensures |InsertPod(pods, p)| == |pods| + 1
  {
    if pods != [] { InsertPodLength(pods[..|pods| - 1], p); }
  }

  lemma FreshStages(input: Input, ch: Choices, l: ShardLayout)
    requires input.Valid() && Fresh(input) && PlannedWith(input, ch, l)
    ensures l == SortMembers(Balance(input.n, Dealt(input.n), Count(input.desired)[input.n..input.desired]))
  {
    hide Attach, HeirStep, OwnerClaims;
    NamesCount(ch.names, input.desired);
    FreshAttach(input, ch.index, input.desired);
    NoClaims(input, ch.claims, ch.owned);
    FreshFilled(input, ch);
    DealtProperties(input.n);
    NoHeirs(input.desired, ch.heirs, input.n);
  }

  lemma FreshFilled(input: Input, ch: Choices)
    requires input.Valid() && Attached(input, ch) == Draft(EMPTY, Count(input.desired))
    ensures Filled(input, ch).layout == Dealt(input.n)
    ensures Leftover(input, ch) == Count(input.desired)[input.n..input.desired]
  {
    FilterCount(input.desired, input.desired);
    FreshFill(input.desired, input.n);
    var rest := Count(input.desired)[input.n..];
    assert rest + [] == rest == Count(input.desired)[input.n..input.desired];
  }
}
