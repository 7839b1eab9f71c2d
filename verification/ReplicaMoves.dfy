/** Balancing replicas: what planned moves may do, and where they lead. */
module ReplicaMoves {
  import opened Types
  import opened Layout
  import opened Claims

  predicate IsReplica(desired: nat, l: ShardLayout, p: Pod) {
    p in l.shardOf && p < desired && !l.IsPrimary(p)
  }

  /** A connected, slotless, surviving replica that says whom it follows. */
  predicate Movable(input: Input, l: ShardLayout, p: Pod) {
    var status := StatusOf(input.statuses, p);
    IsReplica(input.desired, l, p) && status.connected && status.role == Slave && status.primaryNodeID != ""
      && |status.slotsServed| == 0
  }

  /** Where a placed pod ends up once the moves are carried out. */
  function Destination(l: ShardLayout, moves: map<Pod, nat>, p: Pod): nat
    requires p in l.shardOf
  {
    if p in moves then moves[p] else l.shardOf[p]
  }

  ghost function ReplicasAt(desired: nat, l: ShardLayout, moves: map<Pod, nat>, shard: nat): set<Pod> {
    set p | p in l.shardOf && IsReplica(desired, l, p) && Destination(l, moves, p) == shard
  }

  ghost function After(input: Input, l: ShardLayout, moves: map<Pod, nat>, shard: nat): nat {
    |ReplicasAt(input.desired, l, moves, shard)|
  }

  ghost function Before(input: Input, l: ShardLayout, shard: nat): nat {
    After(input, l, map[], shard)
  }

  /** Every shard has a primary and none is handing over. */
  ghost predicate Settled(n: nat, l: ShardLayout) {
    forall s :: 0 <= s < n ==> s in l.primaryOf && !l.HandingOver(s)
  }

  /** Only movable replicas move, from a shard with too many to one with too few. */
  ghost predicate Justified(input: Input, l: ShardLayout, moves: map<Pod, nat>) {
    forall p :: p in moves ==>
      && Movable(input, l, p)
      && l.shardOf[p] < input.n && moves[p] < input.n
      && Before(input, l, l.shardOf[p]) > input.replicas > Before(input, l, moves[p])
  }

  /** No shard crosses the desired count: a source keeps at least that many, a target gets at most that many. */
  ghost predicate WithinBounds(input: Input, l: ShardLayout, moves: map<Pod, nat>) {
    forall s :: 0 <= s < input.n ==>
      && (Before(input, l, s) >= input.replicas ==> input.replicas <= After(input, l, moves, s) <= Before(input, l, s))
      && (Before(input, l, s) <= input.replicas ==> Before(input, l, s) <= After(input, l, moves, s) <= input.replicas)
  }

  /** A replica that could still go from a shard with too many to one with too few. */
  ghost predicate Missed(input: Input, l: ShardLayout, moves: map<Pod, nat>, p: Pod, target: nat) {
    && Movable(input, l, p) && p !in moves && l.shardOf[p] < input.n && target < input.n
    && After(input, l, moves, l.shardOf[p]) > input.replicas > After(input, l, moves, target)
  }

  ghost predicate GoodMoves(input: Input, l: ShardLayout, moves: map<Pod, nat>) {
    if !Settled(input.n, l) then moves == map[]
    else Justified(input, l, moves) && WithinBounds(input, l, moves) && forall p, t :: !Missed(input, l, moves, p, t)
  }

  /** The pod is of a lower shard, or of the same shard and a higher ordinal. */
  ghost predicate Precedes(l: ShardLayout, q: Pod, p: Pod) {
    q in l.shardOf && p in l.shardOf && (l.shardOf[q] < l.shardOf[p] || (l.shardOf[q] == l.shardOf[p] && q > p))
  }

  /** Which replicas move, and where to: of each source the highest ordinals move, and the lower the source and the
      higher the ordinal, the lower the target; a target gets none while a lower one lacks replicas, and a source
      gives none while a lower one still can. */
  ghost predicate MovesInOrder(input: Input, l: ShardLayout, moves: map<Pod, nat>) {
    && (forall p, q :: p in moves && Movable(input, l, q) && l.Placed(p, l.shardOf[q]) && q > p ==> q in moves)
    && (forall p, q :: p in moves && q in moves && Precedes(l, q, p) ==> moves[q] <= moves[p])
    && (forall p, t: nat :: p in moves && t < moves[p] ==> After(input, l, moves, t) >= input.replicas)
    && (forall p, s: nat :: p in moves && p in l.shardOf && s < l.shardOf[p] ==> Exhausted(input, l, moves, s))
  }

  /** What planning yields: a membership, and moves that are good for it, made in order. */
  ghost predicate PlanResult(input: Input, l: ShardLayout)
    requires input.Valid()
  {
    var base := l.(replicaMoves := map[]);
    Planned(input, base) && GoodMoves(input, base, l.replicaMoves) && MovesInOrder(input, base, l.replicaMoves)
  }

  /** One more move shifts one replica and nothing else. */
  lemma MoveShifts(input: Input, l: ShardLayout, moves: map<Pod, nat>, p: Pod, target: nat)
    requires IsReplica(input.desired, l, p) && p !in moves && target != l.shardOf[p]
    ensures var moves' := moves[p := target];
            && After(input, l, moves', l.shardOf[p]) == After(input, l, moves, l.shardOf[p]) - 1
            && After(input, l, moves', target) == After(input, l, moves, target) + 1
            && forall s: nat :: s != target && s != l.shardOf[p] ==>
                After(input, l, moves', s) == After(input, l, moves, s)
  {
    hide ReplicasAt;
    var moves', from := moves[p := target], l.shardOf[p];
    SetShifts(input.desired, l, moves, p, target, from);
    SetShifts(input.desired, l, moves, p, target, target);
    forall s: nat | s != target && s != from ensures After(input, l, moves', s) == After(input, l, moves, s) {
      SetShifts(input.desired, l, moves, p, target, s);
    }
  }

  lemma SetShifts(desired: nat, l: ShardLayout, moves: map<Pod, nat>, p: Pod, target: nat, s: nat)
    requires IsReplica(desired, l, p) && p !in moves && target != l.shardOf[p]
    ensures var before, after := ReplicasAt(desired, l, moves, s), ReplicasAt(desired, l, moves[p := target], s);
            && (s == l.shardOf[p] ==> p in before && after == before - {p})
            && (s == target ==> p !in before && after == before + {p})
            && (s != l.shardOf[p] && s != target ==> after == before)
  {
    var before, after := ReplicasAt(desired, l, moves, s), ReplicasAt(desired, l, moves[p := target], s);
    forall q | q != p ensures q in before <==> q in after {
      assert q in l.shardOf ==> Destination(l, moves[p := target], q) == Destination(l, moves, q);
    }
  }

  /** A shard without too many replicas, or with none left that could move. */
  ghost predicate Exhausted(input: Input, l: ShardLayout, moves: map<Pod, nat>, shard: nat) {
    || After(input, l, moves, shard) <= input.replicas
    || forall p :: Movable(input, l, p) && l.shardOf[p] == shard ==> p in moves
  }

  /** A target that needs no more, or for which every source is exhausted. */
  ghost predicate Served(input: Input, l: ShardLayout, moves: map<Pod, nat>, target: nat) {
    || After(input, l, moves, target) >= input.replicas
    || forall s :: 0 <= s < input.n ==> Exhausted(input, l, moves, s)
  }

  /** A move from a shard with too many to one with too few keeps all that was achieved. */
  lemma MoveKeeps(input: Input, l: ShardLayout, moves: map<Pod, nat>, p: Pod, target: nat)
    requires Justified(input, l, moves) && WithinBounds(input, l, moves)
    requires Movable(input, l, p) && p !in moves && l.shardOf[p] < input.n && target < input.n
    requires After(input, l, moves, l.shardOf[p]) > input.replicas > After(input, l, moves, target)
    ensures Justified(input, l, moves[p := target]) && WithinBounds(input, l, moves[p := target])
    ensures forall s: nat :: Exhausted(input, l, moves, s) ==> Exhausted(input, l, moves[p := target], s)
    ensures forall t: nat :: Served(input, l, moves, t) ==> Served(input, l, moves[p := target], t)
  {
    hide After;
    MoveShifts(input, l, moves, p, target);
    forall s: nat | Exhausted(input, l, moves, s) ensures Exhausted(input, l, moves[p := target], s) {
    }
    assert !Exhausted(input, l, moves, l.shardOf[p]);
    forall t: nat | Served(input, l, moves, t) ensures Served(input, l, moves[p := target], t) {
      assert After(input, l, moves, t) >= input.replicas;
    }
  }

  /** The next move in order: the highest replica of the lowest source that can still give, to the lowest target
      that lacks one. */
  lemma MoveKeepsOrder(input: Input, l: ShardLayout, moves: map<Pod, nat>, p: Pod, target: nat)
    requires MovesInOrder(input, l, moves) && Justified(input, l, moves) && WithinBounds(input, l, moves)
    requires Movable(input, l, p) && p !in moves && l.shardOf[p] < input.n && target < input.n
    requires After(input, l, moves, l.shardOf[p]) > input.replicas > After(input, l, moves, target)
    requires forall q :: q in moves ==> moves[q] <= target
    requires forall q: Pod :: Movable(input, l, q) && l.shardOf[q] == l.shardOf[p] && q > p ==> q in moves
    requires forall t: nat :: t < target ==> Served(input, l, moves, t)
    requires forall s: nat :: s < l.shardOf[p] ==> Exhausted(input, l, moves, s)
    ensures MovesInOrder(input, l, moves[p := target])
  {
    hide After, Justified, WithinBounds, Exhausted;
    var moves' := moves[p := target];
    assert !Exhausted(input, l, moves, l.shardOf[p]) by { NotExhausted(input, l, moves, p); }
    MoveKeeps(input, l, moves, p, target);
    MoveShifts(input, l, moves, p, target);
    forall a, b | a in moves' && b in moves' && Precedes(l, b, a) ensures moves'[b] <= moves'[a] {
    }
    forall q, t: nat | q in moves' && t < moves'[q] ensures After(input, l, moves', t) >= input.replicas {
      if q == p { assert Served(input, l, moves, t); }
    }
    forall q, s: nat | q in moves' && q in l.shardOf && s < l.shardOf[q] ensures Exhausted(input, l, moves', s) {
      assert Exhausted(input, l, moves, s);
    }
  }

  lemma NotExhausted(input: Input, l: ShardLayout, moves: map<Pod, nat>, p: Pod)
    requires Movable(input, l, p) && p !in moves && After(input, l, moves, l.shardOf[p]) > input.replicas
    ensures !Exhausted(input, l, moves, l.shardOf[p])
  {
  }

  lemma NoMoves(input: Input, l: ShardLayout)
    ensures Justified(input, l, map[]) && WithinBounds(input, l, map[]) && MovesInOrder(input, l, map[])
  {
  }

  lemma NothingMissed(input: Input, l: ShardLayout, moves: map<Pod, nat>)
    requires forall t :: 0 <= t < input.n ==> Served(input, l, moves, t)
    ensures forall p, t :: !Missed(input, l, moves, p, t)
  {
    hide After;
    forall p, t: nat ensures !Missed(input, l, moves, p, t) {
      if p in l.shardOf && l.shardOf[p] < input.n && t < input.n && After(input, l, moves, t) < input.replicas {
        assert Served(input, l, moves, t);
        assert Exhausted(input, l, moves, l.shardOf[p]);
      }
    }
  }

  // ---------------------------------------------------------------- totals

  ghost function Total(input: Input, l: ShardLayout, moves: map<Pod, nat>, k: nat): nat {
    if k == 0 then 0 else Total(input, l, moves, k - 1) + After(input, l, moves, k - 1)
  }

  ghost function ReplicasBelow(desired: nat, l: ShardLayout, moves: map<Pod, nat>, k: nat): set<Pod> {
    set p | p in l.shardOf && IsReplica(desired, l, p) && Destination(l, moves, p) < k
  }

  lemma {:induction false} TotalCounts(input: Input, l: ShardLayout, moves: map<Pod, nat>, k: nat)
    ensures Total(input, l, moves, k) == |ReplicasBelow(input.desired, l, moves, k)|
  {
    if k == 0 {
      assert ReplicasBelow(input.desired, l, moves, 0) == {};
    } else {
      TotalCounts(input, l, moves, k - 1);
      assert ReplicasBelow(input.desired, l, moves, k)
          == ReplicasBelow(input.desired, l, moves, k - 1) + ReplicasAt(input.desired, l, moves, k - 1);
    }
  }

  /** The moves conserve the surviving replicas of the desired shards. */
  lemma MovesConserve(input: Input, l: ShardLayout, moves: map<Pod, nat>)
    requires GoodMoves(input, l, moves)
    ensures Total(input, l, moves, input.n) == Total(input, l, map[], input.n)
  {
    TotalCounts(input, l, moves, input.n);
    TotalCounts(input, l, map[], input.n);
    assert ReplicasBelow(input.desired, l, moves, input.n) == ReplicasBelow(input.desired, l, map[], input.n);
  }

  // ---------------------------------------------------------------- reaching balance

  /** Sum `n * r` with no summand on one side of `r` means every summand is `r`. */
  lemma {:induction false} AllEqual(input: Input, l: ShardLayout, moves: map<Pod, nat>, k: nat)
    requires (forall s :: 0 <= s < k ==> After(input, l, moves, s) >= input.replicas)
          || (forall s :: 0 <= s < k ==> After(input, l, moves, s) <= input.replicas)
    ensures (forall s :: 0 <= s < k ==> After(input, l, moves, s) >= input.replicas) ==>
              Total(input, l, moves, k) >= k * input.replicas
    ensures (forall s :: 0 <= s < k ==> After(input, l, moves, s) <= input.replicas) ==>
              Total(input, l, moves, k) <= k * input.replicas
    ensures Total(input, l, moves, k) == k * input.replicas ==> forall s :: 0 <= s < k ==>
              After(input, l, moves, s) == input.replicas
  {
    if k > 0 {
      AllEqual(input, l, moves, k - 1);
      assert k * input.replicas == (k - 1) * input.replicas + input.replicas;
    }
  }

  /** If the desired shards are settled, hold every survivor, and all surviving replicas can move,
      the moves leave each shard with exactly the desired number of replicas. */
  lemma MovesReachBalance(input: Input, l: ShardLayout, moves: map<Pod, nat>)
    requires input.Valid() && input.replicas >= 0 && input.desired == input.n * (1 + input.replicas)
    requires GoodMoves(input, l, moves) && Settled(input.n, l)
    requires forall s :: 0 <= s < input.n ==> l.Placed(l.primaryOf[s], s) && l.primaryOf[s] < input.desired
    requires forall p :: 0 <= p < input.desired ==> p in l.shardOf && l.shardOf[p] < input.n
    requires forall p :: IsReplica(input.desired, l, p) ==> Movable(input, l, p)
    ensures forall s :: 0 <= s < input.n ==> After(input, l, moves, s) == input.replicas
  {
    hide After, Total, GoodMoves, IsReplica, Movable;
    TotalIs(input, l, moves);
    Distribute(input.n, input.replicas);
    forall s, t | 0 <= s < input.n && 0 <= t < input.n && After(input, l, moves, s) > input.replicas
      ensures After(input, l, moves, t) >= input.replicas
    {
      NoneMissed(input, l, moves, s, t);
    }
    AllEqual(input, l, moves, input.n);
  }

  /** When every replica can move, none is left over while a shard still lacks one. */
  lemma NoneMissed(input: Input, l: ShardLayout, moves: map<Pod, nat>, s: nat, t: nat)
    requires GoodMoves(input, l, moves) && Settled(input.n, l) && s < input.n && t < input.n
    requires forall p :: IsReplica(input.desired, l, p) ==> Movable(input, l, p)
    requires After(input, l, moves, s) > input.replicas && input.replicas >= 0
    ensures After(input, l, moves, t) >= input.replicas
  {
    assert Before(input, l, s) > input.replicas;
    assert ReplicasAt(input.desired, l, moves, s) != {};
    var p :| p in ReplicasAt(input.desired, l, moves, s);
    assert p !in moves && l.shardOf[p] == s;
    assert !Missed(input, l, moves, p, t);
  }

  lemma TotalIs(input: Input, l: ShardLayout, moves: map<Pod, nat>)
    requires input.Valid() && Settled(input.n, l) && GoodMoves(input, l, moves)
    requires forall s :: 0 <= s < input.n ==> l.Placed(l.primaryOf[s], s) && l.primaryOf[s] < input.desired
    requires forall p :: 0 <= p < input.desired ==> p in l.shardOf && l.shardOf[p] < input.n
    ensures Total(input, l, moves, input.n) == input.desired - input.n
  {
    TotalCounts(input, l, moves, input.n);
    CountSurvivingReplicas(input, l, moves);
  }

  lemma Distribute(n: int, r: int)
    ensures n * (1 + r) - n == n * r
  {
  }

  lemma LeaderIsNot(n: nat, l: ShardLayout, leaders: map<nat, Pod>, p: Pod)
    requires p in l.shardOf && l.shardOf[p] < n && p !in leaders.Values
    requires forall s :: 0 <= s < n ==> s in leaders && s in l.primaryOf && leaders[s] == l.primaryOf[s]
    ensures !l.IsPrimaryOf(p, l.shardOf[p])
  {
    assert leaders[l.shardOf[p]] != p;
  }

  lemma LeadersAreMany(n: nat, l: ShardLayout, leaders: map<nat, Pod>)
    requires forall s: nat :: s in leaders <==> s < n
    requires forall s :: s in leaders ==> l.Placed(leaders[s], s)
    ensures |leaders.Values| == n
  {
    ValuesBound(leaders);
    assert |leaders| == |leaders.Keys|;
    PrefixBound(leaders.Keys, n);
    Bounded(leaders.Keys, n);
  }

  lemma ReplicasAreTheRest(input: Input, l: ShardLayout, moves: map<Pod, nat>, leaders: map<nat, Pod>,
                           survivors: set<Pod>)
    requires Settled(input.n, l) && Justified(input, l, moves)
    requires leaders == map s: nat | s < input.n :: l.primaryOf[s]
    requires forall s :: s in leaders ==> l.Placed(leaders[s], s)
    requires survivors == set p | p in l.shardOf && p < input.desired
    requires forall p :: p in survivors ==> l.shardOf[p] < input.n
    ensures ReplicasBelow(input.desired, l, moves, input.n) == survivors - leaders.Values
  {
    forall p | p in survivors - leaders.Values ensures p in ReplicasBelow(input.desired, l, moves, input.n) {
      assert !l.IsPrimaryOf(p, l.shardOf[p]) by { LeaderIsNot(input.n, l, leaders, p); }
    }
    forall p | p in ReplicasBelow(input.desired, l, moves, input.n) ensures p in survivors - leaders.Values {
      forall s | s in leaders ensures leaders[s] != p {
        assert l.Placed(leaders[s], s);
      }
    }
  }

  lemma CountSurvivingReplicas(input: Input, l: ShardLayout, moves: map<Pod, nat>)
    requires input.Valid() && Settled(input.n, l) && Justified(input, l, moves)
    requires forall s :: 0 <= s < input.n ==> l.Placed(l.primaryOf[s], s) && l.primaryOf[s] < input.desired
    requires forall p :: 0 <= p < input.desired ==> p in l.shardOf && l.shardOf[p] < input.n
    ensures |ReplicasBelow(input.desired, l, moves, input.n)| == input.desired - input.n
  {
    hide ReplicasBelow, Justified;
    var leaders := map s: nat | s < input.n :: l.primaryOf[s];
    LeadersAreMany(input.n, l, leaders);
    var survivors := set p | p in l.shardOf && p < input.desired;
    PrefixBound(survivors, input.desired);
    Bounded(survivors, input.desired);
    ReplicasAreTheRest(input, l, moves, leaders, survivors);
    assert leaders.Values <= survivors;
    assert |survivors| == |survivors - leaders.Values| + |leaders.Values|;
  }
}
