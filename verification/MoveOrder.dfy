/** The replica moves are determined: only one set of moves is good and made in order. */
module MoveOrder {
  import opened Types
  import opened Layout
  import opened Claims
  import opened ReplicaMoves

  /** Good moves of settled shards, made in order. */
  ghost predicate Orderly(input: Input, l: ShardLayout, moves: map<Pod, nat>) {
    Settled(input.n, l) && GoodMoves(input, l, moves) && MovesInOrder(input, l, moves)
  }

  predicate Goes(moves: map<Pod, nat>, p: Pod, target: nat) {
    p in moves && moves[p] == target
  }

  /** Both agree on who goes from a shard to a target. */
  ghost predicate Same(l: ShardLayout, moves: map<Pod, nat>, moves': map<Pod, nat>, target: nat, source: nat) {
    forall p :: l.Placed(p, source) ==> (Goes(moves, p, target) <==> Goes(moves', p, target))
  }

  /** Both agree on all moves to lower targets, and on those from lower sources to this one. */
  ghost predicate SameBefore(l: ShardLayout, moves: map<Pod, nat>, moves': map<Pod, nat>, target: nat, source: nat) {
    && (forall t: nat, s: nat :: t < target ==> Same(l, moves, moves', t, s))
    && (forall s: nat :: s < source ==> Same(l, moves, moves', target, s))
  }

  lemma MoverIs(input: Input, l: ShardLayout, moves: map<Pod, nat>, p: Pod)
    requires Orderly(input, l, moves) && p in moves
    ensures Movable(input, l, p) && l.Placed(p, l.shardOf[p]) && l.shardOf[p] < input.n && moves[p] < input.n
    ensures Before(input, l, l.shardOf[p]) > input.replicas > Before(input, l, moves[p])
  {
    hide Movable, Before;
    assert Movable(input, l, p);
    MovableIsPlaced(input, l, p);
  }

  lemma MovableIsPlaced(input: Input, l: ShardLayout, p: Pod)
    requires Movable(input, l, p)
    ensures l.Placed(p, l.shardOf[p]) && IsReplica(input.desired, l, p)
  {
  }

  lemma HighestMove(input: Input, l: ShardLayout, moves: map<Pod, nat>, p: Pod, q: Pod)
    requires Orderly(input, l, moves) && p in moves && Movable(input, l, q) && l.Placed(p, l.shardOf[q]) && q > p
    ensures q in moves && moves[q] <= moves[p]
  {
    hide Movable, After;
    MovableIsPlaced(input, l, q);
    assert Precedes(l, q, p);
  }

  lemma Bounds(input: Input, l: ShardLayout, moves: map<Pod, nat>, s: nat)
    requires Orderly(input, l, moves) && s < input.n
    ensures Before(input, l, s) >= input.replicas ==> After(input, l, moves, s) >= input.replicas
    ensures Before(input, l, s) <= input.replicas ==> After(input, l, moves, s) <= input.replicas
  {
    hide Movable, After;
  }

  /** The replicas that are at a source with too many are those that do not move away. */
  lemma AtSource(input: Input, l: ShardLayout, moves: map<Pod, nat>, s: nat, q: Pod)
    requires Orderly(input, l, moves) && Before(input, l, s) > input.replicas
    ensures q in ReplicasAt(input.desired, l, moves, s) <==>
            l.Placed(q, s) && IsReplica(input.desired, l, q) && q !in moves
  {
    hide Orderly, After, IsReplica;
    if q in moves { MoverIs(input, l, moves, q); }
  }

  /** The replicas that end up at a target with too few are those that are there and those that move there. */
  lemma AtTarget(input: Input, l: ShardLayout, moves: map<Pod, nat>, t: nat, q: Pod)
    requires Orderly(input, l, moves) && Before(input, l, t) < input.replicas
    ensures q in ReplicasAt(input.desired, l, moves, t) <==>
            (l.Placed(q, t) && IsReplica(input.desired, l, q)) || Goes(moves, q, t)
  {
    hide Orderly, After;
    if q in moves { MoverIs(input, l, moves, q); }
  }

  /** If one of them leaves out a move of the other, it leaves too many replicas at the source. */
  lemma SourceKeepsMore(input: Input, l: ShardLayout, moves: map<Pod, nat>, moves': map<Pod, nat>, p: Pod)
    requires Orderly(input, l, moves) && Orderly(input, l, moves') && p in moves' && p !in moves
    ensures p in l.shardOf && After(input, l, moves, l.shardOf[p]) > input.replicas
  {
    hide Orderly, Movable, ReplicasAt;
    MoverIs(input, l, moves', p);
    MovableIsPlaced(input, l, p);
    var s := l.shardOf[p];
    var kept, kept' := ReplicasAt(input.desired, l, moves, s), ReplicasAt(input.desired, l, moves', s);
    forall q | q in kept' ensures q in kept && q != p {
      AtSource(input, l, moves', s, q);
      AtSource(input, l, moves, s, q);
      if q in moves {
        MoverIs(input, l, moves, q);
        if q < p { HighestMove(input, l, moves, q, p); } else { HighestMove(input, l, moves', p, q); }
      }
    }
    AtSource(input, l, moves, s, p);
    SubsetSize(kept', kept - {p});
    Bounds(input, l, moves', s);
  }

  /** If one of them leaves out a move to a target and sends nobody there from later sources, the target gets
      too few. */
  lemma TargetGetsFewer(input: Input, l: ShardLayout, moves: map<Pod, nat>, moves': map<Pod, nat>, target: nat, p: Pod)
    requires Orderly(input, l, moves) && Orderly(input, l, moves') && Goes(moves', p, target)
    requires p in moves ==> moves[p] > target
    requires p in l.shardOf && SameBefore(l, moves, moves', target, l.shardOf[p])
    requires forall r :: Goes(moves, r, target) && r in l.shardOf ==> l.shardOf[r] <= l.shardOf[p]
    ensures After(input, l, moves, target) < input.replicas
  {
    hide Orderly, Movable, ReplicasAt, SameBefore;
    MoverIs(input, l, moves', p);
    var there, there' := ReplicasAt(input.desired, l, moves, target), ReplicasAt(input.desired, l, moves', target);
    forall q | q in there ensures q in there' && q != p {
      AtTarget(input, l, moves, target, q);
      AtTarget(input, l, moves', target, q);
      if Goes(moves, q, target) {
        MoverIs(input, l, moves, q);
        GoesToo(input, l, moves, moves', target, p, q);
      }
    }
    AtTarget(input, l, moves', target, p);
    SubsetSize(there, there' - {p});
    Bounds(input, l, moves', target);
  }

  lemma GoesToo(input: Input, l: ShardLayout, moves: map<Pod, nat>, moves': map<Pod, nat>, target: nat, p: Pod, q: Pod)
    requires Orderly(input, l, moves) && Orderly(input, l, moves') && Goes(moves', p, target) && Goes(moves, q, target)
    requires p in moves ==> moves[p] > target
    requires p in l.shardOf && SameBefore(l, moves, moves', target, l.shardOf[p])
    requires q in l.shardOf && l.shardOf[q] <= l.shardOf[p]
    ensures Goes(moves', q, target)
  {
    hide Orderly, Movable;
    var s := l.shardOf[q];
    assert l.Placed(q, s);
    MoverIs(input, l, moves', p);
    MoverIs(input, l, moves, q);
    if s < l.shardOf[p] {
      assert Same(l, moves, moves', target, s);
    } else if q < p {
      HighestMove(input, l, moves, q, p);
    } else {
      HighestMove(input, l, moves', p, q);
      assert moves'[q] < target ==> Same(l, moves, moves', moves'[q], s) && Goes(moves', q, moves'[q]);
    }
  }

  lemma LaterSourceNeedsExhausted(input: Input, l: ShardLayout, moves: map<Pod, nat>, r: Pod, p: Pod)
    requires Orderly(input, l, moves) && r in moves && r in l.shardOf && p in l.shardOf && l.shardOf[p] < l.shardOf[r]
    ensures p in moves ==> moves[p] <= moves[r]
    ensures Movable(input, l, p) && p !in moves ==> After(input, l, moves, l.shardOf[p]) <= input.replicas
  {
    hide Movable, After;
    assert Precedes(l, p, r);
    assert Exhausted(input, l, moves, l.shardOf[p]);
  }

  lemma NobodyIsMissed(input: Input, l: ShardLayout, moves: map<Pod, nat>, p: Pod, target: nat)
    requires Orderly(input, l, moves) && Movable(input, l, p) && l.shardOf[p] < input.n && target < input.n
    requires p in moves ==> moves[p] > target
    requires After(input, l, moves, target) < input.replicas
    ensures p !in moves && After(input, l, moves, l.shardOf[p]) <= input.replicas
  {
    hide Movable, After;
    assert !Missed(input, l, moves, p, target);
  }

  /** A move of one is a move of the other, if they agree on the moves before it. */
  lemma MoveIsShared(input: Input, l: ShardLayout, moves: map<Pod, nat>, moves': map<Pod, nat>, target: nat, p: Pod)
    requires Orderly(input, l, moves) && Orderly(input, l, moves') && Goes(moves', p, target)
    requires p in l.shardOf && SameBefore(l, moves, moves', target, l.shardOf[p])
    ensures Goes(moves, p, target)
  {
    hide Orderly, Movable, After;
    var s := l.shardOf[p];
    MoverIs(input, l, moves', p);
    if p in moves && moves[p] < target {
      assert Same(l, moves, moves', moves[p], s) && Goes(moves, p, moves[p]);
    } else if !Goes(moves, p, target) {
      if r :| Goes(moves, r, target) && r in l.shardOf && l.shardOf[r] > s {
        LaterSourceNeedsExhausted(input, l, moves, r, p);
      } else {
        TargetGetsFewer(input, l, moves, moves', target, p);
        NobodyIsMissed(input, l, moves, p, target);
      }
      SourceKeepsMore(input, l, moves, moves', p);
    }
  }

  lemma {:induction false} AllShared(input: Input, l: ShardLayout, moves: map<Pod, nat>, moves': map<Pod, nat>,
                                     target: nat, source: nat)
    requires Orderly(input, l, moves) && Orderly(input, l, moves')
    ensures SameBefore(l, moves, moves', target, source)
    decreases target, source
  {
    hide Orderly;
    forall t: nat, s: nat | t < target ensures Same(l, moves, moves', t, s) {
      AllShared(input, l, moves, moves', t, s + 1);
    }
    forall s: nat | s < source ensures Same(l, moves, moves', target, s) {
      AllShared(input, l, moves, moves', target, s);
      AllShared(input, l, moves', moves, target, s);
      forall p | l.Placed(p, s) ensures Goes(moves, p, target) <==> Goes(moves', p, target) {
        if Goes(moves', p, target) { MoveIsShared(input, l, moves, moves', target, p); }
        if Goes(moves, p, target) { MoveIsShared(input, l, moves', moves, target, p); }
      }
    }
  }

  /** Planning leaves no choice about the moves: two sets of good moves made in order are equal. */
  lemma MovesAreDetermined(input: Input, l: ShardLayout, moves: map<Pod, nat>, moves': map<Pod, nat>)
    requires GoodMoves(input, l, moves) && MovesInOrder(input, l, moves)
    requires GoodMoves(input, l, moves') && MovesInOrder(input, l, moves')
    ensures moves == moves'
  {
    hide Justified, WithinBounds, Missed, MovesInOrder, Settled, Movable;
    if Settled(input.n, l) {
      assert Orderly(input, l, moves) && Orderly(input, l, moves');
      forall p, t: nat ensures Goes(moves, p, t) <==> Goes(moves', p, t) {
        MoveIsDetermined(input, l, moves, moves', p, t);
      }
      forall p | p in moves ensures p in moves' && moves'[p] == moves[p] { assert Goes(moves, p, moves[p]); }
      forall p | p in moves' ensures p in moves { assert Goes(moves', p, moves'[p]); }
    }
  }

  lemma MoveIsDetermined(input: Input, l: ShardLayout, moves: map<Pod, nat>, moves': map<Pod, nat>, p: Pod, t: nat)
    requires Orderly(input, l, moves) && Orderly(input, l, moves')
    ensures Goes(moves, p, t) <==> Goes(moves', p, t)
  {
    hide Orderly, Movable;
    if p in moves { MoverIs(input, l, moves, p); }
    if p in moves' { MoverIs(input, l, moves', p); }
    if p in l.shardOf {
      AllShared(input, l, moves, moves', t, l.shardOf[p] + 1);
      assert Same(l, moves, moves', t, l.shardOf[p]) && l.Placed(p, l.shardOf[p]);
    }
  }
}
