/** Bootstrapping the topology: give every uncovered slot to the primary of its shard, and make every
    other pod follow the primary it is meant to follow. */
module Bootstrap {
  import opened Types
  import opened Slots
  import opened Layout
  import opened ReplicaMoves
  import opened Ownership
  import opened Convergence
  import opened Coverage
  import opened Rebalance
  import opened PlanFacts
  import opened Totality
  import opened Claims
  import opened Planner

  datatype Progress = Complete | Blocked | Failed

  /** The slots of a running cluster. A command may be refused, without effect. */
  class SlotMap {
    var own: Owner
    ghost var refused: nat

    /** CLUSTER ADDSLOTSRANGE refuses slots that have an owner, so nobody may ask for one. */
    method AddSlots(pod: Pod, lo: int, hi: int) returns (ok: bool)
      requires lo <= hi && forall x :: lo <= x <= hi ==> x !in own
      modifies this
      ensures own == if ok then Reassigned(old(own), lo, hi, pod) else old(own)
      ensures refused == if ok then old(refused) else old(refused) + 1
    {
      ok := *;
      if ok {
        own := Reassigned(own, lo, hi, pod);
      } else {
        refused := refused + 1;
      }
    }
  }

  /** Slots already owned stay where they are; new ones are at the primary of their shard. */
  ghost predicate Extended(n: nat, primaryOf: map<nat, Pod>, before: Owner, after: Owner)
    requires n > 0
  {
    && (forall x :: x in before ==> x in after && after[x] == before[x])
    && (forall x :: x in after && x !in before ==>
          0 <= x < SLOTS && ShardOfSlot(n, x) in primaryOf && after[x] == primaryOf[ShardOfSlot(n, x)])
  }

  /** The marks agree with the owners. */
  ghost predicate Marked(own: Owner, coverage: seq<bool>) {
    |coverage| == SLOTS && forall x :: 0 <= x < SLOTS ==> (coverage[x] <==> x in own)
  }

  /** Add one run to its primary and mark it. */
  method AddRun(n: nat, primaryOf: map<nat, Pod>, shard: nat, r: SlotRange, slots: SlotMap, coverage: array<bool>,
                ghost before: Owner)
    returns (ok: bool)
    requires shard < n && shard in primaryOf && coverage.Length == SLOTS && Marked(slots.own, coverage[..])
    requires Extended(n, primaryOf, before, slots.own)
    requires 0 <= r.start <= r.end < SLOTS && forall x :: r.start <= x <= r.end ==>
               !coverage[x] && RangeOf(n, shard).Contains(x)
    modifies slots, coverage
    ensures Extended(n, primaryOf, before, slots.own)
    ensures ok ==> Marked(slots.own, coverage[..])
    ensures ok ==> forall x :: 0 <= x < SLOTS ==> (coverage[x] <==> old(coverage[x]) || r.Contains(x))
    ensures !ok ==> coverage[..] == old(coverage[..]) && slots.own == old(slots.own)
    ensures slots.refused == if ok then old(slots.refused) else old(slots.refused) + 1
  {
    ok := slots.AddSlots(primaryOf[shard], r.start, r.end);
    forall x | r.start <= x <= r.end ensures ShardOfSlot(n, x) == shard { RangesPartition(n, x, shard); }
    if ok {
      var slot := r.start;
      while slot <= r.end
        invariant r.start <= slot <= r.end + 1
        invariant forall x :: 0 <= x < SLOTS ==> (coverage[x] <==> old(coverage[x]) || r.start <= x < slot)
        modifies coverage
      {
        coverage[slot] := true;
        slot := slot + 1;
      }
    }
  }

  /** Add the uncovered runs of one shard. */
  method AddShard(n: nat, primaryOf: map<nat, Pod>, shard: nat, range: SlotRange, slots: SlotMap,
                  coverage: array<bool>, ghost before: Owner)
    returns (ok: bool, acted: bool)
    requires shard < n && shard in primaryOf && range == RangeOf(n, shard) && coverage.Length == SLOTS
    requires Marked(slots.own, coverage[..]) && Extended(n, primaryOf, before, slots.own)
    modifies slots, coverage
    ensures Extended(n, primaryOf, before, slots.own)
    ensures ok ==> Marked(slots.own, coverage[..])
    ensures ok ==> forall x :: 0 <= x < SLOTS && (old(coverage[x]) || range.Contains(x)) ==> coverage[x]
    ensures !acted ==> slots.own == old(slots.own)
    ensures acted || !ok ==> exists x :: range.Contains(x) && 0 <= x < SLOTS && !old(coverage[x])
    ensures slots.refused == if ok then old(slots.refused) else old(slots.refused) + 1
  {
    hide RangeStart, Extended, UncoveredRuns;
    ghost var c := coverage[..];
    var runs := CalculateUncoveredSlotRanges(range, coverage);
    ok, acted := true, false;
    for i := 0 to |runs|
      invariant Extended(n, primaryOf, before, slots.own)
      invariant Marked(slots.own, coverage[..])
      invariant forall x :: 0 <= x < SLOTS ==> (coverage[x] <==> c[x] || InSome(runs[..i], x))
      invariant ok && slots.refused == old(slots.refused) && (!acted ==> slots.own == old(slots.own))
      invariant acted ==> exists x :: range.Contains(x) && 0 <= x < SLOTS && !c[x]
    {
      RunIsAddable(n, shard, c, runs, i);
      assert runs[i].Contains(runs[i].start) && !c[runs[i].start];
      assert runs[..i + 1] == runs[..i] + [runs[i]];
      forall x ensures InSome(runs[..i + 1], x) <==> InSome(runs[..i], x) || runs[i].Contains(x) {
        InSomeAppend(runs[..i], runs[i], x);
      }
      ok := AddRun(n, primaryOf, shard, runs[i], slots, coverage, before);
      if !ok {
        return;
      }
      acted := true;
    }
    assert runs[..|runs|] == runs;
    forall x | 0 <= x < SLOTS && range.Contains(x) ensures coverage[x] {
      RunsAreTheUncovered(range, c, runs, x);
    }
  }

  /** A run is inside the range, uncovered, and disjoint from the runs before it. */
  lemma RunIsAddable(n: nat, shard: nat, c: seq<bool>, runs: seq<SlotRange>, i: nat)
    requires shard < n && |c| == SLOTS && UncoveredRuns(RangeOf(n, shard), c, runs) && i < |runs|
    ensures 0 <= runs[i].start <= runs[i].end < SLOTS
    ensures forall x :: runs[i].Contains(x) ==> !c[x] && RangeOf(n, shard).Contains(x) && !InSome(runs[..i], x)
  {
    hide RangeStart;
    forall x | runs[i].Contains(x) ensures !c[x] && RangeOf(n, shard).Contains(x) && !InSome(runs[..i], x) {
      assert InSome(runs, x);
      RunsAreTheUncovered(RangeOf(n, shard), c, runs, x);
    }
  }

  /** Slot assignment: no owned slot changes hands, new slots go to the primary of their shard, each is
      added once, and a pass that completes leaves all slots owned. It is blocked only by a shard without a
      primary, and fails only because a command was refused, which is then the last it sent. */
  method AssignUncoveredSlots(n: nat, primaryOf: map<nat, Pod>, slots: SlotMap,
                              coverage: array<bool>) returns (progress: Progress, acted: bool)
    requires n > 0 && coverage.Length == SLOTS && Marked(slots.own, coverage[..])
    modifies slots, coverage
    ensures Extended(n, primaryOf, old(slots.own), slots.own)
    ensures progress == Complete ==> forall x :: 0 <= x < SLOTS ==> x in slots.own
    ensures progress == Blocked ==> exists s :: 0 <= s < n && s !in primaryOf
    ensures progress == Complete ==> forall s :: 0 <= s < n ==> s in primaryOf
    ensures !acted ==> slots.own == old(slots.own)
    ensures acted || progress == Failed ==> exists x :: 0 <= x < SLOTS && x !in old(slots.own)
    ensures slots.refused == if progress == Failed then old(slots.refused) + 1 else old(slots.refused)
  {
    ghost var before := slots.own;
    var ranges := CalculateClusterSlotRanges(n);
    RangeEnds(n);
    hide RangeStart, Extended;
    acted := false;
    assert Extended(n, primaryOf, before, slots.own) by { NothingAdded(n, primaryOf, before); }
    for shard := 0 to n
      invariant Extended(n, primaryOf, before, slots.own)
      invariant Marked(slots.own, coverage[..])
      invariant forall s :: 0 <= s < shard ==> s in primaryOf
      invariant slots.refused == old(slots.refused) && (!acted ==> slots.own == old(slots.own))
      invariant acted ==> exists x :: 0 <= x < SLOTS && x !in before
      invariant forall x :: 0 <= x < SLOTS && x in before ==> coverage[x]
      invariant forall x :: 0 <= x < RangeStart(n, shard) && x < SLOTS ==> coverage[x]
    {
      if shard !in primaryOf {
        return Blocked, acted;
      }
      var ok, added := AddShard(n, primaryOf, shard, ranges[shard], slots, coverage, before);
      acted := acted || added;
      if !ok {
        return Failed, acted;
      }
    }
    progress := Complete;
  }

  lemma NothingAdded(n: nat, primaryOf: map<nat, Pod>, own: Owner)
    requires n > 0
    ensures Extended(n, primaryOf, own, own)
  {
  }

  /** A table built from the statuses marks the owners when the statuses report them. */
  lemma CoverageMarksOwners(input: Input, own: Owner, coverage: seq<bool>)
    requires Observes(input, own) && Covers(input.statuses, coverage)
    ensures Marked(own, coverage)
  {
    forall x | 0 <= x < SLOTS ensures coverage[x] <==> x in own {
      if x in own {
        assert Owns(own, own[x], x);
        assert Serves(StatusOf(input.statuses, own[x]), x);
      }
      if coverage[x] {
        var p :| p in input.statuses && Serves(input.statuses[p], x);
        assert Serves(StatusOf(input.statuses, p), x);
        assert Owns(own, p, x);
      }
    }
  }

  // ---------------------------------------------------------------- replication

  datatype Reply = Accepted | Conflict | Error

  /** What the pods of a running cluster would report, and how they have answered. */
  class Replication {
    var live: Statuses
    ghost var conflicts: nat
    ghost var errors: nat

    /** CLUSTER REPLICATE: on success the pod follows the node; slots and node IDs stay as they are. */
    method Replicate(pod: Pod, nodeID: string) returns (reply: Reply)
      modifies this
      ensures live == if reply == Accepted then old(live)[pod := Following(StatusOf(old(live), pod), nodeID)]
              else old(live)
      ensures conflicts == old(conflicts) + if reply == Conflict then 1 else 0
      ensures errors == old(errors) + if reply == Error then 1 else 0
    {
      reply :| reply == Accepted || reply == Conflict || reply == Error;
      match reply
      case Accepted => live := live[pod := Following(StatusOf(live, pod), nodeID)];
      case Conflict => conflicts := conflicts + 1;
      case Error => errors := errors + 1;
    }
  }

  function Following(status: InstanceStatus, nodeID: string): InstanceStatus {
    status.(role := Slave, primaryNodeID := nodeID)
  }

  /** The shard a pod is meant for. */
  function Goal(l: ShardLayout, p: Pod): nat
    requires p in l.shardOf
  {
    Destination(l, l.replicaMoves, p)
  }

  /** Primaries, slot owners and pods of a shard in the middle of a handover are left alone. */
  predicate LeftAlone(input: Input, l: ShardLayout, p: Pod)
    requires p in l.shardOf
  {
    l.IsPrimary(p) || |StatusOf(input.statuses, p).slotsServed| > 0 || l.HandingOver(Goal(l, p))
  }

  function LeaderID(input: Input, l: ShardLayout, shard: nat): string {
    if shard in l.primaryOf then StatusOf(input.statuses, l.primaryOf[shard]).nodeID else ""
  }

  /** The pod is to follow a primary that has no node ID. */
  predicate Leaderless(input: Input, l: ShardLayout, p: Pod) {
    p in l.shardOf && !LeftAlone(input, l, p) && LeaderID(input, l, Goal(l, p)) == ""
  }

  /** What the report of a pod should be once it has been dealt with. */
  function Settling(input: Input, l: ShardLayout, p: Pod): InstanceStatus
    requires p in l.shardOf
  {
    var status := StatusOf(input.statuses, p);
    var id := LeaderID(input, l, Goal(l, p));
    if LeftAlone(input, l, p) || (status.role == Slave
      && (status.primaryNodeID == "" || status.primaryNodeID == id)) then status
    else Following(status, id)
  }

  /** Every pod below `k` reports what it should, and nobody else has changed. */
  ghost predicate SettledBelow(input: Input, l: ShardLayout, live: Statuses, k: nat) {
    && (forall p :: p in input.statuses ==> p in live)
    && (forall p: Pod :: p < k && p in l.shardOf ==> StatusOf(live, p) == Settling(input, l, p))
    && (forall p: Pod :: p >= k ==> StatusOf(live, p) == StatusOf(input.statuses, p))
    && (forall p: Pod :: p < k && p in l.shardOf && !LeftAlone(input, l, p) ==> LeaderID(input, l, Goal(l, p)) != "")
  }

  // What that comes to, read off the layout and the reports.

  /** The shard a pod is bound for: the one it is being moved to, or else its own. */
  function BoundFor(l: ShardLayout, p: Pod): nat
    requires p in l.shardOf
  {
    if p in l.replicaMoves then l.replicaMoves[p] else l.shardOf[p]
  }

  /** A desired pod that is to follow a primary: it leads nothing, owns no slots, and its shard is not led by a
      pod other than its slot owner. */
  ghost predicate IsFollower(input: Input, l: ShardLayout, p: Pod) {
    && p < input.desired && p in l.shardOf && (forall s :: s in l.primaryOf && l.Placed(p, s) ==> l.primaryOf[s] != p)
    && StatusOf(input.statuses, p).slotsServed == []
    && var s := BoundFor(l, p);
       s in l.ownerOf ==> s in l.primaryOf && l.primaryOf[s] == l.ownerOf[s]
  }

  /** The pod is a replica of the primary of the shard it is bound for, or one that does not say whom it follows. */
  ghost predicate InLine(input: Input, l: ShardLayout, p: Pod, status: InstanceStatus) {
    && p in l.shardOf && BoundFor(l, p) in l.primaryOf
    && var id := StatusOf(input.statuses, l.primaryOf[BoundFor(l, p)]).nodeID;
       id != "" && status.role == Slave && (status.primaryNodeID == id || status.primaryNodeID == "")
  }

  /** Every follower is in line, a follower that was not has been attached to its primary, and nothing else has
      changed about anybody. */
  ghost predicate FollowersAttached(input: Input, l: ShardLayout, live: Statuses) {
    && (forall p :: IsFollower(input, l, p) ==> InLine(input, l, p, StatusOf(live, p)))
    && (forall p :: if IsFollower(input, l, p) && !InLine(input, l, p, StatusOf(input.statuses, p)) then
                      var id := StatusOf(input.statuses, l.primaryOf[BoundFor(l, p)]).nodeID;
                      StatusOf(live, p) == StatusOf(input.statuses, p).(role := Slave, primaryNodeID := id)
                    else StatusOf(live, p) == StatusOf(input.statuses, p))
  }

  /** Every follower is in line already. */
  ghost predicate AllInLine(input: Input, l: ShardLayout) {
    forall p :: IsFollower(input, l, p) ==> InLine(input, l, p, StatusOf(input.statuses, p))
  }

  lemma FollowersAreNotLeftAlone(input: Input, l: ShardLayout, p: Pod)
    requires p in l.shardOf && p < input.desired
    ensures IsFollower(input, l, p) <==> !LeftAlone(input, l, p)
  {
  }

  lemma InLineNeedsNothing(input: Input, l: ShardLayout, p: Pod)
    requires p in l.shardOf
    ensures var status := StatusOf(input.statuses, p);
            var id := LeaderID(input, l, Goal(l, p));
            InLine(input, l, p, status) <==>
            id != "" && status.role == Slave && (status.primaryNodeID == "" || status.primaryNodeID == id)
  {
  }

  lemma SettledIsAttached(input: Input, l: ShardLayout, live: Statuses)
    requires SettledBelow(input, l, live, input.desired) && forall p :: 0 <= p < input.desired ==> p in l.shardOf
    ensures FollowersAttached(input, l, live)
  {
    hide LeftAlone, IsFollower;
    forall p: Pod
      ensures IsFollower(input, l, p) ==> InLine(input, l, p, StatusOf(live, p))
      ensures if IsFollower(input, l, p) && !InLine(input, l, p, StatusOf(input.statuses, p)) then
                var id := StatusOf(input.statuses, l.primaryOf[BoundFor(l, p)]).nodeID;
                StatusOf(live, p) == StatusOf(input.statuses, p).(role := Slave, primaryNodeID := id)
              else StatusOf(live, p) == StatusOf(input.statuses, p)
    {
      FollowersAreDesired(input, l, p);
      if p < input.desired {
        FollowersAreNotLeftAlone(input, l, p);
        InLineNeedsNothing(input, l, p);
        assert StatusOf(live, p) == Settling(input, l, p);
      }
    }
  }

  lemma NobodySettled(input: Input, l: ShardLayout)
    ensures SettledBelow(input, l, input.statuses, 0)
  {
  }

  /** One more pod that needs nothing, or that has been attached. */
  lemma SettleOne(input: Input, l: ShardLayout, live: Statuses, p: Pod)
    requires SettledBelow(input, l, live, p) && p in l.shardOf
    ensures StatusOf(live, p) == StatusOf(input.statuses, p)
    ensures LeftAlone(input, l, p) ==> SettledBelow(input, l, live, p + 1)
    ensures var status, id := StatusOf(live, p), LeaderID(input, l, Goal(l, p));
            !LeftAlone(input, l, p) && id != "" ==>
              if status.role == Slave && (status.primaryNodeID == "" || status.primaryNodeID == id) then
                SettledBelow(input, l, live, p + 1)
              else
                SettledBelow(input, l, live[p := Following(status, id)], p + 1)
  {
    hide LeftAlone, Goal, LeaderID;
  }

  lemma FollowersAreDesired(input: Input, l: ShardLayout, p: Pod)
    ensures IsFollower(input, l, p) ==> p < input.desired && p in l.shardOf
  {
  }

  /** Make every desired pod follow the primary it is meant to follow. The pass fails only because of an
      error, and is blocked only by a conflict or by a pod whose primary has no node ID. */
  method FollowPrimaries(input: Input, l: ShardLayout, cluster: Replication) returns (progress: Progress, acted: bool)
    requires cluster.live == input.statuses && forall p :: 0 <= p < input.desired ==> p in l.shardOf
    modifies cluster
    ensures progress == Complete ==> SettledBelow(input, l, cluster.live, input.desired)
    ensures progress == Complete ==> FollowersAttached(input, l, cluster.live)
    ensures acted || progress != Complete ==> !AllInLine(input, l)
    ensures exists k: nat :: k <= input.desired && SettledBelow(input, l, cluster.live, k)
    ensures !acted ==> cluster.live == old(cluster.live)
    ensures cluster.errors == old(cluster.errors) + if progress == Failed then 1 else 0
    ensures progress != Blocked ==> cluster.conflicts == old(cluster.conflicts)
    ensures progress == Blocked ==>
              || cluster.conflicts == old(cluster.conflicts) + 1
              || exists p :: 0 <= p < input.desired && Leaderless(input, l, p)
  {
    hide LeftAlone, Goal, LeaderID, IsFollower, InLine, FollowersAttached, SettledBelow;
    acted := false;
    NobodySettled(input, l);
    for p := 0 to input.desired
      invariant SettledBelow(input, l, cluster.live, p)
      invariant cluster.errors == old(cluster.errors) && cluster.conflicts == old(cluster.conflicts)
      invariant !acted ==> cluster.live == old(cluster.live)
      invariant acted ==> !AllInLine(input, l)
    {
      var status := StatusOf(input.statuses, p);
      FollowersAreNotLeftAlone(input, l, p);
      InLineNeedsNothing(input, l, p);
      SettleOne(input, l, cluster.live, p);
      if LeftAlone(input, l, p) {
        continue;
      }
      var id := LeaderID(input, l, Goal(l, p));
      if id == "" {
        assert Leaderless(input, l, p);
        return Blocked, acted;
      }
      if status.role == Slave && (status.primaryNodeID == "" || status.primaryNodeID == id) {
        continue;
      }
      var reply := cluster.Replicate(p, id);
      if reply == Conflict {
        return Blocked, acted;
      }
      if reply == Error {
        return Failed, acted;
      }
      acted := true;
    }
    progress := Complete;
    SettledIsAttached(input, l, cluster.live);
  }

  // ---------------------------------------------------------------- the whole pass

  /** The first desired pod, which introduces the others to the cluster, and the pods it was asked to meet. */
  class Coordinator {
    ghost var asked: seq<Pod>
    ghost var refused: nat

    method Meet(pod: Pod) returns (ok: bool)
      modifies this
      ensures asked == old(asked) + [pod] && refused == old(refused) + if ok then 0 else 1
    {
      ok := *;
      asked, refused := asked + [pod], refused + if ok then 0 else 1;
    }
  }

  /** The plan leaves nothing to do: all slots are owned, every shard has a primary, and every follower is in line. */
  ghost predicate Bootstrapped(input: Input, own: Owner, l: ShardLayout) {
    && (forall x :: 0 <= x < SLOTS ==> x in own)
    && (forall s :: 0 <= s < input.n ==> s in l.primaryOf)
    && AllInLine(input, l)
  }

  lemma FewPodsMissOne(input: Input)
    requires input.DesiredReachable()
    ensures |input.pods| >= input.desired
  {
    forall p: Pod | p < input.desired ensures p in input.pods { assert input.Reachable(p); }
    var first := set p | p in input.pods && p < input.desired;
    PrefixBound(first, input.desired);
    Bounded(first, input.desired);
    assert |input.pods| == |input.pods.Keys| && first <= input.pods.Keys;
    SubsetSize(first, input.pods.Keys);
  }

  /** One bootstrap pass. While a handover is pending it does nothing else and is not ready. It gives way as
      soon as a desired pod cannot be reached. Otherwise it introduces the desired pods to each other and plans,
      and it is ready if and only if nobody refused to be introduced, the plan leaves nothing to do and the
      cluster reports itself healthy; it is not ready in the pass that sends a command. */
  method ReconcileClusterBootstrap(spec: Spec, pods: map<Pod, PodMeta>, statuses: Statuses, pending: bool,
                                   healthy: bool, first: Coordinator, slots: SlotMap, cluster: Replication)
    returns (ready: bool, ghost plan: ShardLayout)
    requires Observes(InputOf(spec, pods, statuses), slots.own) && cluster.live == statuses
    modifies first, slots, cluster
    ensures pending ==> !ready
    ensures pending || !InputOf(spec, pods, statuses).DesiredReachable() ==>
              && slots.own == old(slots.own) && cluster.live == old(cluster.live)
              && first.asked == old(first.asked) && first.refused == old(first.refused)
    ensures !pending && !InputOf(spec, pods, statuses).DesiredReachable() ==> ready
    ensures ready ==> slots.own == old(slots.own) && cluster.live == old(cluster.live)
    ensures !pending && InputOf(spec, pods, statuses).DesiredReachable() ==>
              if first.refused != old(first.refused) then !ready
              else
                && first.asked == old(first.asked) + From(1, spec.Desired())
                && PlanResult(InputOf(spec, pods, statuses), plan)
                && (ready <==> healthy && Bootstrapped(InputOf(spec, pods, statuses), old(slots.own), plan))
  {
    hide Observes, PlanResult, SettledBelow, Covers, Extended, FollowersAttached, AllInLine;
    var input := InputOf(spec, pods, statuses);
    plan := EMPTY;
    if pending {
      return false, EMPTY;
    }
    if |pods| < input.desired {
      assert !input.DesiredReachable() by { if input.DesiredReachable() { FewPodsMissOne(input); } }
      return true, EMPTY;
    }
    for p := 0 to input.desired
      invariant forall q: Pod :: q < p ==> input.Reachable(q)
    {
      if !input.Reachable(p) {
        return true, EMPTY;
      }
    }
    for p := 1 to input.desired
      invariant first.asked == old(first.asked) + From(1, p) && first.refused == old(first.refused)
      modifies first
    {
      var met := first.Meet(p);
      if !met {
        return false, EMPTY;
      }
    }
    var builder := PlanShardLayout(input);
    var l := builder.View();
    plan := l;
    var coverage := CalculateSlotCoverage(statuses);
    CoverageMarksOwners(input, slots.own, coverage[..]);
    var progress, added := AssignUncoveredSlots(input.n, builder.primaryOf, slots, coverage);
    if progress != Complete {
      return false, l;
    }
    PlacedPods(input, l);
    var followed, moved := FollowPrimaries(input, l, cluster);
    if followed != Complete {
      return false, l;
    }
    if added || moved {
      return false, l;
    }
    assert AllInLine(input, l) by { UnmovedIsInLine(input, l, cluster.live); }
    ready := healthy;
  }

  /** The pods from `lo` to below `hi`, in order. */
  function From(lo: Pod, hi: nat): seq<Pod> {
    if hi <= lo then [] else From(lo, hi - 1) + [hi - 1]
  }

  lemma UnmovedIsInLine(input: Input, l: ShardLayout, live: Statuses)
    requires FollowersAttached(input, l, live) && live == input.statuses
    ensures AllInLine(input, l)
  {
  }

  lemma PlacedPods(input: Input, l: ShardLayout)
    requires input.Valid() && PlanResult(input, l)
    ensures forall p :: 0 <= p < input.desired ==> p in l.shardOf
  {
    hide Planned;
    PlanIsWellFormed(input, l.(replicaMoves := map[]));
    forall p: Pod | p < input.desired ensures p in l.shardOf { assert input.Named(p); }
  }

  /** A completed pass over settled shards executes the planned moves. */
  lemma BootstrapExecutesMoves(input: Input, l: ShardLayout, live: Statuses)
    requires SettledBelow(input, l, live, input.desired) && Settled(input.n, l) && UniqueNodes(live)
    requires forall p :: 0 <= p < input.desired ==> p in l.shardOf
    requires forall s :: s in l.primaryOf ==>
               s < input.n && l.primaryOf[s] in input.statuses && input.statuses[l.primaryOf[s]].nodeID != ""
    requires forall p :: IsReplica(input.desired, l, p) ==> Movable(input, l, p)
    ensures Executed(input, l.(replicaMoves := map[]), l.replicaMoves, input.(statuses := live))
  {
    var base := l.(replicaMoves := map[]);
    SettlingKeeps(input, l, live);
    forall s | s in base.primaryOf ensures base.primaryOf[s] in live && live[base.primaryOf[s]].nodeID != "" {
      assert StatusOf(live, l.primaryOf[s]).nodeID == StatusOf(input.statuses, l.primaryOf[s]).nodeID;
    }
    forall p | IsReplica(input.desired, base, p) && Destination(base, l.replicaMoves, p) in base.primaryOf
      ensures StatusOf(live, p).role == Slave
      ensures StatusOf(live, p).primaryNodeID == live[base.primaryOf[Destination(base, l.replicaMoves, p)]].nodeID
    {
      assert IsReplica(input.desired, l, p) && Movable(input, l, p);
      assert StatusOf(live, p) == Settling(input, l, p);
    }
  }

  /** Settling replicas changes nobody's slots and nobody's node ID. */
  lemma SettlingKeeps(input: Input, l: ShardLayout, live: Statuses)
    requires SettledBelow(input, l, live, input.desired) && forall p :: 0 <= p < input.desired ==> p in l.shardOf
    ensures forall p: Pod :: StatusOf(live, p).slotsServed == StatusOf(input.statuses, p).slotsServed
                          && StatusOf(live, p).nodeID == StatusOf(input.statuses, p).nodeID
  {
    hide LeftAlone, Goal, LeaderID;
    forall p: Pod ensures StatusOf(live, p).slotsServed == StatusOf(input.statuses, p).slotsServed
                       && StatusOf(live, p).nodeID == StatusOf(input.statuses, p).nodeID {
      if p < input.desired { assert StatusOf(live, p) == Settling(input, l, p); }
    }
  }

  lemma CompletePlan(input: Input, l: ShardLayout)
    requires input.Valid() && Planned(input, l) && |SlotOwners(input, l)| == input.n
    requires forall p: Pod :: input.OwnsSlots(p) ==> p < input.desired
    ensures Settled(input.n, l)
    ensures forall p :: 0 <= p < input.desired ==> p in l.shardOf
    ensures forall s :: s in l.primaryOf ==> s < input.n
  {
    hide PlannedWith, Owners, SlotOwners;
    var ch :| PlannedWith(input, ch, l);
    SlotOwnersAre(input, ch, l);
    OwnersSurvive(input, ch, l);
    CompleteIsSettled(input, ch, l);
    CompleteIsIdle(input, ch, l);
    forall p | 0 <= p < input.desired ensures p in l.shardOf { PlacedIffNamed(input, ch, l, p); }
    forall s | s in l.primaryOf ensures s < input.n { LeaderPlaced(input, ch, l, s); }
  }

  /** Balancing through a bootstrap pass: when the desired shards have exactly the surviving owners, every
      surviving replica can move and every command succeeds, the next plan has nothing left to move. */
  lemma BootstrapSettlesReplicas(input: Input, l: ShardLayout, live: Statuses, pods': map<Pod, PodMeta>,
                                 l': ShardLayout)
    requires input.Valid() && input.replicas >= 0 && input.desired == input.n * (1 + input.replicas)
    requires PlanResult(input, l) && |SlotOwners(input, l.(replicaMoves := map[]))| == input.n
    requires forall p: Pod :: input.OwnsSlots(p) ==> p < input.desired
    requires forall p :: IsReplica(input.desired, l, p) ==> Movable(input, l, p)
    requires forall s :: s in l.primaryOf ==>
               l.primaryOf[s] in input.statuses && input.statuses[l.primaryOf[s]].nodeID != ""
    requires SettledBelow(input, l, live, input.desired) && UniqueNodes(live)
    requires PlanResult(input.(pods := pods', statuses := live), l')
    ensures l'.replicaMoves == map[]
  {
    hide Planned, GoodMoves, SlotOwners, SettledBelow, Executed;
    var base := l.(replicaMoves := map[]);
    var input' := input.(pods := pods', statuses := live);
    CompletePlan(input, base);
    assert Settled(input.n, l) by { SettledIgnoresMoves(input.n, l); }
    BootstrapExecutesMoves(input, l, live);
    ExecutedIgnoresPods(input, base, l.replicaMoves, live, pods');
    forall p | IsReplica(input.desired, base, p) ensures Movable(input, base, p) {
      assert IsReplica(input.desired, l, p);
    }
    BalancingIsFinal(input, base, l.replicaMoves, input', l'.(replicaMoves := map[]), l'.replicaMoves);
  }

  lemma SettledIgnoresMoves(n: nat, l: ShardLayout)
    requires Settled(n, l.(replicaMoves := map[]))
    ensures Settled(n, l)
  {
    forall s | 0 <= s < n ensures s in l.primaryOf && !l.HandingOver(s) {
      assert !l.(replicaMoves := map[]).HandingOver(s);
    }
  }

  lemma ExecutedIgnoresPods(input: Input, l: ShardLayout, moves: map<Pod, nat>, live: Statuses,
                            pods': map<Pod, PodMeta>)
    requires Executed(input, l, moves, input.(statuses := live))
    ensures Executed(input, l, moves, input.(pods := pods', statuses := live))
  {
  }
}
