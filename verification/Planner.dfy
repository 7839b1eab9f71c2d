/** Planning in place: the layout under construction is an object whose maps the phases update. */
module Planner {
  import opened Types
  import opened Slots
  import opened Matching
  import opened Ranking
  import opened Layout
  import opened Claims
  import opened LayoutInvariant
  import opened ReplicaMoves
  import opened PlanFacts

  class LayoutBuilder {
    var shardOf: map<Pod, nat>
    var primaryOf: map<nat, Pod>
    var ownerOf: map<nat, Pod>
    var members: map<nat, seq<Pod>>
    var replicaMoves: map<Pod, nat>
    var used: set<nat>

    constructor ()
      ensures View() == EMPTY && used == {}
    {
      shardOf, primaryOf, ownerOf, members, replicaMoves, used := map[], map[], map[], map[], map[], {};
    }

    function View(): ShardLayout
      reads this
    {
      ShardLayout(shardOf, primaryOf, ownerOf, members, replicaMoves)
    }

    method Assign(pod: Pod, shard: nat)
      modifies this`shardOf, this`members, this`used
      ensures View() == old(View()).Assign(pod, shard)
      ensures used == old(used) + {shard}
    {
      shardOf := shardOf[pod := shard];
      var before := if shard in members then members[shard] else [];
      members := members[shard := before + [pod]];
      used := used + {shard};
    }

    method Claim(desired: nat, pod: Pod, shard: nat)
      modifies this`shardOf, this`members, this`used, this`ownerOf, this`primaryOf
      ensures View() == old(View()).Claim(desired, pod, shard)
      ensures used == old(used) + {shard}
    {
      Assign(pod, shard);
      ownerOf := ownerOf[shard := pod];
      if pod < desired {
        primaryOf := primaryOf[shard := pod];
      }
    }

    method FirstUnused() returns (shard: nat)
      ensures shard == LowestUnused(used, 0)
    {
      shard := 0;
      while shard in used
        invariant LowestUnused(used, 0) == LowestUnused(used, shard)
        decreases LowestUnused(used, 0) - shard
      {
        shard := shard + 1;
      }
    }

    /** Claim a pair if both its pod and its shard are still free. */
    method ClaimIfFree(desired: nat, x: OwnerMatch, ghost taken: set<OwnerMatch>)
      requires Represents(shardOf, taken) && ClaimsOnly(desired, shardOf, View()) && used == shardOf.Values
      modifies this`shardOf, this`members, this`used, this`ownerOf, this`primaryOf
      ensures Represents(shardOf, Take(taken, x))
      ensures ClaimsOnly(desired, shardOf, View()) && used == shardOf.Values
    {
      hide ClaimsOnly, Represents, Rivals;
      if x.pod in shardOf || x.shard in used {
        TakenMeansRival(shardOf, taken, x);
      } else {
        FreeMeansNoRival(shardOf, taken, x);
        ClaimKeepsClaimsOnly(desired, shardOf, View(), x.pod, x.shard);
        Claim(desired, x.pod, x.shard);
      }
    }

    /** Claim pair by pair down the ranking. */
    method ClaimRanked(desired: nat, ranked: seq<OwnerMatch>)
      requires View() == EMPTY && used == {}
      modifies this`shardOf, this`members, this`used, this`ownerOf, this`primaryOf
      ensures Represents(shardOf, Greedy(ranked))
      ensures ClaimsOnly(desired, shardOf, View()) && used == shardOf.Values
    {
      assert ClaimsOnly(desired, shardOf, View()) && Represents(shardOf, {});
      hide ClaimsOnly, Represents, Take;
      for i := 0 to |ranked|
        invariant ClaimsOnly(desired, shardOf, View())
        invariant used == shardOf.Values
        invariant Represents(shardOf, Greedy(ranked[..i]))
      {
        assert ranked[..i + 1][..i] == ranked[..i];
        ClaimIfFree(desired, ranked[i], Greedy(ranked[..i]));
      }
      assert ranked[..|ranked|] == ranked;
    }

    method ClaimByOverlap(input: Input, owners: seq<Pod>)
      requires input.Valid() && Ascending(owners) && View() == EMPTY && used == {}
      modifies this`shardOf, this`members, this`used, this`ownerOf, this`primaryOf
      ensures StableClaims(input, owners, shardOf)
      ensures ClaimsOnly(input.desired, shardOf, View()) && used == shardOf.Values
    {
      hide ClaimsOnly, Represents, Stable, Ranked;
      var ranges := CalculateClusterSlotRanges(input.n);
      var ranked := RankOwnersByOverlap(owners, input.statuses, ranges);
      GreedyIsStable(ranked);
      ClaimRanked(input.desired, ranked);
    }

    /** Park the owners left over on the lowest unused shards. */
    method ParkLeftovers(desired: nat, owners: seq<Pod>)
      requires ClaimsOnly(desired, shardOf, View()) && used == shardOf.Values
      modifies this`shardOf, this`members, this`used, this`ownerOf, this`primaryOf
      ensures ClaimsOnly(desired, shardOf, View())
      ensures shardOf == Park(old(shardOf), owners)
    {
      hide ClaimsOnly;
      for i := 0 to |owners|
        invariant ClaimsOnly(desired, shardOf, View())
        invariant used == shardOf.Values
        invariant shardOf == Park(old(shardOf), owners[..i])
      {
        assert owners[..i + 1][..i] == owners[..i];
        if owners[i] !in shardOf {
          var shard := FirstUnused();
          ClaimKeepsClaimsOnly(desired, shardOf, View(), owners[i], shard);
          Claim(desired, owners[i], shard);
        }
      }
      assert owners[..|owners|] == owners;
    }

    /** Place every named pod that follows a placed primary or keeps its label; the rest stay free. */
    method AttachReplicas(input: Input, index: map<string, Pod>, names: seq<Pod>) returns (free: seq<Pod>)
      modifies this`shardOf, this`members, this`used, this`primaryOf
      ensures Draft(View(), free) == AttachAll(input, index, old(View()), names)
    {
      free := [];
      for i := 0 to |names|
        invariant Draft(View(), free) == AttachAll(input, index, old(View()), names[..i])
      {
        assert names[..i + 1][..i] == names[..i];
        var name := names[i];
        if name in shardOf {
          continue;
        }
        var polled := name in input.statuses;
        var status := StatusOf(input.statuses, name);
        if status.role == Slave && status.primaryNodeID != "" {
          if status.primaryNodeID in index && index[status.primaryNodeID] in shardOf {
            var shard := shardOf[index[status.primaryNodeID]];
            Assign(name, shard);
            if shard !in primaryOf && name < input.desired {
              primaryOf := primaryOf[shard := name];
            }
            continue;
          }
        }
        var observable := polled && status.connected && (status.role != Slave || status.primaryNodeID != "");
        if name in input.pods && input.pods[name].shardLabel.Some? && !observable
          && input.pods[name].shardLabel.value < input.n {
          var shard := input.pods[name].shardLabel.value;
          Assign(name, shard);
          if input.pods[name].primaryLabel && shard !in primaryOf && name < input.desired {
            primaryOf := primaryOf[shard := name];
          }
          continue;
        }
        free := free + [name];
      }
      assert names[..|names|] == names;
    }

    /** Deal the free survivors out to the shards nobody leads. */
    method FillShards(n: nat, survivors: seq<Pod>) returns (rest: seq<Pod>)
      modifies this`shardOf, this`members, this`used, this`primaryOf
      ensures Draft(View(), rest) == FillBelow(Draft(old(View()), survivors), n)
    {
      rest := survivors;
      var shard := 0;
      while shard < n && |rest| > 0
        invariant shard <= n
        invariant Draft(View(), rest) == FillBelow(Draft(old(View()), survivors), shard)
      {
        if shard !in primaryOf {
          Assign(rest[0], shard);
          primaryOf := primaryOf[shard := rest[0]];
          rest := rest[1..];
        }
        shard := shard + 1;
      }
      FillWithNobody(Draft(old(View()), survivors), shard, n);
    }

    /** The first spare member of a largest shard that has one, walking the shards in any order. */
    method SpareSurvivor(desired: nat) returns (best: Option<Pod>)
      ensures best.None? <==> !HasSpare(desired, View())
      ensures best.Some? ==> IsSpareSurvivor(desired, View(), best.value)
    {
      best := None;
      var bestSize := 1;
      var rest := members.Keys;
      ghost var bestShard, bestIndex := 0, 0;
      while rest != {}
        invariant rest <= members.Keys
        invariant bestSize >= 1 && (best.None? ==> bestSize == 1)
        invariant best.Some? ==> FirstSpare(desired, View(), bestShard, bestIndex)
                                 && members[bestShard][bestIndex] == best.value && |members[bestShard]| == bestSize
        invariant forall s, q :: s !in rest && Spare(desired, View(), s, q) ==> |members[s]| <= bestSize && best.Some?
        decreases rest
      {
        var shard :| shard in rest;
        if |members[shard]| > bestSize {
          var k := 0;
          while k < |members[shard]| && (members[shard][k] >= desired
            || (shard in primaryOf && primaryOf[shard] == members[shard][k]))
            invariant k <= |members[shard]|
            invariant forall j :: 0 <= j < k ==> !Spare(desired, View(), shard, members[shard][j])
          {
            k := k + 1;
          }
          if k < |members[shard]| {
            best, bestSize := Some(members[shard][k]), |members[shard]|;
            bestShard, bestIndex := shard, k;
          } else {
            assert forall q :: q in members[shard] ==> !Spare(desired, View(), shard, q);
          }
        }
        rest := rest - {shard};
      }
    }

    method Move(pod: Pod, shard: nat)
      requires pod in shardOf
      modifies this`shardOf, this`members
      ensures View() == old(View()).Move(pod, shard) && used == old(used)
    {
      var from := shardOf[pod];
      var before := if from in members then members[from] else [];
      members := members[from := Without(before, pod)];
      shardOf := shardOf[pod := shard];
      var there := if shard in members then members[shard] else [];
      members := members[shard := there + [pod]];
    }

    /** Give each owned shard without a primary an heir, until no survivor can be spared. */
    method FindHeirs(desired: nat, n: nat, ghost owners: set<Pod>) returns (ghost trace: seq<ShardLayout>)
      requires WellFormed(desired, owners, View())
      modifies this`shardOf, this`members, this`primaryOf
      ensures HeirTrace(desired, old(View()), trace) && |trace| == n + 1 && trace[n] == View()
    {
      hide WellFormed, IsSpareSurvivor;
      trace := [View()];
      var shard := 0;
      while shard < n
        invariant shard <= n && |trace| == shard + 1 && trace[shard] == View()
        invariant HeirTrace(desired, old(View()), trace)
        invariant WellFormed(desired, owners, View())
      {
        if shard !in primaryOf && shard in ownerOf {
          var heir := SpareSurvivor(desired);
          if heir.None? {
            break;
          }
          SpareIsSpare(desired, owners, View(), heir.value);
          ghost var before := View();
          Move(heir.value, shard);
          primaryOf := primaryOf[shard := heir.value];
          assert HeirStep(desired, before, shard, View());
          HeirStepWellFormed(desired, owners, before, shard, View());
        }
        trace := trace + [View()];
        shard := shard + 1;
      }
      while |trace| < n + 1
        invariant shard < |trace| <= n + 1 && trace[|trace| - 1] == View()
        invariant |trace| < n + 1 ==> !HasSpare(desired, View())
        invariant HeirTrace(desired, old(View()), trace)
        decreases n + 1 - |trace|
      {
        trace := trace + [View()];
      }
    }

    /** Put each remaining pod into the lowest of the smallest shards. */
    method BalanceShards(n: nat, free: seq<Pod>)
      requires n > 0
      modifies this`shardOf, this`members, this`used
      ensures View() == Balance(n, old(View()), free)
    {
      for i := 0 to |free|
        invariant View() == Balance(n, old(View()), free[..i])
      {
        assert free[..i + 1][..i] == free[..i];
        var target := 0;
        for shard := 1 to n
          invariant target < n && target == LeastLoaded(View(), shard)
        {
          var there := if shard in members then |members[shard]| else 0;
          var here := if target in members then |members[target]| else 0;
          if there < here {
            target := shard;
          }
        }
        Assign(free[i], target);
      }
      assert free[..|free|] == free;
    }

    method SortShards()
      modifies this`members
      ensures View() == SortMembers(old(View()))
    {
      var rest := members.Keys;
      while rest != {}
        invariant rest <= members.Keys == old(members).Keys
        invariant View() == old(View()).(members := members)
        invariant forall s :: s in members ==>
                    members[s] == if s in rest then old(members)[s] else SortPods(old(members)[s])
        decreases rest
      {
        var shard :| shard in rest;
        members := members[shard := SortPods(members[shard])];
        rest := rest - {shard};
      }
    }

    method IsLeader(pod: Pod) returns (leads: bool)
      ensures leads == View().IsPrimary(pod)
    {
      leads := pod in shardOf && shardOf[pod] in primaryOf && primaryOf[shardOf[pod]] == pod;
    }

    /** The surviving replicas of one shard. */
    method CountShard(desired: nat, shard: nat) returns (count: nat)
      requires Consistent(View())
      ensures count == |ReplicasAt(desired, View(), map[], shard)|
    {
      count := 0;
      var names := if shard in members then members[shard] else [];
      ghost var found: set<Pod> := {};
      for i := 0 to |names|
        invariant |found| == count
        invariant forall p :: p in found <==> p in names[..i] && IsReplica(desired, View(), p)
      {
        assert View().Placed(names[i], shard) by { assert names[i] in View().MembersOf(shard); }
        assert Distinct(View().MembersOf(shard));
        var leads := IsLeader(names[i]);
        if names[i] < desired && !leads {
          assert names[i] !in names[..i];
          count := count + 1;
          found := found + {names[i]};
        }
      }
      forall p ensures p in found <==> p in ReplicasAt(desired, View(), map[], shard) {
        assert p in View().MembersOf(shard) <==> View().Placed(p, shard);
      }
      assert found == ReplicasAt(desired, View(), map[], shard);
    }

    /** Count every shard, or stop at one without a primary or in the middle of a handover. */
    method CountReplicas(input: Input) returns (settled: bool, counts: array<nat>)
      requires Consistent(View())
      ensures settled <==> Settled(input.n, View())
      ensures fresh(counts) && counts.Length == input.n
      ensures settled ==> forall s :: 0 <= s < input.n ==> counts[s] == Before(input, View(), s)
    {
      counts := new nat[input.n];
      for shard := 0 to input.n
        invariant forall s :: 0 <= s < shard ==> s in primaryOf && !View().HandingOver(s)
        invariant forall s :: 0 <= s < shard ==> counts[s] == Before(input, View(), s)
      {
        if shard !in primaryOf || (shard in ownerOf && ownerOf[shard] != primaryOf[shard]) {
          return false, counts;
        }
        counts[shard] := CountShard(input.desired, shard);
      }
      settled := true;
    }

    /** Move surviving replicas from shards with too many to shards with too few. */
    method PlanReplicaMoves(input: Input)
      requires Consistent(View()) && replicaMoves == map[] && forall s: nat :: Ascending(View().MembersOf(s))
      modifies this`replicaMoves
      ensures View() == old(View()).(replicaMoves := replicaMoves)
      ensures GoodMoves(input, old(View()), replicaMoves) && MovesInOrder(input, old(View()), replicaMoves)
    {
      hide After, Justified, WithinBounds, Served, Missed, Consistent, MovesInOrder, Ascending;
      ghost var l := View();
      NoMoves(input, l);
      var settled, counts := CountReplicas(input);
      if !settled {
        return;
      }
      for target := 0 to input.n
        invariant View() == l.(replicaMoves := replicaMoves)
        invariant Tracking(input, l, counts) && Below(target)
        invariant forall t: nat :: t < target ==> Served(input, l, replicaMoves, t)
      {
        FillTarget(input, target, counts, l);
      }
      NothingMissed(input, l, replicaMoves);
    }

    /** The counts are those the moves planned so far lead to, and the moves are sound. */
    ghost predicate Tracking(input: Input, l: ShardLayout, counts: array<nat>)
      reads this, counts
    {
      && counts.Length == input.n
      && (forall s :: 0 <= s < input.n ==> counts[s] == After(input, l, replicaMoves, s))
      && Justified(input, l, replicaMoves) && WithinBounds(input, l, replicaMoves)
      && MovesInOrder(input, l, replicaMoves)
    }

    /** No move goes to this shard or a later one. */
    ghost predicate Below(target: nat)
      reads this
    {
      forall p :: p in replicaMoves ==> replicaMoves[p] < target
    }

    method FillTarget(input: Input, target: nat, counts: array<nat>, ghost l: ShardLayout)
      requires target < input.n && Consistent(l) && View() == l.(replicaMoves := replicaMoves)
      requires Tracking(input, l, counts) && Below(target)
      requires forall s: nat :: Ascending(l.MembersOf(s))
      requires forall t: nat :: t < target ==> Served(input, l, replicaMoves, t)
      modifies this`replicaMoves, counts
      ensures View() == l.(replicaMoves := replicaMoves)
      ensures Tracking(input, l, counts) && Below(target + 1)
      ensures forall t: nat :: old(Served(input, l, replicaMoves, t)) ==> Served(input, l, replicaMoves, t)
      ensures Served(input, l, replicaMoves, target)
    {
      hide After, Justified, WithinBounds, Consistent, MovesInOrder, Ascending;
      var source := 0;
      while source < input.n && counts[target] < input.replicas
        invariant source <= input.n
        invariant View() == l.(replicaMoves := replicaMoves)
        invariant Tracking(input, l, counts) && Below(target + 1)
        invariant forall t: nat :: old(Served(input, l, replicaMoves, t)) ==> Served(input, l, replicaMoves, t)
        invariant counts[target] >= input.replicas || forall s :: 0 <= s < source ==>
                    Exhausted(input, l, replicaMoves, s)
      {
        DrainSource(input, source, target, counts, l);
        source := source + 1;
      }
    }

    /** Walk the members of one source from the highest ordinal down. */
    method DrainSource(input: Input, source: nat, target: nat, counts: array<nat>, ghost l: ShardLayout)
      requires source < input.n && target < input.n && Consistent(l) && View() == l.(replicaMoves := replicaMoves)
      requires Tracking(input, l, counts) && Below(target + 1)
      requires forall s: nat :: Ascending(l.MembersOf(s))
      requires forall t: nat :: t < target ==> Served(input, l, replicaMoves, t)
      requires forall s: nat :: s < source ==> Exhausted(input, l, replicaMoves, s)
      modifies this`replicaMoves, counts
      ensures View() == l.(replicaMoves := replicaMoves)
      ensures Tracking(input, l, counts) && Below(target + 1)
      ensures forall t: nat :: old(Served(input, l, replicaMoves, t)) ==> Served(input, l, replicaMoves, t)
      ensures forall s: nat :: old(Exhausted(input, l, replicaMoves, s)) ==> Exhausted(input, l, replicaMoves, s)
      ensures counts[target] >= input.replicas || Exhausted(input, l, replicaMoves, source)
    {
      hide After, Justified, WithinBounds, Served, MovesInOrder;
      var names := if source in members then members[source] else [];
      var i := |names|;
      while i > 0 && counts[source] > input.replicas && counts[target] < input.replicas
        invariant 0 <= i <= |names|
        invariant View() == l.(replicaMoves := replicaMoves)
        invariant Tracking(input, l, counts) && Below(target + 1)
        invariant forall t: nat :: old(Served(input, l, replicaMoves, t)) ==> Served(input, l, replicaMoves, t)
        invariant forall s: nat :: old(Exhausted(input, l, replicaMoves, s)) ==> Exhausted(input, l, replicaMoves, s)
        invariant forall k :: i <= k < |names| && Movable(input, l, names[k]) ==> names[k] in replicaMoves
        decreases i
      {
        i := i - 1;
        var name := names[i];
        var status := StatusOf(input.statuses, name);
        assert l.Placed(name, source) by { assert name in l.MembersOf(source); }
        var leads := IsLeader(name);
        if name in replicaMoves || name >= input.desired || leads || !status.connected || status.role != Slave
           || status.primaryNodeID == "" || |status.slotsServed| != 0 {
          continue;
        }
        HigherHaveMoved(input, l, replicaMoves, source, i);
        MoveKeepsOrder(input, l, replicaMoves, name, target);
        MoveKeeps(input, l, replicaMoves, name, target);
        MoveShifts(input, l, replicaMoves, name, target);
        replicaMoves := replicaMoves[name := target];
        counts[source] := counts[source] - 1;
        counts[target] := counts[target] + 1;
      }
      if counts[source] > input.replicas && counts[target] < input.replicas {
        forall p | Movable(input, l, p) && l.shardOf[p] == source ensures p in replicaMoves {
          assert l.Placed(p, source) && p in l.MembersOf(source);
        }
      }
    }
  }

  /** Members above a position of an ascending list come after it. */
  lemma HigherHaveMoved(input: Input, l: ShardLayout, moves: map<Pod, nat>, source: nat, i: nat)
    requires Consistent(l) && Ascending(l.MembersOf(source)) && i < |l.MembersOf(source)|
    requires forall k :: i < k < |l.MembersOf(source)| && Movable(input, l, l.MembersOf(source)[k]) ==>
               l.MembersOf(source)[k] in moves
    ensures forall q :: Movable(input, l, q) && l.shardOf[q] == source && q > l.MembersOf(source)[i] ==> q in moves
  {
    var names := l.MembersOf(source);
    forall q | Movable(input, l, q) && l.shardOf[q] == source && q > names[i] ensures q in moves {
      assert l.Placed(q, source) && q in names;
      var k :| 0 <= k < |names| && names[k] == q;
      assert k > i;
    }
  }

  /** The desired pods and the listed ones, by ordinal. */
  method CollectNames(input: Input) returns (names: seq<Pod>)
    ensures IsNames(input, names)
  {
    var found: seq<Pod> := [];
    for index := 0 to input.desired
      invariant |found| == index && forall i :: 0 <= i < index ==> found[i] == i
    {
      found := found + [index];
    }
    forall p: Pod ensures p in found <==> p < input.desired {
      if p < input.desired { assert found[p] == p; }
    }
    var rest := input.pods.Keys;
    while rest != {}
      invariant rest <= input.pods.Keys
      invariant Distinct(found)
      invariant forall p: Pod :: p in found <==> p < input.desired || p in input.pods.Keys - rest
      decreases rest
    {
      var pod :| pod in rest;
      if pod !in found {
        found := found + [pod];
      }
      rest := rest - {pod};
    }
    SortPodsProperties(found);
    names := SortPods(found);
  }

  /** Who reported each node ID; the last one seen wins. */
  method IndexNodes(statuses: Statuses) returns (index: map<string, Pod>)
    ensures IsNodeIndex(statuses, index)
  {
    index := map[];
    var rest := statuses.Keys;
    while rest != {}
      invariant rest <= statuses.Keys
      invariant forall id :: id in index ==> id != "" && index[id] in statuses && statuses[index[id]].nodeID == id
      invariant forall p :: p in statuses.Keys - rest && statuses[p].nodeID != "" ==> statuses[p].nodeID in index
      decreases rest
    {
      var pod :| pod in rest;
      if statuses[pod].nodeID != "" {
        index := index[statuses[pod].nodeID := pod];
      }
      rest := rest - {pod};
    }
  }

  /** Plan the layout: every phase in turn, on one builder. */
  method PlanMembership(input: Input) returns (builder: LayoutBuilder, ghost choices: Choices)
    requires input.Valid()
    ensures fresh(builder)
    ensures PlannedWith(input, choices, builder.View()) && builder.replicaMoves == map[]
  {
    hide WellFormed, ClaimsOnly, Attach;
    builder := new LayoutBuilder();
    var names := CollectNames(input);
    var owners := [];
    for i := 0 to |names|
      invariant owners == OwnersIn(input, names[..i])
    {
      assert names[..i + 1][..i] == names[..i];
      if |StatusOf(input.statuses, names[i]).slotsServed| > 0 {
        owners := owners + [names[i]];
      }
    }
    assert names[..|names|] == names;
    OwnersInProperties(input, names);
    builder.ClaimByOverlap(input, owners);
    ghost var base := builder.shardOf;
    builder.ParkLeftovers(input.desired, owners);
    choices := Choices(names, builder.shardOf, builder.View(), map[], []);
    assert OwnerClaims(input, owners, choices.claims);
    var index := IndexNodes(input.statuses);
    choices := choices.(index := index);
    var free := builder.AttachReplicas(input, index, names);
    var survivors := Filter(input.desired, free, false);
    survivors := builder.FillShards(input.n, survivors);
    free := survivors + Filter(input.desired, free, true);
    FilledWellFormed(input, choices);
    ghost var trace := builder.FindHeirs(input.desired, input.n, PodSet(owners));
    choices := choices.(heirs := trace);
    builder.BalanceShards(input.n, free);
    builder.SortShards();
  }

  /** The whole plan: the membership, and moves that balance its replicas. */
  method PlanShardLayout(input: Input) returns (builder: LayoutBuilder)
    requires input.Valid()
    ensures fresh(builder)
    ensures PlanResult(input, builder.View())
  {
    ghost var choices;
    builder, choices := PlanMembership(input);
    FinalFacts(input, choices, builder.View());
    MembersAscend(input, choices, builder.View());
    builder.PlanReplicaMoves(input);
  }

  lemma FilledWellFormed(input: Input, ch: Choices)
    requires input.Valid() && IsNames(input, ch.names)
    requires OwnerClaims(input, OwnersIn(input, ch.names), ch.claims) && ClaimsOnly(input.desired, ch.claims, ch.owned)
    ensures WellFormed(input.desired, PodSet(OwnersIn(input, ch.names)), Filled(input, ch).layout)
  {
    hide WellFormed, Attach;
    var owners := PodSet(OwnersIn(input, ch.names));
    OwnerClaimsProperties(input, OwnersIn(input, ch.names), ch.claims);
    ClaimsWellFormed(input.desired, ch.claims, ch.owned);
    AttachAllOk(input, ch.index, owners, ch.owned, ch.names);
    var d := Attached(input, ch);
    FilterProperties(input.desired, d.free, false);
    var survivors := d.(free := Filter(input.desired, d.free, false));
    assert PodSet(survivors.free) <= PodSet(d.free);
    FillBelowOk(input.desired, owners, survivors, d.layout.shardOf.Keys + PodSet(survivors.free), input.n);
  }

  /** Once the survivors have run out, the remaining shards stay as they are. */
  lemma {:induction false} FillWithNobody(d: Draft, k: nat, n: nat)
    requires k <= n && (k == n || FillBelow(d, k).free == [])
    ensures FillBelow(d, n) == FillBelow(d, k)
    decreases n
  {
    if k < n {
      FillWithNobody(d, k, n - 1);
    }
  }

  lemma TakenMeansRival(c: map<Pod, nat>, taken: set<OwnerMatch>, x: OwnerMatch)
    requires Represents(c, taken) && (x.pod in c || x.shard in c.Values)
    ensures exists y :: y in taken && Rivals(y, x)
  {
    if x.pod in c {
      var y :| y in taken && y.pod == x.pod;
      assert Rivals(y, x);
    } else {
      var p :| p in c && c[p] == x.shard;
      var y :| y in taken && y.pod == p;
      assert Rivals(y, x);
    }
  }

  lemma FreeMeansNoRival(c: map<Pod, nat>, taken: set<OwnerMatch>, x: OwnerMatch)
    requires Represents(c, taken) && x.pod !in c && x.shard !in c.Values
    ensures forall y :: y in taken ==> !Rivals(y, x)
    ensures Represents(c[x.pod := x.shard], taken + {x})
  {
    var c' := c[x.pod := x.shard];
    forall p | p in c' ensures exists y :: y in taken + {x} && y.pod == p {
      if p == x.pod {
        assert x in taken + {x};
      } else {
        var y :| y in taken && y.pod == p;
        assert y in taken + {x};
      }
    }
  }

  lemma NewValue(c: map<Pod, nat>, pod: Pod, shard: nat)
    requires pod !in c
    ensures c[pod := shard].Values == c.Values + {shard}
  {
    var c' := c[pod := shard];
    forall v | v in c.Values + {shard} ensures v in c'.Values {
      if v == shard {
        assert c'[pod] == v;
      } else {
        var p :| p in c && c[p] == v;
        assert c'[p] == v;
      }
    }
  }

  /** Claiming a free shard for a new owner adds exactly that claim. */
  lemma ClaimKeepsClaimsOnly(desired: nat, c: map<Pod, nat>, l: ShardLayout, pod: Pod, shard: nat)
    requires ClaimsOnly(desired, c, l) && pod !in c && shard !in c.Values
    ensures ClaimsOnly(desired, c[pod := shard], l.Claim(desired, pod, shard))
    ensures c[pod := shard].Values == c.Values + {shard}
  {
    ClaimHeld(desired, c, l, pod, shard);
    ClaimLeads(desired, l, pod, shard);
  }

  lemma ClaimHeld(desired: nat, c: map<Pod, nat>, l: ShardLayout, pod: Pod, shard: nat)
    requires ClaimsHeld(c, l) && pod !in c && shard !in c.Values
    ensures ClaimsHeld(c[pod := shard], l.Claim(desired, pod, shard))
    ensures c[pod := shard].Values == c.Values + {shard}
  {
    hide Injective;
    NewValue(c, pod, shard);
    ClaimInjective(c, pod, shard);
    var c', l' := c[pod := shard], l.Claim(desired, pod, shard);
    assert l'.ownerOf == l.ownerOf[shard := pod] && l'.members == l.members[shard := l.MembersOf(shard) + [pod]];
    assert l.MembersOf(shard) == [];
    forall p | p in c' ensures c'[p] in l'.ownerOf && l'.ownerOf[c'[p]] == p && c'[p] in l'.members
      && l'.members[c'[p]] == [p] {
      if p != pod { assert c[p] in c.Values; }
    }
  }

  lemma ClaimInjective(c: map<Pod, nat>, pod: Pod, shard: nat)
    requires Injective(c) && pod !in c && shard !in c.Values
    ensures Injective(c[pod := shard])
  {
    forall p | p in c ensures c[p] != shard { assert c[p] in c.Values; }
  }

  lemma ClaimLeads(desired: nat, l: ShardLayout, pod: Pod, shard: nat)
    requires SurvivorsLead(desired, l) && shard !in l.ownerOf
    ensures SurvivorsLead(desired, l.Claim(desired, pod, shard))
  {
  }
}
