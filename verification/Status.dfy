/** Deriving the reported status from the layout and the polled pods. */
module Status {
  import opened Types
  import opened Counting
  import opened Layout
  import opened LayoutInvariant
  import opened PlanFacts
  import opened Coverage
  import opened Names

  datatype ShardStatus =
    ShardStatus(primary: Option<Pod>, primaryNodeID: string, slots: seq<SlotRange>, replicas: seq<Pod>, epoch: int)

  const EMPTY_SHARD := ShardStatus(None, "", [], [], 0)

  /** The pod reported as the primary of its shard: the slot owner while the shard is handing over. */
  predicate Leads(l: ShardLayout, p: Pod) {
    p in l.shardOf &&
    var s := l.shardOf[p];
    (l.IsPrimary(p) && !l.HandingOver(s)) || (s in l.ownerOf && l.ownerOf[s] == p)
  }

  /** No shard has two such pods, so none is lost to a later one. */
  lemma OneLeader(input: Input, l: ShardLayout, p: Pod, q: Pod)
    requires input.Valid() && Planned(input, l) && Leads(l, p) && Leads(l, q) && l.shardOf[p] == l.shardOf[q]
    ensures p == q
  {
    hide Planned;
    PlanIsWellFormed(input, l);
  }

  /** The pods the loop has seen so far are each reported once, in the shard they are placed in. */
  ghost predicate Reports(statuses: Statuses, l: ShardLayout, seen: set<Pod>, shards: map<nat, ShardStatus>) {
    && (forall p, s: nat :: p in seen && l.Placed(p, s) ==> s in shards)
    && (forall s :: s in shards ==> ReportsShard(statuses, l, seen, s, shards[s]))
  }

  ghost predicate ReportsShard(statuses: Statuses, l: ShardLayout, seen: set<Pod>, s: nat, shard: ShardStatus) {
    && (exists p :: p in seen && l.Placed(p, s))
    && (shard.primary.Some? ==> var p := shard.primary.value;
          p in seen && p in statuses && l.Placed(p, s) && Leads(l, p)
          && shard.primaryNodeID == statuses[p].nodeID && shard.slots == statuses[p].slotsServed)
    && (forall p :: p in seen && l.Placed(p, s) && Leads(l, p) ==> shard.primary == Some(p))
    && (forall p :: p in shard.replicas <==> p in seen && l.Placed(p, s) && !Leads(l, p))
    && Distinct(shard.replicas)
    && LatestEpoch(statuses, l, seen, s, shard.epoch)
  }

  /** The highest epoch any pod of the shard has reported, and at least 0. */
  ghost predicate LatestEpoch(statuses: Statuses, l: ShardLayout, seen: set<Pod>, s: nat, epoch: int) {
    && epoch >= 0
    && (forall p :: p in seen && p in statuses && l.Placed(p, s) ==> statuses[p].epoch <= epoch)
    && (epoch == 0 || exists p :: p in seen && p in statuses && l.Placed(p, s) && statuses[p].epoch == epoch)
  }

  /** What one more pod does to its shard's entry. */
  function Report(l: ShardLayout, p: Pod, status: InstanceStatus, shard: ShardStatus): ShardStatus {
    var shard := shard.(epoch := if status.epoch > shard.epoch then status.epoch else shard.epoch);
    if Leads(l, p) then shard.(primary := Some(p), primaryNodeID := status.nodeID, slots := status.slotsServed)
    else shard.(replicas := shard.replicas + [p])
  }

  lemma ReportEntry(input: Input, l: ShardLayout, seen: set<Pod>, s: nat, entry: ShardStatus, p: Pod)
    requires input.Valid() && Planned(input, l) && p in input.statuses && p !in seen && l.Placed(p, s)
    requires ReportsShard(input.statuses, l, seen, s, entry)
             || (entry == EMPTY_SHARD && forall q :: q in seen ==> !l.Placed(q, s))
    ensures ReportsShard(input.statuses, l, seen + {p}, s, Report(l, p, input.statuses[p], entry))
  {
    hide Planned, LatestEpoch;
    forall q | q in seen && l.Placed(q, s) && Leads(l, q) && Leads(l, p) ensures q == p { OneLeader(input, l, p, q); }
    assert p in seen + {p};
    EpochWith(input.statuses, l, seen, s, entry.epoch, p);
  }

  lemma EpochWith(statuses: Statuses, l: ShardLayout, seen: set<Pod>, s: nat, epoch: int, p: Pod)
    requires p in statuses && l.Placed(p, s)
    requires LatestEpoch(statuses, l, seen, s, epoch) || (epoch == 0 && forall q :: q in seen ==> !l.Placed(q, s))
    ensures LatestEpoch(statuses, l, seen + {p}, s, if statuses[p].epoch > epoch then statuses[p].epoch else epoch)
  {
    assert p in seen + {p};
    if statuses[p].epoch <= epoch && epoch != 0 {
      var q :| q in seen && q in statuses && l.Placed(q, s) && statuses[q].epoch == epoch;
      assert q in seen + {p};
    }
  }

  lemma OtherEntry(statuses: Statuses, l: ShardLayout, seen: set<Pod>, s: nat, entry: ShardStatus, p: Pod)
    requires ReportsShard(statuses, l, seen, s, entry) && !l.Placed(p, s)
    ensures ReportsShard(statuses, l, seen + {p}, s, entry)
  {
    var q :| q in seen && l.Placed(q, s);
    assert q in seen + {p};
    if entry.epoch != 0 {
      var r :| r in seen && r in statuses && l.Placed(r, s) && statuses[r].epoch == entry.epoch;
      assert r in seen + {p};
    }
  }

  lemma ReportOne(input: Input, l: ShardLayout, seen: set<Pod>, shards: map<nat, ShardStatus>, p: Pod)
    requires input.Valid() && Planned(input, l)
    requires Reports(input.statuses, l, seen, shards) && p in input.statuses && p !in seen && p in l.shardOf
    ensures var s := l.shardOf[p];
            Reports(input.statuses, l, seen + {p},
              shards[s := Report(l, p, input.statuses[p], if s in shards then shards[s] else EMPTY_SHARD)])
  {
    hide Planned, ReportsShard, Report;
    var s := l.shardOf[p];
    ReportEntry(input, l, seen, s, if s in shards then shards[s] else EMPTY_SHARD, p);
    forall r | r in shards && r != s ensures ReportsShard(input.statuses, l, seen + {p}, r, shards[r]) {
      OtherEntry(input.statuses, l, seen, r, shards[r], p);
    }
  }

  lemma SkipOne(statuses: Statuses, l: ShardLayout, seen: set<Pod>, shards: map<nat, ShardStatus>, p: Pod)
    requires Reports(statuses, l, seen, shards) && p !in l.shardOf
    ensures Reports(statuses, l, seen + {p}, shards)
  {
    hide ReportsShard;
    forall s | s in shards ensures ReportsShard(statuses, l, seen + {p}, s, shards[s]) {
      OtherEntry(statuses, l, seen, s, shards[s], p);
    }
  }

  /** The placed pods' slots, clipped to the slot space. */
  ghost predicate CoveredBy(statuses: Statuses, l: ShardLayout, seen: set<Pod>, slot: int) {
    exists p :: p in seen && p in statuses && p in l.shardOf && Serves(statuses[p], slot)
  }

  ghost function Marks(coverage: seq<bool>): int -> bool {
    x => 0 <= x < |coverage| && coverage[x]
  }

  method CountCovered(coverage: array<bool>) returns (count: nat)
    ensures count == Count(Marks(coverage[..]), 0, coverage.Length)
  {
    count := 0;
    ghost var f := Marks(coverage[..]);
    for x := 0 to coverage.Length
      invariant count == Count(f, 0, x)
    {
      assert f(x) == coverage[x];
      if coverage[x] {
        count := count + 1;
      }
    }
  }

  /** The marks are the slots covered by the pods seen so far. */
  ghost predicate Tracks(statuses: Statuses, l: ShardLayout, seen: set<Pod>, coverage: seq<bool>) {
    |coverage| == SLOTS && forall x :: 0 <= x < SLOTS ==> (coverage[x] <==> CoveredBy(statuses, l, seen, x))
  }

  lemma TrackOne(statuses: Statuses, l: ShardLayout, seen: set<Pod>, before: seq<bool>, p: Pod, after: seq<bool>)
    requires Tracks(statuses, l, seen, before) && |after| == SLOTS && p in statuses
    requires forall x :: 0 <= x < SLOTS ==> (after[x] <==> before[x] || (p in l.shardOf && Serves(statuses[p], x)))
    ensures Tracks(statuses, l, seen + {p}, after)
  {
    forall x
      ensures CoveredBy(statuses, l, seen + {p}, x) <==>
              CoveredBy(statuses, l, seen, x) || (p in l.shardOf && Serves(statuses[p], x))
    {
      if CoveredBy(statuses, l, seen, x) {
        var q :| q in seen && q in statuses && q in l.shardOf && Serves(statuses[q], x);
        assert q in seen + {p};
      }
      if p in l.shardOf && Serves(statuses[p], x) { assert p in seen + {p}; }
    }
  }

  /** Enter one polled pod. */
  method ReportPod(input: Input, l: ShardLayout, pod: Pod, shards: map<nat, ShardStatus>, coverage: array<bool>,
                   ghost seen: set<Pod>)
    returns (shards': map<nat, ShardStatus>)
    requires input.Valid() && Planned(input, l) && pod in input.statuses && pod !in seen && coverage.Length == SLOTS
    requires Reports(input.statuses, l, seen, shards) && Tracks(input.statuses, l, seen, coverage[..])
    modifies coverage
    ensures Reports(input.statuses, l, seen + {pod}, shards') && Tracks(input.statuses, l, seen + {pod}, coverage[..])
  {
    hide Planned, Reports, Report, Tracks, CoveredBy, Serves;
    ghost var before := coverage[..];
    if pod !in l.shardOf {
      SkipOne(input.statuses, l, seen, shards, pod);
      TrackOne(input.statuses, l, seen, before, pod, before);
      return shards;
    }
    var s := l.shardOf[pod];
    var entry := if s in shards then shards[s] else EMPTY_SHARD;
    ReportOne(input, l, seen, shards, pod);
    shards' := shards[s := Report(l, pod, input.statuses[pod], entry)];
    MarkRanges(input.statuses[pod].slotsServed, coverage);
    MarkedIsServed(input.statuses, l, seen, before, pod, coverage[..]);
  }

  /** Nothing without statuses, "ok" if all states are fine, and otherwise the state of some pod that is not. */
  ghost predicate OverallState(statuses: Statuses, seen: set<Pod>, state: string) {
    if statuses == map[] then state == ""
    else if exists p :: p in seen && p in statuses && !Fine(statuses[p].clusterState) then
      exists p :: p in seen && p in statuses && !Fine(statuses[p].clusterState) && state == statuses[p].clusterState
    else state == "ok"
  }

  lemma StateWith(statuses: Statuses, seen: set<Pod>, state: string, p: Pod)
    requires OverallState(statuses, seen, state) && p in statuses
    ensures OverallState(statuses, seen + {p}, if Fine(statuses[p].clusterState) then state
            else statuses[p].clusterState)
  {
    assert p in seen + {p};
    if Fine(statuses[p].clusterState) && exists q :: q in seen && q in statuses && !Fine(statuses[q].clusterState) {
      var q :| q in seen && q in statuses && !Fine(statuses[q].clusterState) && state == statuses[q].clusterState;
      assert q in seen + {p};
    }
  }

  /** Put the replicas of every shard in the textual order of their names. */
  method SortReplicas(cluster: string, shards: map<nat, ShardStatus>) returns (sorted: map<nat, ShardStatus>)
    ensures sorted.Keys == shards.Keys
    ensures forall s :: s in shards ==> sorted[s] == shards[s].(replicas := SortByName(cluster, shards[s].replicas))
  {
    sorted := shards;
    var rest := shards.Keys;
    while rest != {}
      invariant rest <= shards.Keys == sorted.Keys
      invariant forall s :: s in shards ==>
                  sorted[s] == if s in rest then shards[s]
                    else shards[s].(replicas := SortByName(cluster, shards[s].replicas))
      decreases rest
    {
      var s :| s in rest;
      sorted := sorted[s := shards[s].(replicas := SortByName(cluster, shards[s].replicas))];
      rest := rest - {s};
    }
  }

  lemma DistinctMultiset(pods: seq<Pod>, pods': seq<Pod>)
    requires Distinct(pods) && multiset(pods') == multiset(pods)
    ensures Distinct(pods') && forall p :: p in pods' <==> p in pods
  {
    forall p ensures p in pods' <==> p in pods { assert p in multiset(pods') <==> p in multiset(pods); }
    forall p ensures multiset(pods)[p] <= 1 { OnceEach(pods, p); }
    forall i, j | 0 <= i < j < |pods'| ensures pods'[i] != pods'[j] { TwiceCounts(pods', i, j); }
  }

  lemma TwiceCounts(pods: seq<Pod>, i: nat, j: nat)
    requires i < j < |pods|
    ensures pods[i] == pods[j] ==> multiset(pods)[pods[i]] >= 2
  {
    assert pods == pods[..j] + pods[j..];
    assert pods[i] in pods[..j] && pods[j] in pods[j..];
    assert multiset(pods)[pods[i]] == multiset(pods[..j])[pods[i]] + multiset(pods[j..])[pods[i]];
  }

  lemma {:induction false} OnceEach(pods: seq<Pod>, p: Pod)
    requires Distinct(pods)
    ensures multiset(pods)[p] <= 1
  {
    if pods != [] {
      var front := pods[..|pods| - 1];
      assert pods == front + [pods[|pods| - 1]];
      OnceEach(front, p);
      assert p == pods[|pods| - 1] ==> p !in front;
    }
  }

  lemma SortedReports(cluster: string, statuses: Statuses, l: ShardLayout, seen: set<Pod>,
                      shards: map<nat, ShardStatus>, sorted: map<nat, ShardStatus>)
    requires Reports(statuses, l, seen, shards) && sorted.Keys == shards.Keys
    requires forall s :: s in shards ==> sorted[s] == shards[s].(replicas := SortByName(cluster, shards[s].replicas))
    ensures Reports(statuses, l, seen, sorted) && forall s :: s in sorted ==> ByName(cluster, sorted[s].replicas)
  {
    hide LatestEpoch, SortByName, ByName, Distinct;
    forall s | s in sorted ensures ReportsShard(statuses, l, seen, s, sorted[s])
      && ByName(cluster, sorted[s].replicas) {
      assert ReportsShard(statuses, l, seen, s, shards[s]);
      SortByNameProperties(cluster, shards[s].replicas);
      DistinctMultiset(shards[s].replicas, sorted[s].replicas);
    }
  }

  /** Walk the statuses in any order: every polled pod the layout places is reported exactly once, with the
      latest epoch of its shard and the replicas by name; the cluster state is "ok" unless some pod reports
      another one; and the count of assigned slots is the number of slots a placed pod serves. */
  method DeriveClusterStatus(cluster: string, input: Input, l: ShardLayout)
    returns (state: string, assignedSlots: nat, shards: map<nat, ShardStatus>)
    requires input.Valid() && Planned(input, l)
    ensures OverallState(input.statuses, input.statuses.Keys, state)
    ensures Reports(input.statuses, l, input.statuses.Keys, shards)
    ensures forall s :: s in shards ==> ByName(cluster, shards[s].replicas)
    ensures assignedSlots == Count(x => CoveredBy(input.statuses, l, input.statuses.Keys, x), 0, SLOTS)
  {
    hide Planned, Reports, Tracks, OverallState, CoveredBy, ByName, SortByName, Count, Fine;
    shards := map[];
    state := if input.statuses == map[] then "" else "ok";
    var coverage := new bool[SLOTS](_ => false);
    var rest := input.statuses.Keys;
    ghost var seen: set<Pod> := {};
    NothingSeen(input.statuses, l, coverage[..]);
    while rest != {}
      invariant rest <= input.statuses.Keys && seen == input.statuses.Keys - rest
      invariant Reports(input.statuses, l, seen, shards)
      invariant Tracks(input.statuses, l, seen, coverage[..]) && OverallState(input.statuses, seen, state)
      decreases rest
    {
      var pod :| pod in rest;
      StateWith(input.statuses, seen, state, pod);
      if !Fine(input.statuses[pod].clusterState) {
        state := input.statuses[pod].clusterState;
      }
      shards := ReportPod(input, l, pod, shards, coverage, seen);
      rest, seen := rest - {pod}, seen + {pod};
    }
    assert seen == input.statuses.Keys;
    var sorted := SortReplicas(cluster, shards);
    SortedReports(cluster, input.statuses, l, seen, shards, sorted);
    shards := sorted;
    assignedSlots := CountCovered(coverage);
    TracksCount(input.statuses, l, seen, coverage[..]);
  }

  lemma NothingSeen(statuses: Statuses, l: ShardLayout, coverage: seq<bool>)
    requires |coverage| == SLOTS && forall x :: 0 <= x < SLOTS ==> !coverage[x]
    ensures Reports(statuses, l, {}, map[]) && Tracks(statuses, l, {}, coverage)
    ensures OverallState(statuses, {}, if statuses == map[] then "" else "ok")
  {
  }

  lemma MarkedIsServed(statuses: Statuses, l: ShardLayout, seen: set<Pod>, before: seq<bool>, p: Pod, after: seq<bool>)
    requires Tracks(statuses, l, seen, before) && |after| == SLOTS && p in statuses && p in l.shardOf
    requires var served := statuses[p].slotsServed;
             forall x :: 0 <= x < SLOTS ==> (after[x] <==>
               before[x] || exists k :: 0 <= k < |served| && served[k].Contains(x))
    ensures Tracks(statuses, l, seen + {p}, after)
  {
    TrackOne(statuses, l, seen, before, p, after);
  }

  lemma TracksCount(statuses: Statuses, l: ShardLayout, seen: set<Pod>, coverage: seq<bool>)
    requires Tracks(statuses, l, seen, coverage)
    ensures Count(Marks(coverage), 0, SLOTS) == Count(x => CoveredBy(statuses, l, seen, x), 0, SLOTS)
  {
    CountSame(Marks(coverage), x => CoveredBy(statuses, l, seen, x), 0, SLOTS);
  }

  /** Each polled pod of the layout appears exactly once over all shards, as a primary or as a replica. */
  lemma EachPodReportedOnce(input: Input, l: ShardLayout, shards: map<nat, ShardStatus>, p: Pod, s: nat)
    requires input.Valid() && Planned(input, l) && Reports(input.statuses, l, input.statuses.Keys, shards)
    requires p in input.statuses && s in shards
    ensures (shards[s].primary == Some(p) || p in shards[s].replicas) <==> l.Placed(p, s)
    ensures !(shards[s].primary == Some(p) && p in shards[s].replicas)
    ensures l.HandingOver(s) && l.ownerOf[s] in input.statuses ==> shards[s].primary == Some(l.ownerOf[s])
    ensures !l.HandingOver(s) && s in l.primaryOf && l.primaryOf[s] in input.statuses ==>
              shards[s].primary == Some(l.primaryOf[s])
  {
    hide Planned;
    assert ReportsShard(input.statuses, l, input.statuses.Keys, s, shards[s]);
    PlanIsWellFormed(input, l);
    if l.HandingOver(s) {
      OwnerLeads(input, l, s);
    }
  }

  lemma OwnerLeads(input: Input, l: ShardLayout, s: nat)
    requires input.Valid() && Planned(input, l) && s in l.ownerOf
    ensures l.Placed(l.ownerOf[s], s) && Leads(l, l.ownerOf[s])
  {
    var ch :| PlannedWith(input, ch, l);
    FinalFacts(input, ch, l);
  }
}
