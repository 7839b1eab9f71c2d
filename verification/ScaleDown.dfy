/** Removing surplus pods, after a resharding pass has let the reconciler go on. */
module ScaleDown {
  import opened Types
  import opened Ranking
  import opened Layout
  import opened LayoutInvariant
  import opened PlanFacts
  import opened ReplicaMoves
  import opened Ownership
  import opened Reshard
  import opened ReshardRuns

  function Surplus(existing: set<Pod>, desired: nat): nat {
    if |existing| > desired then |existing| - desired else 0
  }

  /** Pods removed while `existing` is cut down to `desired`: the highest ordinals, except the current primary. */
  ghost predicate Highest(existing: set<Pod>, desired: nat, primary: Option<Pod>, removed: set<Pod>) {
    && removed <= existing
    && (forall p :: p in removed ==> primary != Some(p))
    && (forall p, q :: p in removed && q in existing && q > p && primary != Some(q) ==> q in removed)
    && |removed| <= Surplus(existing, desired)
  }

  /** All of them are gone, unless the primary was in the way. */
  ghost predicate Removed(existing: set<Pod>, desired: nat, primary: Option<Pod>, removed: set<Pod>) {
    && Highest(existing, desired, primary, removed)
    && (primary.None? || primary.value !in existing || primary.value < desired ==>
          |removed| == Surplus(existing, desired))
  }

  lemma {:induction false} ElementAtLeastIndex(pods: seq<Pod>, k: nat)
    requires Ascending(pods) && k < |pods|
    ensures pods[k] >= k
  {
    if k > 0 { ElementAtLeastIndex(pods, k - 1); }
  }

  lemma {:induction false} DistinctSize(pods: seq<Pod>)
    requires Distinct(pods)
    ensures |PodSet(pods)| == |pods|
  {
    if pods == [] {
      assert PodSet(pods) == {};
    } else {
      var front, last := pods[..|pods| - 1], pods[|pods| - 1];
      assert pods == front + [last];
      DistinctSize(front);
      assert PodSet(pods) == PodSet(front) + {last};
    }
  }

  /** The pods from position `k` of an ascending list on, except the primary. */
  ghost function Tail(sorted: seq<Pod>, k: nat, primary: Option<Pod>): set<Pod>
    requires k <= |sorted|
  {
    set p | p in sorted[k..] && primary != Some(p)
  }

  lemma TailStep(sorted: seq<Pod>, k: nat, primary: Option<Pod>)
    requires Ascending(sorted) && k < |sorted|
    ensures Tail(sorted, k, primary) == Tail(sorted, k + 1, primary) + if primary == Some(sorted[k]) then {}
            else {sorted[k]}
    ensures sorted[k] !in sorted[k + 1..] && sorted[k] >= k
  {
    assert sorted[k..] == [sorted[k]] + sorted[k + 1..];
    ElementAtLeastIndex(sorted, k);
  }

  lemma NoTail(sorted: seq<Pod>, primary: Option<Pod>)
    ensures Tail(sorted, |sorted|, primary) == {}
  {
  }

  lemma TailSize(sorted: seq<Pod>, k: nat, primary: Option<Pod>)
    requires Ascending(sorted) && k <= |sorted|
    ensures |Tail(sorted, k, primary)| == |sorted| - k - if primary.Some? && primary.value in sorted[k..] then 1 else 0
  {
    var all := PodSet(sorted[k..]);
    DistinctSize(sorted[k..]);
    assert Tail(sorted, k, primary) == if primary.Some? then all - {primary.value} else all;
  }

  lemma TailIsRemoved(sorted: seq<Pod>, desired: nat, k: nat, primary: Option<Pod>)
    requires Ascending(sorted) && desired <= k <= |sorted| && |PodSet(sorted)| == |sorted|
    ensures Highest(PodSet(sorted), desired, primary, Tail(sorted, k, primary))
    ensures k == desired ==> Removed(PodSet(sorted), desired, primary, Tail(sorted, k, primary))
    ensures forall p :: p in Tail(sorted, k, primary) ==> p >= desired
  {
    hide Ascending, Tail;
    TailSize(sorted, k, primary);
    forall p | p in Tail(sorted, k, primary)
      ensures p in sorted && p >= desired && primary != Some(p)
    {
      var i := InTail(sorted, k, primary, p);
      ElementAtLeastIndex(sorted, i);
    }
    forall p, q | p in Tail(sorted, k, primary) && q in sorted && q > p && primary != Some(q)
      ensures q in Tail(sorted, k, primary)
    {
      TailIsHighest(sorted, k, primary, p, q);
    }
    if primary.Some? && primary.value < desired { LowIsNotLate(sorted, k, primary.value); }
  }

  lemma InTail(sorted: seq<Pod>, desired: nat, primary: Option<Pod>, p: Pod) returns (k: nat)
    requires desired <= |sorted| && p in Tail(sorted, desired, primary)
    ensures desired <= k < |sorted| && sorted[k] == p && primary != Some(p)
  {
    var i :| 0 <= i < |sorted[desired..]| && sorted[desired..][i] == p;
    k := desired + i;
  }

  lemma TailIsHighest(sorted: seq<Pod>, desired: nat, primary: Option<Pod>, p: Pod, q: Pod)
    requires Ascending(sorted) && desired <= |sorted|
    requires p in Tail(sorted, desired, primary) && q in sorted && q > p && primary != Some(q)
    ensures q in Tail(sorted, desired, primary)
  {
    var k := InTail(sorted, desired, primary, p);
    var j :| 0 <= j < |sorted| && sorted[j] == q;
    assert j >= k;
    assert sorted[desired..][j - desired] == q;
  }

  lemma LowIsNotLate(sorted: seq<Pod>, desired: nat, p: Pod)
    requires Ascending(sorted) && desired <= |sorted| && p < desired
    ensures p !in sorted[desired..]
  {
    if p in sorted[desired..] {
      var i :| 0 <= i < |sorted[desired..]| && sorted[desired..][i] == p;
      ElementAtLeastIndex(sorted, desired + i);
    }
  }

  lemma SurplusIsRemoved(existing: seq<Pod>, desired: nat, k: nat, primary: Option<Pod>)
    requires Distinct(existing) && desired <= k <= |existing|
    ensures Ascending(SortPods(existing)) && |SortPods(existing)| == |existing|
    ensures var removed := Tail(SortPods(existing), k, primary);
            && Highest(PodSet(existing), desired, primary, removed)
            && (k == desired ==> Removed(PodSet(existing), desired, primary, removed))
            && forall p :: p in removed ==> p >= desired
  {
    SortPodsProperties(existing);
    assert PodSet(SortPods(existing)) == PodSet(existing);
    DistinctSize(existing);
    TailIsRemoved(SortPods(existing), desired, k, primary);
  }

  lemma NothingRemoved(existing: seq<Pod>, desired: nat, primary: Option<Pod>)
    requires Distinct(existing) && |existing| <= desired
    ensures Highest(PodSet(existing), desired, primary, {}) && Removed(PodSet(existing), desired, primary, {})
  {
    DistinctSize(existing);
  }

  /** The data pods that exist. A deletion may be refused, without effect. */
  class DataPods {
    var present: set<Pod>
    ghost var refused: nat

    method Delete(pod: Pod) returns (ok: bool)
      modifies this
      ensures present == if ok then old(present) - {pod} else old(present)
      ensures refused == old(refused) + if ok then 0 else 1
    {
      ok := *;
      if ok {
        present := present - {pod};
      } else {
        refused := refused + 1;
      }
    }
  }

  /** Delete from the highest ordinal down, passing over the current primary, until a deletion is refused. */
  method DeleteSurplus(api: DataPods, existing: seq<Pod>, desired: nat, primary: Option<Pod>)
    returns (ok: bool, removed: set<Pod>)
    requires Distinct(existing)
    modifies api
    ensures api.present == old(api.present) - removed && api.refused == old(api.refused) + if ok then 0 else 1
    ensures Highest(PodSet(existing), desired, primary, removed)
    ensures ok ==> Removed(PodSet(existing), desired, primary, removed)
    ensures forall p :: p in removed ==> p >= desired
  {
    hide Removed, Highest, Ascending, Distinct, SortPods, Tail, PodSet;
    ok, removed := true, {};
    var current := |existing|;
    if current <= desired {
      NothingRemoved(existing, desired, primary);
      return;
    }
    SurplusIsRemoved(existing, desired, current, primary);
    var sorted := SortPods(existing);
    NoTail(sorted, primary);
    for i := 0 to current - desired
      invariant removed == Tail(sorted, current - i, primary)
      invariant api.present == old(api.present) - removed && api.refused == old(api.refused)
    {
      TailStep(sorted, current - 1 - i, primary);
      var pod := sorted[current - 1 - i];
      if primary == Some(pod) {
        continue;
      }
      ok := api.Delete(pod);
      if !ok {
        SurplusIsRemoved(existing, desired, current - i, primary);
        return;
      }
      removed := removed + {pod};
    }
    ok := true;
    SurplusIsRemoved(existing, desired, desired, primary);
  }

  /** A completed scan finds every slot at a surviving primary. */
  lemma DoneMeansSurvivorsOwnAll(input: Input, own: Owner, l: ShardLayout, table: seq<Option<Pod>>)
    requires input.Valid() && PlanResult(input, l) && Observes(input, own) && OwnerTable(input.statuses, table)
    requires Outcome(input, l, table, Done)
    ensures forall x :: 0 <= x < SLOTS ==> x in own && own[x] < input.desired
  {
    hide Planned, Observes, OwnerTable;
    PlanIsWellFormed(input, Membership(l));
    TableLength(input.statuses, table);
    assert PlacedBelow(input.n, l, table, SLOTS) by {
      if Acts(input, l, table, Done) { ActingIsNotDone(input, l, table, Done); }
    }
    forall x | 0 <= x < SLOTS ensures x in own && own[x] < input.desired {
      assert InPlace(input.n, l, table, x);
      TableIsOwnership(input, own, table, x);
    }
  }

  // ---------------------------------------------------------------- which passes let the reconciler go on

  /** The pass lets the reconciler go on to the pods. */
  predicate LetsThrough(action: Action) {
    action == Done || action == Stop(true)
  }

  /** Every shard has a primary, and one of them cannot be reached. */
  ghost predicate CutOff(input: Input, l: ShardLayout) {
    && (forall s :: 0 <= s < input.n ==> s in l.primaryOf)
    && exists s :: 0 <= s < input.n && Unreachable(input, l.primaryOf[s])
  }

  /** There are enough statuses, the cluster reports itself healthy, and either there is a status to spare
      or no plan has a primary that cannot be reached. */
  ghost predicate Guarded(input: Input, healthy: bool)
    requires input.Valid()
  {
    && |input.statuses| >= input.desired && healthy
    && (|input.statuses| > input.desired || forall l :: PlanResult(input, l) ==> !CutOff(input, l))
  }

  /** Some table of owners, for any statuses. */
  lemma SomeTable(statuses: Statuses) returns (table: seq<Option<Pod>>)
    ensures OwnerTable(statuses, table)
  {
    table := seq(SLOTS, x => ServerOf(statuses, x));
  }

  ghost function ServerOf(statuses: Statuses, x: int): (server: Option<Pod>)
    ensures server.Some? ==> server.value in statuses && Serves(statuses[server.value], x)
    ensures server.None? ==> forall p :: p in statuses ==> !Serves(statuses[p], x)
  {
    if exists p :: p in statuses && Serves(statuses[p], x) then
      var p :| p in statuses && Serves(statuses[p], x);
      Some(p)
    else None
  }

  lemma CutPassGivesWay(input: Input, l: ShardLayout)
    requires input.Valid() && PlanResult(input, l) && CutOff(input, l)
    ensures PassOutcome(input, Stop(|input.statuses| <= input.desired))
  {
    hide PlanResult, OwnerTable, Serves, PlacedBelow, Acts;
    var table := SomeTable(input.statuses);
    TableLength(input.statuses, table);
    assert Outcome(input, l, table, Stop(|input.statuses| <= input.desired));
  }

  lemma GuardedPassIsDone(input: Input, healthy: bool, action: Action)
    requires input.Valid() && Guarded(input, healthy) && Reconciled(input, healthy, action) && LetsThrough(action)
    ensures action == Done
  {
    hide PlanResult, PlacedBelow, FirstSegment;
    var l, table :| PlanResult(input, l) && OwnerTable(input.statuses, table) && Outcome(input, l, table, action);
    TableLength(input.statuses, table);
    if Acts(input, l, table, action) { ActingIsNotStopTrue(input, l, table, action); }
  }

  /** The guards are exact: a pass that lets the reconciler go on has completed its scan, whatever the map
      order, if and only if the guards hold. */
  lemma GuardsAreExact(input: Input, healthy: bool)
    requires input.Valid()
    ensures Guarded(input, healthy) <==>
            forall action :: Reconciled(input, healthy, action) && LetsThrough(action) ==> action == Done
  {
    hide PlanResult, PassOutcome, CutOff;
    if Guarded(input, healthy) {
      forall action | Reconciled(input, healthy, action) && LetsThrough(action) ensures action == Done {
        GuardedPassIsDone(input, healthy, action);
      }
    } else if |input.statuses| < input.desired || !healthy {
      assert Reconciled(input, healthy, Stop(true));
    } else {
      var l :| PlanResult(input, l) && CutOff(input, l);
      CutPassGivesWay(input, l);
      assert Reconciled(input, healthy, Stop(true));
    }
  }

  /** Scale-down safety: after a guarded pass that lets the reconciler go on, no removed pod owns a slot,
      and every slot is owned by a pod that stays. */
  lemma ScaleDownIsSafe(input: Input, healthy: bool, own: Owner, action: Action, removed: set<Pod>)
    requires input.Valid() && Observes(input, own) && Guarded(input, healthy)
    requires Reconciled(input, healthy, action) && LetsThrough(action)
    requires forall p :: p in removed ==> p >= input.desired
    ensures forall x :: 0 <= x < SLOTS ==> x in own && own[x] !in removed
    ensures forall p, x :: p in removed ==> !Owns(own, p, x)
  {
    hide Observes, Outcome, PlanResult, Blocked, Guarded;
    GuardedPassIsDone(input, healthy, action);
    assert PassOutcome(input, Done) by { GuardedIsPlanned(input, healthy, action); }
    var l, table :| PlanResult(input, l) && OwnerTable(input.statuses, table) && Outcome(input, l, table, Done);
    DoneMeansSurvivorsOwnAll(input, own, l, table);
    forall p, x | p in removed ensures !Owns(own, p, x) {
      ObservedInBounds(input, own, x);
    }
  }

  lemma GuardedIsPlanned(input: Input, healthy: bool, action: Action)
    requires input.Valid() && Guarded(input, healthy) && Reconciled(input, healthy, action)
    ensures PassOutcome(input, action)
  {
  }

  lemma ObservedInBounds(input: Input, own: Owner, x: int)
    requires Observes(input, own)
    ensures x in own ==> 0 <= x < SLOTS
  {
  }
}
