/** The steps of a reconcile from the polled statuses to the removal of pods: derive the health of the cluster,
    bootstrap it, reshard it, check how many pods answer, and only then remove the surplus. */
module Reconciler {
  import opened Types
  import opened Counting
  import opened Layout
  import opened Ranking
  import opened LayoutInvariant
  import opened PlanFacts
  import opened ReplicaMoves
  import opened Ownership
  import opened Reshard
  import opened ReshardRuns
  import opened ScaleDown
  import opened Status
  import opened Planner
  import Bootstrap

  // ---------------------------------------------------------------- health

  lemma StateIsFine(statuses: Statuses, state: string)
    requires OverallState(statuses, statuses.Keys, state)
    ensures state == "ok" <==> statuses != map[] && forall p :: p in statuses ==> Fine(statuses[p].clusterState)
  {
  }

  lemma CoverageIsFull(input: Input, l: ShardLayout)
    requires input.Valid() && Planned(input, l)
    ensures Count(x => CoveredBy(input.statuses, l, input.statuses.Keys, x), 0, SLOTS) >= SLOTS <==>
            forall x :: 0 <= x < SLOTS ==> input.Covered(x)
  {
    hide Planned, Count;
    var f := x => CoveredBy(input.statuses, l, input.statuses.Keys, x);
    PlanIsWellFormed(input, l);
    forall x ensures f(x) <==> input.Covered(x) {
      if f(x) {
        var p :| p in input.statuses && p in l.shardOf && Serves(input.statuses[p], x);
        assert input.Named(p);
      }
      if input.Covered(x) {
        var p :| p in input.statuses && input.Named(p) && Serves(input.statuses[p], x);
        assert p in l.shardOf;
      }
    }
    CountBound(f, 0, SLOTS);
    CountAll(f, 0, SLOTS);
  }

  /** What is derived from the statuses as the health of the cluster does not depend on the plan or on which of
      several states is reported. */
  lemma DerivedHealth(input: Input, l: ShardLayout, state: string)
    requires input.Valid() && Planned(input, l) && OverallState(input.statuses, input.statuses.Keys, state)
    ensures (state == "ok" && Count(x => CoveredBy(input.statuses, l, input.statuses.Keys, x), 0, SLOTS) >= SLOTS) <==>
            input.Healthy()
  {
    hide Planned, Count, OverallState, CoveredBy;
    StateIsFine(input.statuses, state);
    CoverageIsFull(input, l);
  }

  // ---------------------------------------------------------------- reachability

  ghost function Answering(statuses: Statuses): set<Pod> {
    set p | p in statuses && statuses[p].connected
  }

  /** Enough pods were polled, but not enough of them answered. */
  ghost predicate Requeues(desired: nat, statuses: Statuses) {
    |statuses| >= desired && |Answering(statuses)| < desired
  }

  lemma NobodyCounted(statuses: Statuses)
    ensures Answering(statuses) - statuses.Keys == {} && Answering(statuses) - {} == Answering(statuses)
  {
  }

  lemma OneMoreAnswer(statuses: Statuses, rest: set<Pod>, p: Pod)
    requires p in rest && rest <= statuses.Keys
    ensures |Answering(statuses) - (rest - {p})| ==
            |Answering(statuses) - rest| + if statuses[p].connected then 1 else 0
  {
    var before, after := Answering(statuses) - rest, Answering(statuses) - (rest - {p});
    assert after == if statuses[p].connected then before + {p} else before;
  }

  method CheckReachability(desired: nat, statuses: Statuses) returns (requeue: bool)
    ensures requeue <==> Requeues(desired, statuses)
  {
    hide Answering;
    NobodyCounted(statuses);
    if |statuses| < desired {
      return false;
    }
    var reachable, rest := 0, statuses.Keys;
    while rest != {}
      invariant rest <= statuses.Keys
      invariant reachable == |Answering(statuses) - rest|
      decreases rest
    {
      var p :| p in rest;
      OneMoreAnswer(statuses, rest, p);
      rest := rest - {p};
      if statuses[p].connected {
        reachable := reachable + 1;
      }
    }
    requeue := reachable < desired;
  }

  // ---------------------------------------------------------------- the way to the pods

  /** The reconcile gets to the pods after this resharding pass: bootstrap was ready, the pass let it go on,
      and enough pods answer. */
  ghost predicate ReachesPods(input: Input, action: Action)
    requires input.Valid()
  {
    && (input.DesiredReachable() ==> input.Healthy())
    && Reconciled(input, input.Healthy(), action) && LetsThrough(action)
    && !Requeues(input.desired, input.statuses)
  }

  /** When every desired pod can be reached, the guards of the pass come down to the health of the cluster. */
  lemma ReachableIsGuarded(input: Input, healthy: bool)
    requires input.Valid() && input.DesiredReachable()
    ensures Guarded(input, healthy) <==> healthy
  {
    hide Planned;
    forall p: Pod | p < input.desired ensures p in input.statuses { OwnerIsReachable(input, p); }
    EnoughStatuses(input, input.desired);
    forall l | PlanResult(input, l) ensures !CutOff(input, l) {
      PlanIsWellFormed(input, Membership(l));
      forall s | 0 <= s < input.n && s in l.primaryOf ensures !Unreachable(input, l.primaryOf[s]) {
        assert Membership(l).primaryOf[s] < input.desired;
      }
    }
  }

  /** Exactly when a reconcile that gets to the pods has completed its scan: every desired pod can be reached,
      or the guards of the pass hold, or too few pods answer for it to get there. */
  lemma PathIsExact(input: Input)
    requires input.Valid()
    ensures (forall action :: ReachesPods(input, action) ==> action == Done) <==>
            || input.DesiredReachable() || Guarded(input, input.Healthy()) || Requeues(input.desired, input.statuses)
  {
    hide Guarded, Reconciled, Requeues;
    GuardsAreExact(input, input.Healthy());
    if input.DesiredReachable() { ReachableIsGuarded(input, input.Healthy()); }
    if input.DesiredReachable() || Guarded(input, input.Healthy()) || Requeues(input.desired, input.statuses) {
      forall action | ReachesPods(input, action) ensures action == Done {
        assert Reconciled(input, input.Healthy(), action);
      }
    } else {
      var action :| Reconciled(input, input.Healthy(), action) && LetsThrough(action) && action != Done;
      assert ReachesPods(input, action);
    }
  }

  /** Scale-down safety for the whole way to the pods: when every desired pod can be reached, or the guards hold,
      no pod removed owns a slot and every slot is owned by a pod that stays. */
  lemma PathIsSafe(input: Input, own: Owner, action: Action, removed: set<Pod>)
    requires input.Valid() && Observes(input, own) && ReachesPods(input, action)
    requires input.DesiredReachable() || Guarded(input, input.Healthy())
    requires forall p :: p in removed ==> p >= input.desired
    ensures forall x :: 0 <= x < SLOTS ==> x in own && own[x] !in removed
    ensures forall p, x :: p in removed ==> !Owns(own, p, x)
  {
    hide Observes, Guarded, Reconciled, Requeues;
    if input.DesiredReachable() { ReachableIsGuarded(input, input.Healthy()); }
    ScaleDownIsSafe(input, input.Healthy(), own, action, removed);
  }

  /** Bootstrap lets the reconcile go on: no handover is pending, and either a desired pod cannot be reached, or
      nobody refused to be introduced, the cluster is healthy and the plan leaves nothing to do. */
  ghost predicate BootstrapReady(input: Input, own: Owner, pending: bool, introduced: bool, plan: ShardLayout) {
    && !pending
    && (input.DesiredReachable() ==> introduced && input.Healthy() && Bootstrap.Bootstrapped(input, own, plan))
  }

  lemma ItReaches(input: Input, own: Owner, pending: bool, plan: ShardLayout, action: Action)
    requires input.Valid() && BootstrapReady(input, own, pending, true, plan)
    requires Reconciled(input, input.Healthy(), action) && LetsThrough(action)
    requires !Requeues(input.desired, input.statuses)
    ensures ReachesPods(input, action)
  {
  }

  /** One reconcile of a cluster, from the statuses on. It reshards if and only if bootstrap is ready, gets to the
      pods if and only if the pass lets it go on and enough pods answer, and then removes all surplus pods unless a
      deletion is refused. When every desired pod can be reached, or the guards of the pass hold, no pod it removes
      owns a slot. */
  method ReconcileCluster(name: string, spec: Spec, pods: map<Pod, PodMeta>, statuses: Statuses, pending: bool,
                          first: Bootstrap.Coordinator, slots: Bootstrap.SlotMap, cluster: Bootstrap.Replication,
                          api: DataPods, existing: seq<Pod>)
    returns (pass: Option<Action>, reached: bool, ok: bool, removed: set<Pod>, ghost plan: ShardLayout)
    requires Distinct(existing) && Observes(InputOf(spec, pods, statuses), slots.own) && cluster.live == statuses
    modifies first, slots, cluster, api
    ensures var input := InputOf(spec, pods, statuses);
            && (pass.Some? <==>
                  BootstrapReady(input, old(slots.own), pending, first.refused == old(first.refused), plan))
            && (pass.Some? && input.DesiredReachable() ==> PlanResult(input, plan))
            && (pass.Some? ==> Reconciled(input, input.Healthy(), pass.value) && slots.own == old(slots.own))
            && (reached <==> pass.Some? && LetsThrough(pass.value) && !Requeues(input.desired, statuses))
    ensures if reached then Highest(PodSet(existing), spec.Desired(), None, removed) else ok && removed == {}
    ensures reached && ok ==> Removed(PodSet(existing), spec.Desired(), None, removed)
    ensures api.present == old(api.present) - removed && api.refused == old(api.refused) + if ok then 0 else 1
    ensures var input := InputOf(spec, pods, statuses);
            input.DesiredReachable() || Guarded(input, input.Healthy()) ==>
              forall p, x :: p in removed ==> !Owns(old(slots.own), p, x)
  {
    hide Reconciled, Observes, Guarded, Removed, Highest, Distinct, PlanResult, Requeues, OverallState;
    hide Bootstrap.Bootstrapped, ReachesPods, Count, Planned, LetsThrough, PodSet, Membership, CoveredBy;
    pass, reached, ok, removed := None, false, true, {};
    var input := InputOf(spec, pods, statuses);
    assert input.desired == spec.Desired() && input.statuses == statuses;
    hide InputOf;
    var builder := PlanShardLayout(input);
    var l := Membership(builder.View());
    assert Planned(input, l) by { ResultIsPlanned(input, builder.View()); }
    var state, slotsAssigned, _ := DeriveClusterStatus(name, input, l);
    var healthy := state == "ok" && slotsAssigned >= SLOTS;
    DerivedHealth(input, l, state);
    var ready;
    ready, plan := Bootstrap.ReconcileClusterBootstrap(spec, pods, statuses, pending, healthy, first, slots, cluster);
    if !ready {
      return;
    }
    var action := ReconcileClusterReshard(spec, pods, statuses, healthy);
    pass := Some(action);
    if !LetsThrough(action) {
      return;
    }
    var requeue := CheckReachability(input.desired, statuses);
    if requeue {
      return;
    }
    reached := true;
    assert ReachesPods(input, action) by { ItReaches(input, old(slots.own), pending, plan, action); }
    ok, removed := DeleteSurplus(api, existing, spec.Desired(), None);
    if input.DesiredReachable() || Guarded(input, input.Healthy()) {
      PathIsSafe(input, slots.own, action, removed);
    }
  }
}
