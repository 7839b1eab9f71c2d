/** The three ways past the resharding scan, each on a cluster whose surplus pod owns slots. In all of them a
    desired pod cannot be reached, so that bootstrap gives way. */
module EarlyExits {
  import opened Types
  import opened Layout
  import opened ReplicaMoves
  import opened Ownership
  import opened Reshard
  import opened ReshardRuns
  import opened ScaleDown
  import opened StalledHandover
  import opened Reconciler

  /** The statuses are what polling the listed pods yields and report the owners; whatever the resharding pass
      does it lets the reconcile go on, which gets to the pods; and the pod removed there owns a slot. */
  ghost predicate RemovesAnOwner(input: Input, own: Owner)
    requires input.Valid()
  {
    && input.Polled() && Observes(input, own) && !input.DesiredReachable()
    && (forall action :: Reconciled(input, input.Healthy(), action) ==>
          action == Stop(true) && ReachesPods(input, action))
    && Removed(input.pods.Keys, input.desired, None, {3}) && exists x :: Owns(own, 3, x)
  }

  const ABSENT := PodMeta(None, false, false)

  lemma SurplusIsThree(pods: map<Pod, PodMeta>)
    requires pods.Keys == {0, 1, 2, 3}
    ensures Removed(pods.Keys, 3, None, {3})
  {
  }

  // ---------------------------------------------------------------- too few statuses

  const ORPHAN := InstanceStatus(true, Master, "n3", "", false, [SlotRange(0, 0)])

  /** Four pods for three desired ones, of which only the surplus pod has an address and was polled. */
  const UNPOLLED := InputOf(Spec(3, 0), map[0 := ABSENT, 1 := ABSENT, 2 := ABSENT, 3 := LISTED], map[3 := ORPHAN])

  /** First exit: fewer statuses than desired pods. */
  lemma TooFewStatuses()
    ensures |UNPOLLED.statuses| < UNPOLLED.desired && RemovesAnOwner(UNPOLLED, map[0 := 3])
  {
    hide Observes, Removed;
    assert UNPOLLED.n == 3 && UNPOLLED.desired == 3;
    SurplusIsThree(UNPOLLED.pods);
    ReportsOrphan();
    assert Owns(map[0 := 3], 3, 0);
    assert !UNPOLLED.Reachable(0);
  }

  lemma ReportsOrphan()
    ensures Observes(UNPOLLED, map[0 := 3])
  {
    forall p: Pod, x ensures Serves(StatusOf(UNPOLLED.statuses, p), x) <==> Owns(map[0 := 3], p, x) {
      if p == 3 { assert ORPHAN.slotsServed[0].Contains(0); }
    }
  }

  // ---------------------------------------------------------------- other statuses for the same slots

  /** The same pods report the same slots. */
  lemma ReportsTheSame(input: Input, own: Owner)
    requires Held(own) && input.pods.Keys == {0, 1, 2, 3}
    requires forall p: Pod :: StatusOf(input.statuses, p).slotsServed == StatusOf(STATUSES, p).slotsServed
    ensures Observes(input, own)
  {
    ReportsHolders(own);
    hide StatusOf, SoundRanges, Held;
    forall p: Pod, x ensures Serves(StatusOf(input.statuses, p), x) <==> Owns(own, p, x) {
      assert Serves(StatusOf(STATUSES, p), x) <==> Owns(own, p, x);
    }
  }

  lemma AnsweringIs(statuses: Statuses, pods: set<Pod>)
    requires forall p :: p in pods <==> p in statuses && statuses[p].connected
    ensures Answering(statuses) == pods
  {
  }

  // ---------------------------------------------------------------- a cluster that is not healthy

  /** Pod 0 did not answer, and pod 1 has noticed. */
  const FAILING := STALLED.(statuses := map[
    0 := NO_STATUS, 1 := STATUSES[1].(clusterState := "fail"), 2 := STATUSES[2], 3 := STATUSES[3]])

  /** Second exit: every pod was polled, but a state other than "ok" was reported. */
  lemma NotHealthy(own: Owner)
    requires Held(own)
    ensures |FAILING.statuses| > FAILING.desired && !FAILING.Healthy() && RemovesAnOwner(FAILING, own)
  {
    hide Observes, Removed, Serves, StatusOf, Requeues, PassOutcome;
    FailingIsPolled();
    SurplusIsThree(FAILING.pods);
    FailingReportsTheSame(own);
    assert !FAILING.Healthy() by { assert !Fine(FAILING.statuses[1].clusterState); }
    assert !FAILING.DesiredReachable() by { assert !FAILING.Reachable(0); }
    assert Owns(own, 3, 1);
  }

  /** Four pods were polled and three of them answered. */
  lemma FailingIsPolled()
    ensures FAILING.Polled() && |FAILING.statuses| == 4 && !Requeues(3, FAILING.statuses)
  {
    assert FAILING.statuses.Keys == {0, 1, 2, 3};
    AnsweringIs(FAILING.statuses, {1, 2, 3});
  }

  lemma FailingReportsTheSame(own: Owner)
    requires Held(own)
    ensures Observes(FAILING, own)
  {
    hide Held;
    ReportsTheSame(FAILING, own);
  }

  // ---------------------------------------------------------------- a primary that cannot be reached

  /** The heir of shard 0 has no address and was not polled. */
  const UNREACHED := STALLED.(pods := STALLED.pods[0 := ABSENT], statuses := STATUSES - {0})

  lemma UnreachedIsHealthy(own: Owner)
    requires Held(own)
    ensures UNREACHED.Healthy()
  {
    assert UNREACHED.statuses.Keys == {1, 2, 3};
    hide Serves, Held;
    forall x | 0 <= x < SLOTS ensures UNREACHED.Covered(x) {
      ServesIsHolding(Holder(x), x);
      assert Holder(x) in UNREACHED.statuses && UNREACHED.Named(Holder(x));
    }
  }

  /** Third exit: enough statuses and a healthy cluster, but one primary of every plan cannot be reached,
      and there is no status to spare. */
  lemma PrimaryUnreached(own: Owner)
    requires Held(own)
    ensures |UNREACHED.statuses| == UNREACHED.desired && UNREACHED.Healthy() && RemovesAnOwner(UNREACHED, own)
  {
    hide Observes, Removed, PlanResult, Outcome, Serves;
    assert UNREACHED.statuses.Keys == {1, 2, 3} && UNREACHED.pods.Keys == {0, 1, 2, 3};
    SurplusIsThree(UNREACHED.pods);
    ReportsTheSame(UNREACHED, own);
    UnreachedIsHealthy(own);
    AnsweringIs(UNREACHED.statuses, {1, 2, 3});
    assert !UNREACHED.Reachable(0);
    assert Owns(own, 3, 1);
    hide Held;
    forall action | Reconciled(UNREACHED, true, action) ensures action == Stop(true) {
      var l, table :| PlanResult(UNREACHED, l) && OwnerTable(UNREACHED.statuses, table)
          && Outcome(UNREACHED, l, table, action);
      PassGivesWay(own, l, table, action);
    }
  }

  lemma PassGivesWay(own: Owner, l: ShardLayout, table: seq<Option<Pod>>, action: Action)
    requires Held(own) && PlanResult(UNREACHED, l) && |table| == SLOTS && Outcome(UNREACHED, l, table, action)
    ensures action == Stop(true)
  {
    hide Observes, PlanResult, Handing, PlacedBelow, Acts, Held, Blocked, StatusOf;
    ReportsTheSameUnreached(own);
    HoldersAreThree(own);
    ResultIsPlanned(UNREACHED, l);
    EveryPlanHandsOver(UNREACHED, own, CLAIMS, Membership(l));
    HeirBlocks(l);
  }

  lemma ReportsTheSameUnreached(own: Owner)
    requires Held(own)
    ensures Observes(UNREACHED, own)
  {
    assert UNREACHED.pods.Keys == {0, 1, 2, 3};
    ReportsTheSame(UNREACHED, own);
  }

  lemma HeirBlocks(l: ShardLayout)
    requires l.IsPrimaryOf(0, 0) && l.IsPrimaryOf(1, 1) && l.IsPrimaryOf(2, 2)
    ensures Blocked(UNREACHED, l) == Some(Stop(true))
  {
    assert UNREACHED.statuses.Keys == {1, 2, 3};
    assert forall s :: 0 <= s < 3 ==> s in l.primaryOf;
    assert Unreachable(UNREACHED, l.primaryOf[0]);
  }
}
