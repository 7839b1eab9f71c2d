# Verified model of the cluster topology engine

This project models, in Dafny, how the operator decides the topology of a Redis Cluster, and proves
properties of those decisions for every input, every map order and every run. `dafny verify dfyconfig.toml`
checks all of it.

The engine works in reconcile passes. Each pass polls the pods, plans a shard layout from what it observes,
gives uncovered slots to the primaries, moves one segment of misplaced slots, and only then adds or removes
pods. Two annotations on the cluster object, the fence list and the handover marker, take pods out of service.

## How the model is laid out

- `Types`, `Names`, `Slots`, `Counting`: records, names, slot ranges, counting.
- `Matching`, `Ranking`, `Claims`: which slot owner claims which shard.
- `Layout` states what each planning phase may turn a layout into; `Planner` carries the phases out in place
  on a `LayoutBuilder` object and is proved to stay within that statement. The theorems about plans
  (`LayoutInvariant`, `PlanFacts`, `Totality`, `Leaders`, `FreshLayout`, `MembershipKept`, `Homes`, `Levels`,
  `ReplicaMoves`, `MoveOrder`, `Rebalance`) are about the values it can produce.
- `Reshard` is one resharding pass; `Ownership`, `Convergence` and `ReshardRuns` follow the true slot owners
  through whole runs of passes. `Displacement` and `HandoverProgress` follow a move into a shard whose owner is
  doomed; `CostlyHandover` and `StalledHandover` are concrete clusters, and `Stall` shows when nothing ever
  moves again. `Decisions` says what a pass does in terms of owners and statuses, `HandoverBegins` follows an heir
  from being attached to the beginning of its handover, and `LostHeirs` is a cluster in which none begins.
  `ScaleDown` removes pods, `Reconciler` is the whole way there from the polled statuses, and
  `EarlyExits` shows how a pod that owns slots can be removed.
- `Coverage` and `Bootstrap` assign slots and attach replicas; `MigrateRange` moves keys between two nodes.
- `Fencing` reads the two annotations and `Handover` writes them; `FenceRuns` and `PromotionRuns` follow runs of
  writes from copies of any age. `Failover`, `RollingUpdate`, `Status`: the protocols around them.

Modelling decisions:

- A pod is its ordinal. `Names.PodIndexOfName` shows that names and ordinals determine each other. Listed pods
  are a map from pods, since names are unique and the planner sorts them.
- Go's map iteration is an arbitrary choice of the next key; results hold for every order. Where the order
  shows in the result (`spareSurvivor`, duplicate node IDs) the model allows every outcome.
- A Redis, HTTP or Kubernetes command is a step that succeeds or fails. A failed `MIGRATE` may have moved
  part of its batch or left it on both nodes, and a failed migration request may have moved part of its segment.
  The objects that take commands count the refused ones, so that an operation can only fail for a cause.
- `Observes` says that statuses report the true owners: disjoint ranges per pod, no slot with two owners,
  every owner listed. It is assumed only where a theorem relates plans to true owners.
- The JSON encoding of the fence list is a parameter of which only the round trip is used.

## What turned out not to hold

- Moving slots into a shard whose owner is doomed need not make progress. The number of correct slots grows if
  and only if the segment is at least as long as what the doomed owner holds of the shard
  (`HandoverProgress.MigrationIntoHandover`). It may grow by less than the segment, because the displaced owner
  can take another shard from a survivor: `CostlyHandover.CorrectSlotsAreLost` is an input on which 3000 moved
  slots gain 1500. It grows by exactly the segment when the displaced owner can win no other shard
  (`HandoverProgress.ExactProgressIntoHandover`). Into any other shard progress is always exact
  (`Convergence.MigrationProgress`).
- When a move into such a shard gains nothing, the receiving pod stops being available as an heir. Once every
  survivor owns slots while a doomed pod claims a shard, no plan finds an heir and no slot ever moves again
  (`Stall.StuckForever`); `StalledHandover` is a cluster that one pass takes there.
- An attached heir need not get its handover. The heir of a shard nobody claims can be attached to a doomed pod
  that claims another shard and holds the first misplaced slot. The next plan then puts it in that other shard, and
  the handover does not begin (`HandoverBegins.HandoverBeginsNext`). It begins whenever the heir's shard is the one
  the doomed pod claims, and in general if and only if the heir still leads its shard (`HandoverBegins.NextPass`). In
  the cluster of `LostHeirs` every survivor is attached that way until the first shard has no primary in any plan and
  every pass stops.
- A reconcile can get to the pods without a completed scan, and a pod removed then may own slots.
  `Reconciler.PathIsExact` says when: a desired pod cannot be reached, so that bootstrap gives way; enough pods
  answer, or too few were polled for that to matter; and the guards of the resharding pass fail, for lack of
  statuses, because the statuses do not make the cluster healthy, or because a primary cannot be reached and there
  is no status to spare (`ScaleDown.GuardsAreExact`). `EarlyExits` has a cluster for each. When every desired pod
  can be reached, or the guards hold, removal is safe (`Reconciler.PathIsSafe`).
- Writes of the fence list by `setFence` and `clearFence` are not locked to a version. A write from an old copy
  drops fences that copy did not have; `Handover.UnlockedWriteKeepsFence` gives the exact condition.
- A pod whose fence is set may be left running. `FenceRuns.SetFenceExactly` gives the exact condition, for a
  copy of any age and any writes of others between the two writes of `setFence`: no handover from the pod is left
  standing that the copy does not know of, and the fence is still there if the copy had it already.
  `FenceRuns.OldCopySoftensFence` and `FenceRuns.HandoverBetweenSoftensFence` are runs in which it fails.
- A promotion may be requested when the handover is no longer in force: `PromotionRuns.EscalationOvertakesRequest`
  has an operator request it from an old copy after the owner's fence was made a hard one. The handover is in
  force at the request if and only if it stands after the writes since the version looked at, and all the way there
  if and only if none of them ended it, left the owner out of the fence list or put the heir on it
  (`PromotionRuns.EveryPromotionIsJustified`).
- An approval of a primary update can be used twice, when clearing it fails and the desired hash changes
  (`RollingUpdate.ApprovalUsedTwice`); `RollingUpdate.ApprovalAccount` is the exact account.
- A key that a timed-out `MIGRATE` left on both nodes keeps every later request for its slot from succeeding,
  since the command is sent without `REPLACE` (`MigrateRange.HandleClusterMigrateRange`).
- A failover whose candidate has no address completes without a promotion, while a switchover reports an error
  (`Failover.Standalone.FailOver`, `Failover.Standalone.SwitchOver`).
- The readiness probe differs from the other two readers of the fence list on the empty pod name, and only there
  (`Fencing.ReadersAgree`).

## Model

| member | source | states |
|---|---|---|
| Names.PodIndexOfName | internal/controller/cluster/pods.go:1049-1053 | the ordinal is read back from the pod name, so names are distinct for distinct ordinals |
| Names.ShardLabelRoundTrip | internal/controller/cluster/cluster_layout.go:56-70 | a written shard label is read back as its shard |
| Names.OtherLabelsAreRead | internal/controller/cluster/cluster_layout.go:60-70 | labels the operator never writes, such as "s+5" and "s05", are accepted too |
| Slots.CalculateClusterSlotRanges | internal/controller/cluster/cluster_bootstrap.go:167-185 | the running-start loop gives the closed form start(i) = i*base + min(i, remainder), and nothing for counts that are not positive |
| Slots.RangesPartition | internal/controller/cluster/cluster_bootstrap.go:167-185 | every slot lies in the range of exactly one shard, for every shard count |
| Slots.RangesBalanced | internal/controller/cluster/cluster_bootstrap.go:173-184 | ranges are consecutive, sizes differ by at most one, larger ones first |
| Ranking.OverlapWith | internal/controller/cluster/cluster_layout.go:287-294 | the accumulated overlap of a pod's ranges with a shard |
| Ranking.SortMatches | internal/controller/cluster/cluster_layout.go:300-305 | the stable sort ranks by overlap, shard and ordinal and keeps exactly the pairs |
| Ranking.RankOwnersByOverlap | internal/controller/cluster/cluster_layout.go:283-307 | the ranking holds every overlapping owner/shard pair once, best first |
| Matching.GreedyIsStable | internal/controller/cluster/cluster_layout.go:143-148 | greedy claiming is stable: an overlapping pair is claimed or beaten by a better claim on its pod or shard |
| Matching.StableIsUnique | internal/controller/cluster/cluster_layout.go:143-148 | there is only one stable set of claims, so the greedy result does not depend on how it is reached |
| Matching.StableAfterGain | internal/controller/cluster/cluster_layout.go:129-154 | raising a claimed overlap and lowering rival overlaps of that shard keeps every claim |
| Matching.StableIfClaimsStand | internal/controller/cluster/cluster_layout.go:129-154 | claims stay stable when unclaimed pairs shrink or new ones are beaten |
| Matching.SameClaimsAhead | internal/controller/cluster/cluster_layout.go:143-148 | a pod that arrives with part of a shard changes no claim that ranks ahead of it |
| Matching.ArrivalClaims | internal/controller/cluster/cluster_layout.go:143-148 | and it gets the shard if it ranks ahead of whoever claims it |
| Displacement.SeatTaken | internal/controller/cluster/cluster_layout.go:143-148 | a pod that takes its best shard leaves claims that are stable but for the pod it displaced, which can only win less |
| Displacement.Resettle | internal/controller/cluster/cluster_layout.go:143-148 | along the whole chain of displacements, what survivors claim never falls when a survivor was displaced, and by less than the best it can win when a doomed pod was |
| Displacement.ArrivalGains | internal/controller/cluster/cluster_layout.go:143-148 | a survivor that displaces a doomed pod strictly raises the total overlap survivors claim |
| Displacement.ArrivalGainsAll | internal/controller/cluster/cluster_layout.go:143-148 | and raises it by exactly what it brings if the displaced pod can win nothing else |
| Claims.ParkProperties | internal/controller/cluster/cluster_layout.go:149-154 | leftover owners get distinct shards of their own and no claim changes |
| Claims.ClaimsCoverShards | internal/controller/cluster/cluster_layout.go:129-154 | with as many owners as shards the claims are a bijection onto the desired shards |
| Planner.LayoutBuilder.ClaimByOverlap | internal/controller/cluster/cluster_layout.go:136-148 | the claiming loop leaves exactly a stable set of claims in the maps |
| Planner.LayoutBuilder.ParkLeftovers | internal/controller/cluster/cluster_layout.go:149-154 | the leftover loop parks owners in ordinal order on the lowest unused shards |
| Planner.LayoutBuilder.FirstUnused | internal/controller/cluster/cluster_layout.go:121-127 | the lowest shard that is not used |
| Planner.LayoutBuilder.AttachReplicas | internal/controller/cluster/cluster_layout.go:163-188 | pods follow their primary, keep their label or stay free, one by one in ordinal order; what that comes to is `Homes.AttachIsHome` |
| Planner.LayoutBuilder.FillShards | internal/controller/cluster/cluster_layout.go:190-203 | free survivors take the shards without a primary, in order |
| Planner.LayoutBuilder.SpareSurvivor | internal/controller/cluster/cluster_layout.go:238-252 | for any map order, the first spare member of a largest shard that has one, and none only if no survivor can be spared |
| Planner.LayoutBuilder.Move | internal/controller/cluster/cluster_layout.go:254-265 | a pod leaves its shard's list and joins another |
| Planner.LayoutBuilder.FindHeirs | internal/controller/cluster/cluster_layout.go:206-216 | each owned shard without a primary borrows a spare survivor, until none is left |
| Planner.LayoutBuilder.BalanceShards | internal/controller/cluster/cluster_layout.go:218-226 | each remaining pod joins the lowest of the smallest shards |
| Planner.LayoutBuilder.SortShards | internal/controller/cluster/cluster_layout.go:228-233 | every member list ends up in ordinal order |
| Planner.LayoutBuilder.CountReplicas | internal/controller/cluster/cluster_layout.go:311-322 | counts the surviving replicas, and gives up exactly when a shard has no primary or is handing over |
| Planner.LayoutBuilder.DrainSource | internal/controller/cluster/cluster_layout.go:326-342 | moves from one source take the highest ordinals first, keep the counts right and stop only when source or target is satisfied or no replica can move |
| Planner.LayoutBuilder.PlanReplicaMoves | internal/controller/cluster/cluster_layout.go:310-345 | the planned moves are justified, within bounds and maximal, or none if the layout is not settled; they are made in order, which leaves only one set of moves (`MoveOrder.MovesAreDetermined`) |
| Planner.CollectNames | internal/controller/cluster/cluster_layout.go:91-113 | the desired and the listed pods, each once, by ordinal |
| Planner.IndexNodes | internal/controller/cluster/cluster_layout.go:156-161 | some reporting pod for every reported node ID, for any map order |
| Planner.PlanMembership | internal/controller/cluster/cluster_layout.go:72-233 | the phases together produce a layout the specification allows |
| Planner.PlanShardLayout | internal/controller/cluster/cluster_layout.go:72-236 | the whole plan: an allowed membership with good replica moves made in order |
| LayoutInvariant.AttachAllOk | internal/controller/cluster/cluster_layout.go:163-188 | attaching keeps the layout well formed and loses no pod |
| LayoutInvariant.MoveWellFormed | internal/controller/cluster/cluster_layout.go:254-265 | moving a spare survivor disturbs no owner, no primary and no list, and a spare survivor owns no slots |
| LayoutInvariant.HeirStepWellFormed | internal/controller/cluster/cluster_layout.go:206-216 | giving a shard an heir keeps the layout well formed |
| PlanFacts.PlanIsWellFormed | internal/controller/cluster/cluster_layout.go:72-236 | for every input: each named pod is in exactly one shard, lists and map agree, primaries are distinct, survive and sit in their shard, surviving owners lead their own shard, and a shard is handing over exactly when its owner is doomed |
| Totality.SpareExists | internal/controller/cluster/cluster_layout.go:238-252 | pigeonhole: with an owner in every shard and a shard without a primary, some survivor can be spared |
| Totality.SurvivorTotality | internal/controller/cluster/cluster_layout.go:149-216 | with exactly as many owners as shards, every shard has an owner and a surviving primary, however many owners are doomed |
| Leaders.EnoughLeaders | internal/controller/cluster/cluster_layout.go:129-203 | with no doomed owner, and as many slot owners and connected masters without slots as shards, every shard has a primary |
| FreshLayout.FreshLayoutIsRoundRobin | internal/controller/cluster/cluster_layout.go:190-226 | without statuses and labels pods 0..n-1 lead shards 0..n-1, pod i is in shard i mod n, and each shard has 1+R members |
| MembershipKept.PlacedStays | internal/controller/cluster/cluster_layout.go:190-226 | where attaching puts a pod it stays, unless it becomes the heir of a shard that is handing over |
| MembershipKept.FollowersStay | internal/controller/cluster/cluster_layout.go:168-177 | a replica is planned with the owner it follows, or leads a shard that is handing over |
| MembershipKept.LabelsAreKept | internal/controller/cluster/cluster_layout.go:179-186 | an unobservable pod is planned where its label says, or leads a shard that is handing over |
| Homes.AttachIsHome | internal/controller/cluster/cluster_layout.go:163-188 | attaching places exactly the pods that have a home, at home: that of their claim, of the pod they follow if it is an owner or of lower ordinal, or of their label if they cannot be observed; and a shard nobody led is led by its lowest candidate |
| Homes.PlanGoesByHomes | internal/controller/cluster/cluster_layout.go:163-226 | in every plan a pod with a home is there, unless borrowed as an heir; a shard that no surviving owner holds is led by the lowest survivor without slots that follows a pod of the shard or is unobservable and labelled as its primary, whenever there is one |
| Homes.DoomedShardIsLed | internal/controller/cluster/cluster_layout.go:168-186 | on roles, node IDs and labels: the shard of a doomed owner is led by a survivor without slots, of no higher ordinal than any that follows the owner or is unobservable and labelled as the primary of the shard |
| Homes.NobodyLeads | internal/controller/cluster/cluster_layout.go:190-216 | a shard without an owner is left without a primary when every survivor belongs somewhere and none is a candidate for it |
| Levels.HomelessAreLevelled | internal/controller/cluster/cluster_layout.go:190-226 | a pod that belongs nowhere leads a shard, or joins one that is then at most one pod larger than any other |
| Levels.HeirComesFromLargest | internal/controller/cluster/cluster_layout.go:206-252 | an heir is borrowed exactly when an owned shard has no primary and a survivor can be spared, and comes from a shard at least as large as any that can spare one |
| ReplicaMoves.MoveKeeps | internal/controller/cluster/cluster_layout.go:324-343 | a move from a shard with too many to one with too few keeps bounds, justification and what was already exhausted |
| ReplicaMoves.MoveKeepsOrder | internal/controller/cluster/cluster_layout.go:324-343 | the next move takes the highest replica of the lowest source that can give to the lowest target that lacks one, and keeps the order |
| MoveOrder.MovesAreDetermined | internal/controller/cluster/cluster_layout.go:310-345 | two sets of good moves made in order are equal, so the plan leaves no choice about who moves where |
| ReplicaMoves.MovesConserve | internal/controller/cluster/cluster_layout.go:310-345 | the moves conserve the surviving replicas of the desired shards |
| ReplicaMoves.MovesReachBalance | internal/controller/cluster/cluster_layout.go:310-345 | when all replicas can move, every settled shard ends with exactly the desired number |
| Rebalance.SameClaims | internal/controller/cluster/cluster_layout.go:129-154 | the claims depend only on the slots the owners serve |
| Rebalance.FollowerPlanned | internal/controller/cluster/cluster_layout.go:168-177 | with surviving owners only, a follower is planned in its owner's shard |
| Rebalance.BalancingIsFinal | internal/controller/cluster/cluster_layout.go:309-345 | every shard reaches the desired count and, once the moves are executed, every further plan moves nobody |
| Ownership.OverlapIsOwned | internal/controller/cluster/cluster_layout.go:287-294 | the overlap summed range by range is the number of slots owned |
| Ownership.MarketIsOwnership | internal/controller/cluster/cluster_layout.go:283-298 | the ranking depends on nothing but who owns which slot |
| Convergence.CorrectIsClaimed | internal/controller/cluster/cluster_layout.go:129-154 | a slot is at its shard's primary exactly when its owner survives and claims the shard |
| Convergence.MovedSlotsBecomeCorrect | internal/controller/cluster/cluster_reshard.go:97-160 | after a move and a fresh plan exactly the moved slots have become correct and none has stopped being so |
| Convergence.MigrationProgress | internal/controller/cluster/cluster_reshard.go:97-160 | a move raises the number of correct slots, against the freshly planned layout, by exactly its length |
| Convergence.NoProgressIntoHandover | internal/controller/cluster/cluster_reshard.go:135-158 | a move into a shard with a doomed owner that holds more than the segment gains nothing, and the heir is passed over |
| HandoverProgress.CorrectIsWeight | internal/controller/cluster/cluster_layout.go:129-154 | the number of correct slots is the total overlap with which survivors claim shards |
| HandoverProgress.MigrationIntoHandover | internal/controller/cluster/cluster_reshard.go:135-158 | into a shard with a doomed owner: the number of correct slots grows, the heir leads the shard in the next plan and the moved slots are correct there, each if and only if the segment is at least as long as what the doomed owner holds of the shard |
| HandoverProgress.ExactProgressIntoHandover | internal/controller/cluster/cluster_reshard.go:135-158 | the count grows by exactly the segment when on every other shard the doomed owner has part of, its owner ranks ahead |
| CostlyHandover.PassMigratesThem | internal/controller/cluster/cluster_reshard.go:97-158 | in the concrete cluster every plan and every pass sends slots 0 to 2999 from pod 1 to the heir, pod 0 |
| CostlyHandover.CorrectSlotsAreLost | internal/controller/cluster/cluster_reshard.go:135-158 | which raises the count from 6961 to 8461, since the displaced owner takes a survivor's shard |
| Reshard.BuildOwnerTable | internal/controller/cluster/cluster_reshard.go:80-95 | each entry names a pod that serves the slot and is empty only if nobody does |
| Reshard.ScanShard | internal/controller/cluster/cluster_reshard.go:103-115 | finds the first maximal run out of place in one range |
| Reshard.Scan | internal/controller/cluster/cluster_reshard.go:100-162 | completes exactly when every slot is in place, otherwise acts on the first segment out of place |
| ReshardRuns.CommandsAreSound | internal/controller/cluster/cluster_reshard.go:100-192 | slots go only to the surviving primary of their shard, from nobody or from their one owner, with everything before them correct; a doomed owner's slots are migrated only to a pod that owns slots, and otherwise handed to a survivor without any, begun only once it follows over a link that is up |
| Decisions.SegmentIsRun | internal/controller/cluster/cluster_reshard.go:100-115 | the segment a pass acts on starts at the first misplaced slot and is the longest run of its owner and shard from there |
| Decisions.PassDecides | internal/controller/cluster/cluster_reshard.go:51-192 | what a pass does, exactly: it stops if a primary is missing or cannot be reached, is done if every slot is correct, and otherwise acts on the first misplaced slot; a doomed owner hands over to a primary without slots, and the handover begins if and only if that primary follows it over a link that is up, is waited for if and only if the link is down, and the primary is attached if and only if it does not follow |
| HandoverBegins.HeirStillLeads | internal/controller/cluster/cluster_layout.go:163-177 | an heir that led the shard of a doomed owner leads it in every later plan in which it follows that owner, if nothing changed below its ordinal |
| HandoverBegins.NextPass | internal/controller/cluster/cluster_reshard.go:135-192 | when an attached heir is seen following the owner over a link that is up, the next pass that nothing holds up begins the handover if and only if the heir still leads its shard |
| HandoverBegins.HandoverBeginsNext | internal/controller/cluster/cluster_reshard.go:135-192 | so it begins if the heir leads the shard the owner claims, and does not begin with this heir if its shard has no owner |
| HandoverBegins.HeirGoesElsewhere | internal/controller/cluster/cluster_layout.go:168-177 | an heir that follows the owner of another shard leads its own only if it is borrowed back, for lack of any candidate |
| LostHeirs.PassAttaches | internal/controller/cluster/cluster_reshard.go:135-192 | in the concrete cluster every pass attaches a survivor of the unclaimed shard 0 to the doomed pod 3, which claims shard 1, as long as one of pods 0 and 1 is not attached |
| LostHeirs.PassStops | internal/controller/cluster/cluster_reshard.go:51-64 | once both are attached every pass stops, since shard 0 has no primary in any plan |
| Reshard.CheckPrimaries | internal/controller/cluster/cluster_reshard.go:53-78 | a missing primary stops the pass, an unreachable one stops it and blocks a scale-down |
| Reshard.ReconcileClusterReshard | internal/controller/cluster/cluster_reshard.go:25-163 | the whole pass: which early exit, completion or single command is taken when; read off the owners and statuses in `Decisions.PassDecides` |
| ReshardRuns.PassProgress | internal/controller/cluster/cluster_reshard.go:51-160 | from pass to pass the number of correct slots grows by exactly the slots moved, also when a command failed part way |
| ReshardRuns.RoomForMove | internal/controller/cluster/cluster_reshard.go:100-158 | what a pass moves was misplaced when it was planned |
| ReshardRuns.ReshardConverges | internal/controller/cluster/cluster_reshard.go:51-160 | at every point of a run without doomed owners the count is that at the start plus the slots moved; the whole run moves at most as many slots as were misplaced at the start, and at most that many of its passes move anything |
| ReshardRuns.MovesOrDone | internal/controller/cluster/cluster_reshard.go:34-162 | a pass over a healthy cluster without doomed owners, with every desired pod reachable and enough owners and free masters for the shards, moves something unless it is done |
| ReshardRuns.ReshardCompletes | internal/controller/cluster/cluster_reshard.go:34-163 | a run of such passes, whose commands move something, reports completion with every slot correct, at the latest after as many passes as there were misplaced slots |
| ReshardRuns.DoneMeansAllCorrect | internal/controller/cluster/cluster_reshard.go:100-162 | a pass that reaches every primary completes exactly when all slots are correct |
| ReshardRuns.PassKeepsSurvivors | internal/controller/cluster/cluster_reshard.go:100-158 | a pass over a cluster without doomed owners does not create one |
| StalledHandover.EveryPlanHandsOver | internal/controller/cluster/cluster_layout.go:190-216 | in the concrete cluster every plan has the doomed pod 3 in shard 0 and pod 0 as its heir |
| StalledHandover.PassMigratesSlotZero | internal/controller/cluster/cluster_reshard.go:126-158 | the pass sends slot 0 from pod 1 to pod 0 |
| StalledHandover.PassGainsNothing | internal/controller/cluster/cluster_reshard.go:135-158 | and whatever is planned next, no slot more is correct |
| StalledHandover.StalledForever | internal/controller/cluster/cluster_reshard.go:51-78 | in every run that goes on from there every pass stops and no slot moves |
| Stall.NoHeirLeft | internal/controller/cluster/cluster_layout.go:206-216 | when every survivor owns slots and a doomed pod claims a shard, every plan has a shard without a primary |
| Stall.StuckForever | internal/controller/cluster/cluster_reshard.go:51-78 | in every run from such a cluster every pass stops and no slot ever moves |
| ScaleDown.DeleteSurplus | internal/controller/cluster/pods.go:85-101 | only the highest ordinals are removed, never the current primary and never an ordinal below the desired count; all of them, unless a deletion is refused, which is then the last |
| ScaleDown.DoneMeansSurvivorsOwnAll | internal/controller/cluster/cluster_reshard.go:100-162 | after a completed scan every slot is owned by a surviving pod |
| ScaleDown.GuardsAreExact | internal/controller/cluster/cluster_reshard.go:34-78 | a pass that lets the reconciler go on has completed its scan, if and only if there are enough statuses, the cluster is healthy, and there is a status to spare or no plan has a primary that cannot be reached |
| ScaleDown.ScaleDownIsSafe | internal/controller/cluster/reconciler.go:154-161 | pods removed after a guarded pass that lets through own no slot, and all slots are owned by pods that stay |
| Reconciler.DerivedHealth | internal/controller/cluster/status.go:119-126 | what is derived as the health of the cluster depends only on the statuses: all states fine and all slots covered by named pods |
| Reconciler.CheckReachability | internal/controller/cluster/status.go:319-332 | asks for another round exactly when enough pods were polled and too few of them answered |
| Reconciler.ReachableIsGuarded | internal/controller/cluster/cluster_reshard.go:34-78 | when every desired pod can be reached, the guards of the pass come down to the health of the cluster |
| Reconciler.PathIsExact | internal/controller/cluster/reconciler.go:144-183 | a reconcile that gets to the pods has completed its scan, if and only if every desired pod can be reached, or the guards of the pass hold, or too few pods answer for it to get there |
| Reconciler.PathIsSafe | internal/controller/cluster/reconciler.go:144-183 | when every desired pod can be reached or the guards hold, no pod removed owns a slot, and every slot is owned by a pod that stays |
| Reconciler.ReconcileCluster | internal/controller/cluster/reconciler.go:130-211 | the steps from the statuses to the removal of pods: it reshards if and only if bootstrap is ready, gets to the pods if and only if the pass lets it go on and enough pods answer, and then removes the whole surplus unless a deletion is refused; safe as above |
| EarlyExits.TooFewStatuses | internal/controller/cluster/cluster_reshard.go:34-37 | polled statuses for which bootstrap and the pass give way for lack of statuses, the reconcile gets to the pods, and the pod removed owns a slot |
| EarlyExits.NotHealthy | internal/controller/cluster/cluster_reshard.go:38-40 | the same where one pod does not answer and another reports the state "fail" |
| EarlyExits.PrimaryUnreached | internal/controller/cluster/cluster_reshard.go:53-78 | the same for a healthy cluster in which the primary of a shard, in every plan, cannot be reached |
| Coverage.CalculateSlotCoverage | internal/controller/cluster/cluster_bootstrap.go:187-208 | exactly the slots some polled pod serves are marked |
| Coverage.CalculateUncoveredSlotRanges | internal/controller/cluster/cluster_bootstrap.go:210-238 | the uncovered runs are sorted, disjoint, maximal and complete within the target |
| Coverage.AppendRun | internal/controller/cluster/cluster_bootstrap.go:230-234 | appending a maximal run keeps the list sorted, separated and complete |
| Bootstrap.CoverageMarksOwners | internal/controller/cluster/cluster_bootstrap.go:187-208 | the marks agree with the true owners when the statuses report them |
| Bootstrap.AssignUncoveredSlots | internal/controller/cluster/cluster_bootstrap.go:90-123 | owned slots stay, uncovered ones go once each to the primary of their shard, a completed pass leaves all slots owned; it is blocked only by a shard without a primary, fails exactly when one command was refused, and sends none if every slot is owned |
| Bootstrap.FollowPrimaries | internal/controller/cluster/cluster_bootstrap.go:125-158 | after a completed pass every desired pod that leads nothing, owns no slots and is bound for a shard not being handed over is a replica of that shard's primary, or one that named nobody before; nothing else has changed; it fails exactly on an error, is blocked only by a conflict or a primary without a node ID, and does nothing if everybody is in line |
| Bootstrap.ReconcileClusterBootstrap | internal/controller/cluster/cluster_bootstrap.go:35-165 | the whole pass: not ready while a handover is pending; ready without doing anything when a desired pod cannot be reached; otherwise it introduces the desired pods in order, and is ready if and only if none was refused, all slots are owned, every shard has a primary, every follower is in line and the cluster is healthy |
| Bootstrap.BootstrapExecutesMoves | internal/controller/cluster/cluster_bootstrap.go:125-158 | over settled shards a completed pass executes the planned moves |
| Bootstrap.BootstrapSettlesReplicas | internal/controller/cluster/cluster_bootstrap.go:125-158 | after it the next plan has nothing left to move |
| MigrateRange.MigrateKeys | internal/instance-manager/webserver/server.go:839-842 | keys go only while their slot is importing at the target and migrating at the source; all of the batch on success; on failure some may stay or be on both, and the target refuses keys it has |
| MigrateRange.DrainSlot | internal/instance-manager/webserver/server.go:830-843 | the batch loop ends, loses no key, touches one slot, sends only nonempty batches of it within the batch size, leaves keys on both nodes there, and empties the slot on success |
| MigrateRange.MigrateSlot | internal/instance-manager/webserver/server.go:820-853 | one slot is handed over on success and nothing else is touched; its commands are the announcements at target and source, the batches, and the assignments at source and target, in that order up to the first refused |
| MigrateRange.HandleClusterMigrateRange | internal/instance-manager/webserver/server.go:772-857 | whatever fails, both nodes together keep the same keys and values; slots before the failing one are handed over and others untouched; success hands over the range, and is impossible if a key of it was on both nodes; the commands go slot by slot, all of each finished slot's in order, and a good request fails exactly when one was refused |
| Fencing.Cut | api/v1/handover.go:13-16 | the text before and after the first slash |
| Fencing.MarkerRoundTrip | api/v1/handover.go:9-18 | a marker is read back for exactly the pairs of distinct nonempty names without a slash, and the empty pair |
| Fencing.MarkerIsCanonical | api/v1/handover.go:9-18 | a marker that is accepted is the marker of the pair it names |
| Fencing.ReadersAgree | internal/instance-manager/reconciler/reconciler.go:145-160 | the three readers of the fence list agree on every value, except for the empty name at the probe |
| Fencing.TwoLevels | internal/instance-manager/reconciler/reconciler.go:552-555 | a fenced pod is never ready, and keeps running exactly when a well-formed marker names it as the owner |
| Handover.BeginThenFinish | internal/controller/cluster/cluster_handover.go:16-59 | begin followed by finish restores the fence list |
| Handover.FenceSurvivesStep | internal/controller/cluster/fencing.go:18-96 | a fence stays unless it is cleared by name, ends with its handover, or is overwritten from a copy without it |
| Handover.UnlockedWriteKeepsFence | internal/controller/cluster/fencing.go:79-96 | exactly when an unlocked write keeps a fence |
| Handover.StaleClearLosesFence | internal/controller/cluster/fencing.go:46-63 | clearing one fence from an old copy can drop another pod's |
| Handover.ListAfter | internal/controller/cluster/fencing.go:79-96 | the fence list in force after any write is the one it carried, or the one before |
| Handover.MarkerAfter | internal/controller/cluster/cluster_handover.go:16-59 | the marker after any write is that of the handover it began, none if it ended one, or the one before |
| FenceRuns.HardFenceSurvivesRun | internal/controller/cluster/fencing.go:18-63 | a hard fence survives every run of handovers and other fences until it is cleared by name or its list is overwritten from a copy without it |
| FenceRuns.SoftAfter | internal/controller/cluster/cluster_handover.go:16-59 | a pod is named as owner after a write exactly when the write began its handover, or it was named before and the write ended none |
| FenceRuns.SetFenceExactly | internal/controller/cluster/fencing.go:18-43 | from a copy of any age and with any writes between its two, setting a fence stops the pod if and only if no handover from it is left standing, begun since the copy was taken, and the fence is still there in case the copy had it already |
| FenceRuns.SetFenceIsHard | internal/controller/cluster/fencing.go:18-43 | from the current version it stops the pod unless a handover of it is begun or its fence lifted in between |
| FenceRuns.OldCopySoftensFence | internal/controller/cluster/fencing.go:22-40 | a handover begun after the copy was taken leaves the pod running |
| FenceRuns.HandoverBetweenSoftensFence | internal/controller/cluster/fencing.go:22-40 | so does one begun between the two writes |
| Handover.ResumeClusterHandover | internal/controller/cluster/cluster_handover.go:61-99 | exactly when a look promotes, concludes or rejects the marker |
| PromotionRuns.BegunIsInForce | internal/controller/cluster/cluster_handover.go:16-39 | a handover begun between two good names is in force at once: the marker names the pair, the owner is fenced and the heir is not |
| PromotionRuns.LookExactly | internal/controller/cluster/cluster_handover.go:61-99 | a look at a handover in force requests the promotion if and only if the owner is an unready connected master and the heir follows it over a link that is up and has an address; it ends the handover, lifting the fence of the owner alone, if and only if the two have swapped or one is gone |
| PromotionRuns.ForceAfter | internal/controller/cluster/cluster_handover.go:61-99 | a handover in force stays so after a write exactly when the write does not end it, leave the owner out of the fence list or put the heir on it |
| PromotionRuns.ForceExactly | internal/controller/cluster/cluster_handover.go:61-99 | the same over any stretch of versions |
| PromotionRuns.ForceAtTheEnd | internal/controller/cluster/cluster_handover.go:61-99 | a handover is in force at the end of a run of writes if and only if the last write to begin or end it began it, the owner was left on the fence list and the heir was not |
| PromotionRuns.EveryPromotionIsJustified | internal/controller/cluster/cluster_handover.go:61-99 | in every run each promotion request had a version in force naming the pair, with the owner fenced, unready and a connected master, and the heir unfenced, with an address, and following over a link that is up; the handover was in force at the request if and only if it stands after the writes in between, and all the way there if and only if none disturbed it |
| PromotionRuns.UndisturbedRequestIsInForce | internal/controller/cluster/cluster_handover.go:61-99 | a request from the current version, or one no write interfered with, finds the handover in force |
| PromotionRuns.EscalationOvertakesRequest | internal/controller/cluster/cluster_handover.go:61-99 | a run in which the promotion is requested after the owner's fence was made a hard one |
| PromotionRuns.MarkerEndsForAReason | internal/controller/cluster/cluster_handover.go:75-86 | a marker goes away only when the handover is pointless or complete, or when a fence is escalated |
| Handover.Operator.BeginClusterHandover | internal/controller/cluster/cluster_handover.go:16-39 | commits marker and fence together, only from the current version and an admissible pair; the readers then see the pair, and the owner added to the fences; it fails only when refused or not admissible |
| Handover.Operator.FinishClusterHandover | internal/controller/cluster/cluster_handover.go:41-59 | removes the owner's fence and the marker together, only from the current version, and nobody else's fence; fails only when refused |
| Handover.Operator.SetFence | internal/controller/cluster/fencing.go:18-43 | escalates a planned fence first, then adds the pod to the list; from the current version the pod is then stopped, and nothing else has changed; fails only when refused |
| Handover.Operator.ClearFence | internal/controller/cluster/fencing.go:46-63 | writes the list without the pod; from the current version exactly that fence is gone; fails only when refused |
| Failover.SelectFailoverCandidate | internal/controller/cluster/fencing.go:161-179 | for any map order, a connected replica with maximal offset, or none |
| Failover.Standalone.Replace | internal/controller/cluster/fencing.go:99-158 | in every view of the run the old primary is fenced from before the promotion is requested until status and leader have moved; at most one promotion is requested; completion lifts exactly its fence; after a failure it is fenced, unless nothing happened at all; it fails only because a command was refused, nobody is eligible, or an insisted-on candidate is unreachable |
| Failover.Standalone.FailOver | internal/controller/cluster/fencing.go:99-158 | a completed failover has requested the candidate's promotion exactly when its pod was reachable |
| Failover.Standalone.SwitchOver | internal/controller/cluster/rolling_update.go:338-395 | a completed switchover has requested the promotion of a reachable candidate |
| RollingUpdate.Decide | internal/controller/cluster/rolling_update.go:22-101 | the highest stale replica first; the primary only when no replica is stale and it is approved if supervised |
| RollingUpdate.PassReducesWork | internal/controller/cluster/rolling_update.go:22-101 | every pass that took effect reduces the work left, and the primary is replaced only when nothing else is stale |
| RollingUpdate.RolloutEnds | internal/controller/cluster/rolling_update.go:22-101 | with a fixed hash at most one acting pass per stale pod and one more; with any hashes the primary is last |
| RollingUpdate.ReplicasDescend | internal/controller/cluster/rolling_update.go:34-61 | with a fixed hash, replicas are replaced from the highest ordinal down as long as the primary stays |
| RollingUpdate.RolloutCompletes | internal/controller/cluster/rolling_update.go:22-101 | with a fixed hash, when commands take effect and no approval is awaited, nothing is stale after one pass per stale pod and one more, and the pass reports completion |
| RollingUpdate.ApprovalAccount | internal/controller/cluster/rolling_update.go:63-95 | over every run, with hashes changing and commands failing: replacements of the primary, withdrawn approvals and the one still there add up to approvals given and clearings that failed |
| RollingUpdate.EachReplacementIsApproved | internal/controller/cluster/rolling_update.go:63-95 | the primary is replaced at most as often as it was approved and clearing failed |
| RollingUpdate.ApprovalUsedTwice | internal/controller/cluster/rolling_update.go:76-81 | a run with one approval, one failed clearing and two replacements |
| Status.OneLeader | internal/controller/cluster/status.go:206-212 | no shard has two pods reported as its primary |
| Status.CountCovered | internal/controller/cluster/status.go:227-232 | counts the marked slots |
| Status.DeriveClusterStatus | internal/controller/cluster/status.go:172-239 | for any map order each polled pod of the layout is entered in its shard with the latest epoch, replicas come by name, the state is "ok" unless a pod reports another one, and the assigned slots are those some such pod serves |
| Names.SortByNameProperties | internal/controller/cluster/status.go:233-236 | sorting by name puts the pods in textual order and keeps them |
| Status.EachPodReportedOnce | internal/controller/cluster/status.go:198-212 | each polled pod appears exactly once; the slot owner is the primary while its shard is handing over, and the planned primary otherwise |

## Left out

- Convergence while doomed owners remain: each move is accounted for exactly, but runs are shown to complete only once no doomed pod owns slots, since before that they need not.
- Handovers of doomed owners followed to their end: a promotion changes the slot owners outside these passes.
- Bootstrap.ReconcileClusterBootstrap: does not model what CLUSTER MEET does; resuming a pending handover is `Handover.ResumeClusterHandover`.
- Reconciler.ReconcileCluster: cluster mode outside maintenance and hibernation; the statuses are taken to describe the cluster the commands are sent to.
- Bootstrap.FollowPrimaries: does not model what Redis checks before a node may replicate another.
- Reshard.ReconcileClusterReshard: does not model the replies to its requests; `ReshardRuns` allows any part of a segment to have moved.
- MigrateRange.HandleClusterMigrateRange: does not model clients writing during the migration, nor who claims a slot between the two assignments.
- ScaleDown.DeleteSurplus: does not model the creation of missing pods before the deletion.
- RollingUpdate.Decide: covers standalone mode; the cluster-mode update and restarts for volume resizing are left out.
- Failover.Standalone.Replace: keeps the fence list as a set; its encoding and concurrent writers are in `Handover` and `FenceRuns`.
- FenceRuns.SetFenceExactly: for pods with a name; no pod has the empty one.
- Integer width: slots, counts and ordinals are unbounded; overflow of the 32-bit pod count is not modelled.
- Kubernetes objects, services, volumes, TLS, backups, restore, metrics, webhooks, sentinel mode and the command line: no topology decision.
