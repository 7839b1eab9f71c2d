/** One resharding pass: read who owns each slot, find the first slot its shard's primary does not
    own, and issue one command for the segment it starts. */
module Reshard {
  import opened Types
  import opened Slots
  import opened Layout
  import opened ReplicaMoves
  import opened Planner

  /** What a pass does. The flag of `Stop` says whether the caller may go on to the pods. */
  datatype Action =
    | Stop(ready: bool)
    | Done
    | AddSlots(to: Pod, lo: int, hi: int)
    | Migrate(from: Pod, to: Pod, lo: int, hi: int)
    | Attach(heir: Pod, owner: Pod)
    | AwaitLink(heir: Pod, owner: Pod)
    | BeginHandover(owner: Pod, heir: Pod)

  function Clamped(r: SlotRange): SlotRange {
    SlotRange(if r.start < 0 then 0 else r.start, if r.end > SLOTS - 1 then SLOTS - 1 else r.end)
  }

  /** Each entry names a pod that serves the slot, and is empty only if nobody does. */
  ghost predicate OwnerTable(statuses: Statuses, table: seq<Option<Pod>>) {
    && |table| == SLOTS
    && (forall x :: 0 <= x < SLOTS && table[x].Some? ==>
          table[x].value in statuses && Serves(statuses[table[x].value], x))
    && (forall x, p :: 0 <= x < SLOTS && p in statuses && Serves(statuses[p], x) ==> table[x].Some?)
  }

  /** Write one pod's ranges into the table. */
  method RecordOwner(pod: Pod, served: seq<SlotRange>, table: array<Option<Pod>>)
    requires table.Length == SLOTS
    modifies table
    ensures forall x :: 0 <= x < SLOTS ==>
              table[x] == if exists k :: 0 <= k < |served| && served[k].Contains(x) then Some(pod) else old(table[x])
  {
    for k := 0 to |served|
      invariant forall x :: 0 <= x < SLOTS ==>
                  table[x] == if exists j :: 0 <= j < k && served[j].Contains(x) then Some(pod) else old(table[x])
    {
      var r := Clamped(served[k]);
      var slot := r.start;
      while slot <= r.end
        invariant if r.start <= r.end then r.start <= slot <= r.end + 1 else slot == r.start
        invariant forall x :: 0 <= x < SLOTS ==>
                    table[x] == if (exists j :: 0 <= j < k && served[j].Contains(x))
                      || r.start <= x < slot then Some(pod) else old(table[x])
      {
        table[slot] := Some(pod);
        slot := slot + 1;
      }
      assert forall x :: 0 <= x < SLOTS ==> (r.start <= x < slot <==> served[k].Contains(x));
    }
  }

  /** Walk the statuses in any order. */
  method BuildOwnerTable(statuses: Statuses) returns (table: array<Option<Pod>>)
    ensures fresh(table) && OwnerTable(statuses, table[..])
  {
    table := new Option<Pod>[SLOTS](_ => None);
    var rest := statuses.Keys;
    while rest != {}
      invariant rest <= statuses.Keys
      invariant forall x :: 0 <= x < SLOTS && table[x].Some? ==>
                  table[x].value in statuses && Serves(statuses[table[x].value], x)
      invariant forall x, p :: 0 <= x < SLOTS && p in statuses.Keys - rest && Serves(statuses[p], x) ==> table[x].Some?
      decreases rest
    {
      var pod :| pod in rest;
      RecordOwner(pod, statuses[pod].slotsServed, table);
      rest := rest - {pod};
    }
  }

  /** The slot is owned by the primary of its shard. */
  ghost predicate InPlace(n: nat, l: ShardLayout, table: seq<Option<Pod>>, x: int)
    requires n > 0 && |table| == SLOTS
  {
    0 <= x < SLOTS && var s := ShardOfSlot(n, x); s in l.primaryOf && table[x] == Some(l.primaryOf[s])
  }

  /** A maximal run of one owner within the range of `shard`, with everything before it in place. */
  ghost predicate FirstSegment(n: nat, l: ShardLayout, table: seq<Option<Pod>>, shard: nat, owner: Option<Pod>,
                               lo: int, hi: int)
    requires n > 0 && |table| == SLOTS
  {
    && shard < n && shard in l.primaryOf && owner != Some(l.primaryOf[shard])
    && 0 <= RangeOf(n, shard).start <= lo <= hi <= RangeOf(n, shard).end < SLOTS
    && (forall x :: lo <= x <= hi ==> table[x] == owner)
    && (hi < RangeOf(n, shard).end ==> table[hi + 1] != owner)
    && (forall x :: 0 <= x < lo ==> InPlace(n, l, table, x))
  }

  /** What the pass may do about the first segment that is out of place. */
  ghost predicate Decides(input: Input, l: ShardLayout, shard: nat, owner: Option<Pod>, lo: int, hi: int,
                          action: Action)
    requires shard in l.primaryOf
  {
    var to := l.primaryOf[shard];
    match owner
    case None => action == AddSlots(to, lo, hi)
    case Some(from) =>
      if from !in input.statuses || input.statuses[from].nodeID == "" || from !in input.pods
        || !input.pods[from].hasIP then
        action == Stop(false)
      else if from >= input.desired && |StatusOf(input.statuses, to).slotsServed| == 0 then
        action == HandOver(from, input.statuses[from], to, StatusOf(input.statuses, to))
      else
        action == Migrate(from, to, lo, hi)
  }

  /** A doomed owner gives its whole shard to its heir: attach the heir, wait for the link, then begin. */
  function HandOver(owner: Pod, ownerStatus: InstanceStatus, heir: Pod, heirStatus: InstanceStatus): Action {
    if heirStatus.role != Slave || heirStatus.primaryNodeID != ownerStatus.nodeID then Attach(heir, owner)
    else if !heirStatus.linkUp then AwaitLink(heir, owner)
    else BeginHandover(owner, heir)
  }

  predicate Unreachable(input: Input, p: Pod) {
    !input.Reachable(p)
  }

  /** A missing primary stops the pass; so does an unreachable one, and then a scale-down has to wait. */
  ghost function Blocked(input: Input, l: ShardLayout): Option<Action> {
    if exists s :: 0 <= s < input.n && s !in l.primaryOf then Some(Stop(false))
    else if exists s :: 0 <= s < input.n && Unreachable(input, l.primaryOf[s]) then
      Some(Stop(|input.statuses| <= input.desired))
    else None
  }

  /** What a pass that got as far as planning may do. */
  ghost predicate Outcome(input: Input, l: ShardLayout, table: seq<Option<Pod>>, action: Action)
    requires input.n > 0 && |table| == SLOTS
  {
    if Blocked(input, l).Some? then action == Blocked(input, l).value
    else if PlacedBelow(input.n, l, table, SLOTS) then action == Done
    else Acts(input, l, table, action)
  }

  ghost predicate PassOutcome(input: Input, action: Action)
    requires input.Valid()
  {
    exists l, table :: PlanResult(input, l) && OwnerTable(input.statuses, table) && Outcome(input, l, table, action)
  }

  /** What a pass may come to: it gives way before planning, or it plans and does what follows from that. */
  ghost predicate Reconciled(input: Input, healthy: bool, action: Action)
    requires input.Valid()
  {
    if |input.statuses| < input.desired || !healthy then action == Stop(true) else PassOutcome(input, action)
  }

  /** Everything below a slot is in place. */
  ghost predicate PlacedBelow(n: nat, l: ShardLayout, table: seq<Option<Pod>>, slot: int)
    requires n > 0 && |table| == SLOTS
  {
    forall x :: 0 <= x < slot ==> InPlace(n, l, table, x)
  }

  /** Walk the runs of one shard's range up to the first that is out of place. */
  method ScanShard(n: nat, builder: LayoutBuilder, table: array<Option<Pod>>, shard: nat, r: SlotRange)
    returns (found: bool, owner: Option<Pod>, lo: int, hi: int)
    requires shard < n && table.Length == SLOTS && shard in builder.primaryOf
    requires r == RangeOf(n, shard) && 0 <= r.start <= r.end + 1 <= SLOTS
    requires PlacedBelow(n, builder.View(), table[..], r.start)
    ensures !found ==> PlacedBelow(n, builder.View(), table[..], r.end + 1)
    ensures found ==>
              FirstSegment(n, builder.View(), table[..], shard, owner, lo, hi)
              && !InPlace(n, builder.View(), table[..], lo)
  {
    hide RangeStart, ShardOfSlot;
    ghost var l, t := builder.View(), table[..];
    var target := builder.primaryOf[shard];
    var slot := r.start;
    while slot <= r.end
      invariant r.start <= slot <= r.end + 1
      invariant PlacedBelow(n, l, t, slot)
    {
      owner := table[slot];
      var start := slot;
      while slot <= r.end && table[slot] == owner
        invariant start <= slot <= r.end + 1
        invariant forall x :: start <= x < slot ==> table[x] == owner
      {
        slot := slot + 1;
      }
      if owner == Some(target) {
        forall x | start <= x < slot ensures InPlace(n, l, t, x) { RangesPartition(n, x, shard); }
        continue;
      }
      RangesPartition(n, start, shard);
      return true, owner, start, slot - 1;
    }
    found, owner, lo, hi := false, None, 0, 0;
  }

  /** Some segment is the first out of place, and this is what to do about it. */
  ghost predicate Acts(input: Input, l: ShardLayout, table: seq<Option<Pod>>, action: Action)
    requires input.n > 0 && |table| == SLOTS
  {
    exists shard, owner, lo, hi ::
      FirstSegment(input.n, l, table, shard, owner, lo, hi) && Decides(input, l, shard, owner, lo, hi, action)
  }

  /** Scan the ranges in order. */
  method Scan(input: Input, builder: LayoutBuilder, table: array<Option<Pod>>,
              ranges: seq<SlotRange>) returns (action: Action)
    requires input.n > 0 && table.Length == SLOTS && |ranges| == input.n
    requires forall s :: 0 <= s < input.n ==> ranges[s] == RangeOf(input.n, s) && s in builder.primaryOf
    ensures PlacedBelow(input.n, builder.View(), table[..], SLOTS) <==> action == Done
    ensures action != Done ==> Acts(input, builder.View(), table[..], action)
  {
    ghost var l, t := builder.View(), table[..];
    RangeEnds(input.n);
    hide RangeStart, InPlace, FirstSegment, Decides;
    for shard := 0 to input.n
      invariant PlacedBelow(input.n, l, t, RangeStart(input.n, shard))
    {
      RangesBalanced(input.n, shard, shard);
      RangeMonotone(input.n, shard + 1, input.n);
      var found, owner, lo, hi := ScanShard(input.n, builder, table, shard, ranges[shard]);
      if found {
        assert 0 <= lo < SLOTS by { SegmentBounds(input.n, l, t, shard, owner, lo, hi); }
        action := Decide(input, builder, shard, owner, lo, hi);
        return;
      }
    }
    action := Done;
  }

  lemma SegmentBounds(n: nat, l: ShardLayout, table: seq<Option<Pod>>, shard: nat, owner: Option<Pod>, lo: int, hi: int)
    requires n > 0 && |table| == SLOTS && FirstSegment(n, l, table, shard, owner, lo, hi)
    ensures 0 <= lo <= hi < SLOTS && shard in l.primaryOf
  {
  }

  /** The command for one segment. */
  method Decide(input: Input, builder: LayoutBuilder, shard: nat, owner: Option<Pod>, lo: int,
                hi: int) returns (action: Action)
    requires shard in builder.primaryOf
    ensures Decides(input, builder.View(), shard, owner, lo, hi, action) && action != Done
  {
    var to := builder.primaryOf[shard];
    if owner.None? {
      return AddSlots(to, lo, hi);
    }
    var from := owner.value;
    if from !in input.statuses || input.statuses[from].nodeID == "" {
      return Stop(false);
    }
    if from !in input.pods || !input.pods[from].hasIP {
      return Stop(false);
    }
    if from >= input.desired && |StatusOf(input.statuses, to).slotsServed| == 0 {
      return HandOver(from, input.statuses[from], to, StatusOf(input.statuses, to));
    }
    return Migrate(from, to, lo, hi);
  }

  method CheckPrimaries(input: Input, builder: LayoutBuilder) returns (blocked: Option<Action>)
    ensures blocked == Blocked(input, builder.View())
    ensures blocked.None? ==> forall s :: 0 <= s < input.n ==> s in builder.primaryOf
  {
    for shard := 0 to input.n
      invariant forall s :: 0 <= s < shard ==> s in builder.primaryOf
    {
      if shard !in builder.primaryOf {
        return Some(Stop(false));
      }
    }
    for shard := 0 to input.n
      invariant forall s :: 0 <= s < shard ==> !Unreachable(input, builder.primaryOf[s])
    {
      if Unreachable(input, builder.primaryOf[shard]) {
        return Some(Stop(|input.statuses| <= input.desired));
      }
    }
    blocked := None;
  }

  /** One pass of the resharding loop. `healthy` says that the cluster reports itself healthy with all slots
      assigned. */
  method ReconcileClusterReshard(spec: Spec, pods: map<Pod, PodMeta>, statuses: Statuses,
                                 healthy: bool) returns (action: Action)
    ensures Reconciled(InputOf(spec, pods, statuses), healthy, action)
  {
    var input := InputOf(spec, pods, statuses);
    if |input.statuses| < input.desired {
      return Stop(true);
    }
    if !healthy {
      return Stop(true);
    }
    hide PlanResult, OwnerTable, PlacedBelow, Acts, RangeStart, Blocked;
    var builder := PlanShardLayout(input);
    var table := BuildOwnerTable(input.statuses);
    assert OwnerTable(input.statuses, table[..]) && |table[..]| == SLOTS by { TableLength(input.statuses, table[..]); }
    var blocked := CheckPrimaries(input, builder);
    if blocked.Some? {
      action := blocked.value;
    } else {
      var ranges := CalculateClusterSlotRanges(input.n);
      action := Scan(input, builder, table, ranges);
    }
    assert Outcome(input, builder.View(), table[..], action);
  }

  lemma TableLength(statuses: Statuses, table: seq<Option<Pod>>)
    requires OwnerTable(statuses, table)
    ensures |table| == SLOTS
  {
  }
}
