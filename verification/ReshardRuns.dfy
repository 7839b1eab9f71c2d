/** Whole runs of resharding passes: every pass plans from what it observes, acts on at most one
    segment, and may fail part way through it. */
module ReshardRuns {
  import opened Types
  import opened Slots
  import opened Counting
  import opened Matching
  import opened Layout
  import opened PlanFacts
  import opened ReplicaMoves
  import opened Ownership
  import opened Convergence
  import opened Reshard
  import opened Claims
  import opened Leaders

  /** The membership a plan was made from, without the replica moves. */
  function Membership(l: ShardLayout): ShardLayout {
    l.(replicaMoves := map[])
  }

  lemma ResultIsPlanned(input: Input, l: ShardLayout)
    requires input.Valid() && PlanResult(input, l)
    ensures Planned(input, Membership(l))
  {
  }

  /** A pass, the layout it planned, what it did, and how many slots of its segment were moved. */
  datatype Pass = Pass(input: Input, layout: ShardLayout, action: Action, moved: nat)

  function SegmentSize(action: Action): int {
    match action
    case AddSlots(_, lo, hi) => hi - lo + 1
    case Migrate(_, _, lo, hi) => hi - lo + 1
    case _ => 0
  }

  /** The owners once the first `moved` slots of the segment have changed hands. */
  function OwnersAfter(own: Owner, action: Action, moved: nat): Owner {
    match action
    case AddSlots(to, lo, _) => Reassigned(own, lo, lo + moved - 1, to)
    case Migrate(_, to, lo, _) => Reassigned(own, lo, lo + moved - 1, to)
    case _ => own
  }

  /** The pass observed these owners, planned this layout, and its action is one the code can take;
      a command that failed may have moved part of the segment or none of it. */
  ghost predicate IsPass(n: nat, desired: nat, own: Owner, pass: Pass) {
    && pass.input.Valid() && pass.input.n == n && pass.input.desired == desired
    && Observes(pass.input, own)
    && PlanResult(pass.input, pass.layout)
    && (pass.action == Stop(true) || exists table ::
          OwnerTable(pass.input.statuses, table) && Outcome(pass.input, pass.layout, table, pass.action))
    && pass.moved <= SegmentSize(pass.action)
  }

  /** Each pass starts from the owners the one before left behind. */
  ghost predicate IsRun(n: nat, desired: nat, owns: seq<Owner>, passes: seq<Pass>) {
    && |owns| == |passes|
    && (forall k :: 0 <= k < |passes| ==> IsPass(n, desired, owns[k], passes[k]))
    && (forall k :: 0 < k < |passes| ==> owns[k] == OwnersAfter(owns[k - 1], passes[k - 1].action, passes[k - 1].moved))
  }

  ghost predicate NoDoomedOwner(desired: nat, own: Owner) {
    forall x :: x in own ==> own[x] < desired
  }

  // ---------------------------------------------------------------- one pass

  lemma TableIsOwnership(input: Input, own: Owner, table: seq<Option<Pod>>, x: int)
    requires Observes(input, own) && OwnerTable(input.statuses, table) && 0 <= x < SLOTS
    ensures forall p: Pod :: table[x] == Some(p) <==> Owns(own, p, x)
    ensures table[x] == None <==> x !in own
  {
    if x in own {
      assert Owns(own, own[x], x);
      assert Serves(StatusOf(input.statuses, own[x]), x);
    }
    if table[x].Some? {
      assert Serves(StatusOf(input.statuses, table[x].value), x);
    }
  }

  /** Without doomed owners no shard is handing over. */
  lemma NobodyHandsOver(input: Input, own: Owner, l: ShardLayout)
    requires input.Valid() && Planned(input, l) && Observes(input, own) && NoDoomedOwner(input.desired, own)
    ensures forall s :: !l.HandingOver(s)
  {
    hide Planned;
    PlanIsWellFormed(input, l);
    forall s | s in l.ownerOf ensures l.ownerOf[s] < input.desired {
      var p := l.ownerOf[s];
      OwnerOfIsOwner(input, l, s);
      OwnerServes(input, own, p);
      var x :| Owns(own, p, x);
    }
  }

  lemma OwnerOfIsOwner(input: Input, l: ShardLayout, s: nat)
    requires input.Valid() && Planned(input, l) && s in l.ownerOf
    ensures IsOwner(input, l.ownerOf[s]) && l.Placed(l.ownerOf[s], s)
  {
    var ch :| PlannedWith(input, ch, l);
    FinalFacts(input, ch, l);
    OwnersAre(input, ch);
  }

  /** The segment a pass acts on: slots of one shard, none of them at its primary. */
  ghost predicate ActsOn(n: nat, own: Owner, l: ShardLayout, action: Action, shard: nat, lo: int, hi: int, to: Pod)
    requires n > 0
  {
    && Segment(n, shard, lo, hi) && shard in l.primaryOf && l.primaryOf[shard] == to
    && (forall x :: lo <= x <= hi ==> !Owns(own, to, x))
    && (action == AddSlots(to, lo, hi) || exists from :: action == Migrate(from, to, lo, hi))
  }

  lemma PassActsOn(n: nat, desired: nat, own: Owner, pass: Pass) returns (shard: nat, lo: int, hi: int, to: Pod)
    requires IsPass(n, desired, own, pass) && SegmentSize(pass.action) > 0
    ensures ActsOn(n, own, pass.layout, pass.action, shard, lo, hi, to)
  {
    hide Observes, PlanResult, PlacedBelow;
    var table :| OwnerTable(pass.input.statuses, table) && Outcome(pass.input, pass.layout, table, pass.action);
    var owner;
    shard, owner, lo, hi :| FirstSegment(n, pass.layout, table, shard, owner, lo, hi)
      && Decides(pass.input, pass.layout, shard, owner, lo, hi, pass.action);
    to := pass.layout.primaryOf[shard];
    forall x | lo <= x <= hi ensures !Owns(own, to, x) {
      TableIsOwnership(pass.input, own, table, x);
    }
  }

  /** Primaries survive, so no pass creates a doomed owner. */
  lemma PassKeepsSurvivors(n: nat, desired: nat, own: Owner, pass: Pass)
    requires IsPass(n, desired, own, pass) && NoDoomedOwner(desired, own)
    ensures NoDoomedOwner(desired, OwnersAfter(own, pass.action, pass.moved))
  {
    hide IsPass, Planned, Observes;
    PassPlanned(n, desired, own, pass);
    if pass.moved > 0 {
      var shard, lo, hi, to := PassActsOn(n, desired, own, pass);
      PlanIsWellFormed(pass.input, Membership(pass.layout));
    }
  }

  lemma PassPlanned(n: nat, desired: nat, own: Owner, pass: Pass)
    requires IsPass(n, desired, own, pass)
    ensures pass.input.Valid() && pass.input.n == n && pass.input.desired == desired
            && pass.moved <= SegmentSize(pass.action)
    ensures Observes(pass.input, own) && Planned(pass.input, Membership(pass.layout))
  {
  }

  /** The count does not depend on which plan was made for the same owners. */
  lemma SameCount(input: Input, own: Owner, l: ShardLayout, input': Input, l': ShardLayout)
    requires input.Valid() && Planned(input, l) && Observes(input, own)
    requires input'.Valid() && Planned(input', l') && Observes(input', own) && input'.n == input.n
             && input'.desired == input.desired
    ensures CorrectCount(own, input.n, l) == CorrectCount(own, input.n, l')
  {
    hide Planned, Observes, Stable;
    var claims := ClaimsBehind(input, own, l);
    var claims' := ClaimsBehind(input', own, l');
    StableIsUnique(OwnMarket(own, input.n), claims, claims');
    forall x | 0 <= x < SLOTS ensures Correct(own, input.n, l, x) == Correct(own, input.n, l', x) {
      if x in own {
        CorrectIsClaimed(input, own, l, claims, x);
        CorrectIsClaimed(input', own, l', claims', x);
      }
    }
    CountSame(x => Correct(own, input.n, l, x), x => Correct(own, input.n, l', x), 0, SLOTS);
  }

  lemma MovesDoNotMatter(own: Owner, n: nat, l: ShardLayout)
    requires n > 0
    ensures CorrectCount(own, n, l) == CorrectCount(own, n, Membership(l))
  {
    hide ShardOfSlot;
    forall x | 0 <= x < SLOTS ensures Correct(own, n, l, x) == Correct(own, n, Membership(l), x) {
      var s := ShardOfSlot(n, x);
      assert x in own ==> l.IsPrimaryOf(own[x], s) == Membership(l).IsPrimaryOf(own[x], s);
    }
    CountSame(x => Correct(own, n, l, x), x => Correct(own, n, Membership(l), x), 0, SLOTS);
  }

  /** From one pass to the next, the number of correct slots grows by exactly what was moved. */
  lemma PassProgress(n: nat, desired: nat, own: Owner, pass: Pass, pass': Pass)
    requires IsPass(n, desired, own, pass) && NoDoomedOwner(desired, own)
    requires IsPass(n, desired, OwnersAfter(own, pass.action, pass.moved), pass')
    ensures CorrectCount(OwnersAfter(own, pass.action, pass.moved), n, pass'.layout) ==
            CorrectCount(own, n, pass.layout) + pass.moved
  {
    hide Planned, Observes, IsPass, CorrectCount, OwnersAfter, ActsOn, Reassigned;
    var own' := OwnersAfter(own, pass.action, pass.moved);
    PassPlanned(n, desired, own, pass);
    PassPlanned(n, desired, own', pass');
    MovesDoNotMatter(own, n, pass.layout);
    MovesDoNotMatter(own', n, pass'.layout);
    if pass.moved == 0 {
      NothingChanges(own, pass.action);
      SameCount(pass.input, own, Membership(pass.layout), pass'.input, Membership(pass'.layout));
    } else {
      var shard, lo, to := PassMoves(n, desired, own, pass);
      NobodyHandsOver(pass.input, own, Membership(pass.layout));
      MigrationProgress(pass.input, own, Membership(pass.layout), shard, lo, lo + pass.moved - 1,
                        pass'.input, Membership(pass'.layout));
    }
  }

  lemma NothingChanges(own: Owner, action: Action)
    ensures OwnersAfter(own, action, 0) == own
  {
  }

  /** What a pass that moves something does to the owners. */
  lemma PassMoves(n: nat, desired: nat, own: Owner, pass: Pass) returns (shard: nat, lo: int, to: Pod)
    requires n > 0 && IsPass(n, desired, own, pass) && pass.moved > 0
    ensures Segment(n, shard, lo, lo + pass.moved - 1) && pass.layout.IsPrimaryOf(to, shard)
    ensures forall x :: lo <= x <= lo + pass.moved - 1 ==> !Owns(own, to, x)
    ensures OwnersAfter(own, pass.action, pass.moved) == Reassigned(own, lo, lo + pass.moved - 1, to)
  {
    hide IsPass, RangeStart;
    assert pass.moved <= SegmentSize(pass.action) by { PassPlanned(n, desired, own, pass); }
    var hi;
    shard, lo, hi, to := PassActsOn(n, desired, own, pass);
  }

  // ---------------------------------------------------------------- what a command may do

  /** The pod leads the shard of every slot of the segment, and survives. */
  ghost predicate MayReceive(input: Input, l: ShardLayout, to: Pod, lo: int, hi: int)
    requires input.Valid()
  {
    && to < input.desired && 0 <= lo <= hi < SLOTS
    && forall x :: lo <= x <= hi ==> l.IsPrimaryOf(to, ShardOfSlot(input.n, x))
  }

  /** A doomed pod that owns slots, and a survivor that owns none and leads a shard. */
  ghost predicate MayHandOver(input: Input, own: Owner, l: ShardLayout, owner: Pod, heir: Pod) {
    && heir < input.desired <= owner
    && (exists x :: Owns(own, owner, x)) && (forall x :: !Owns(own, heir, x))
    && exists s :: l.IsPrimaryOf(heir, s)
  }

  /** The slots of the segment are owned by nobody, or all by one pod. */
  ghost predicate OwnedThroughout(own: Owner, owner: Option<Pod>, lo: int, hi: int) {
    forall x :: lo <= x <= hi ==> if owner.None? then x !in own else Owns(own, owner.value, x)
  }

  /** What each command is good for. */
  ghost predicate Sound(input: Input, own: Owner, l: ShardLayout, action: Action)
    requires input.Valid()
  {
    match action
    case Stop(_) => true
    case Done => true
    case AddSlots(to, lo, hi) =>
      MayReceive(input, l, to, lo, hi) && OwnedThroughout(own, None, lo, hi) && CorrectUpTo(own, input.n, l, lo)
    case Migrate(from, to, lo, hi) =>
      && MayReceive(input, l, to, lo, hi) && OwnedThroughout(own, Some(from), lo, hi)
        && CorrectUpTo(own, input.n, l, lo)
      && from != to && (from >= input.desired ==> exists x :: Owns(own, to, x))
    case Attach(heir, owner) => MayHandOver(input, own, l, owner, heir)
    case AwaitLink(heir, owner) => MayHandOver(input, own, l, owner, heir)
    case BeginHandover(owner, heir) =>
      var status := StatusOf(input.statuses, heir);
      && MayHandOver(input, own, l, owner, heir)
      && status.role == Slave && status.linkUp && status.primaryNodeID == StatusOf(input.statuses, owner).nodeID
  }

  ghost predicate CorrectUpTo(own: Owner, n: nat, l: ShardLayout, slot: int)
    requires n > 0
  {
    forall x :: 0 <= x < slot ==> Correct(own, n, l, x)
  }

  /** Every command is sound: slots go only to the surviving primary of their shard, unowned slots are
      added and owned ones migrated from their owner, a doomed owner's slots are migrated only to a pod
      that owns slots already, and otherwise its whole shard is handed to a survivor without slots, begun
      only once that survivor follows it over a link that is up. Everything before the segment is correct. */
  lemma CommandsAreSound(input: Input, own: Owner, l: ShardLayout, table: seq<Option<Pod>>, action: Action)
    requires input.Valid() && PlanResult(input, l) && Observes(input, own) && OwnerTable(input.statuses, table)
    requires Outcome(input, l, table, action)
    ensures Sound(input, own, l, action)
  {
    hide Observes, PlanResult, OwnerTable, Blocked, PlacedBelow, InPlace, Decides;
    TableLength(input.statuses, table);
    BlockedStops(input, l);
    if !action.Stop? && action != Done {
      hide Sound;
      var shard, owner, lo, hi :| FirstSegment(input.n, l, table, shard, owner, lo, hi)
        && Decides(input, l, shard, owner, lo, hi, action);
      SegmentIsSound(input, own, l, table, shard, owner, lo, hi);
      DecisionIsSound(input, own, l, shard, owner, lo, hi, action);
    }
  }

  lemma DecisionIsSound(input: Input, own: Owner, l: ShardLayout, shard: nat, owner: Option<Pod>, lo: int, hi: int,
                        action: Action)
    requires input.Valid() && lo <= hi && shard in l.primaryOf && owner != Some(l.primaryOf[shard])
             && l.primaryOf[shard] < input.desired
    requires MayReceive(input, l, l.primaryOf[shard], lo, hi) && OwnedThroughout(own, owner, lo, hi)
             && CorrectUpTo(own, input.n, l, lo)
    requires |StatusOf(input.statuses, l.primaryOf[shard]).slotsServed| > 0 <==>
             exists x :: Owns(own, l.primaryOf[shard], x)
    requires Decides(input, l, shard, owner, lo, hi, action)
    ensures Sound(input, own, l, action)
  {
    hide MayReceive, CorrectUpTo;
    assert l.IsPrimaryOf(l.primaryOf[shard], shard);
    if owner.Some? {
      assert Owns(own, owner.value, lo);
      assert OwnedThroughout(own, Some(owner.value), lo, hi);
    }
  }

  lemma BlockedStops(input: Input, l: ShardLayout)
    ensures Blocked(input, l).Some? ==> Blocked(input, l).value.Stop?
  {
  }

  /** The segment lies in its shard, is misplaced, and has one owner, as the table says. */
  lemma SegmentIsSound(input: Input, own: Owner, l: ShardLayout, table: seq<Option<Pod>>, shard: nat,
                       owner: Option<Pod>, lo: int, hi: int)
    requires input.Valid() && PlanResult(input, l) && Observes(input, own) && OwnerTable(input.statuses, table)
             && |table| == SLOTS
    requires FirstSegment(input.n, l, table, shard, owner, lo, hi)
    ensures MayReceive(input, l, l.primaryOf[shard], lo, hi)
    ensures OwnedThroughout(own, owner, lo, hi) && CorrectUpTo(own, input.n, l, lo)
    ensures |StatusOf(input.statuses, l.primaryOf[shard]).slotsServed| > 0 <==>
            exists x :: Owns(own, l.primaryOf[shard], x)
  {
    hide Observes, OwnerTable, Planned;
    PlanIsWellFormed(input, Membership(l));
    assert Membership(l).Placed(l.primaryOf[shard], shard);
    OwnerServes(input, own, l.primaryOf[shard]);
    forall x | lo <= x <= hi
      ensures ShardOfSlot(input.n, x) == shard && (owner.None? ==> x !in own)
              && (owner.Some? ==> Owns(own, owner.value, x))
    {
      RangesPartition(input.n, x, shard);
      TableIsOwnership(input, own, table, x);
    }
    forall x | 0 <= x < lo ensures Correct(own, input.n, l, x) {
      InPlaceIsCorrect(input, own, l, table, x);
    }
  }

  // ---------------------------------------------------------------- whole runs

  /** Slots moved by the first `k` passes. */
  function Moved(passes: seq<Pass>, k: nat): nat
    requires k <= |passes|
  {
    if k == 0 then 0 else Moved(passes, k - 1) + passes[k - 1].moved
  }

  /** How many of the first `k` passes moved anything. */
  function Acting(passes: seq<Pass>, k: nat): nat
    requires k <= |passes|
  {
    if k == 0 then 0 else Acting(passes, k - 1) + if passes[k - 1].moved > 0 then 1 else 0
  }

  lemma {:induction false} ActingIsMoving(passes: seq<Pass>, k: nat)
    requires k <= |passes|
    ensures Acting(passes, k) <= Moved(passes, k)
  {
    if k > 0 { ActingIsMoving(passes, k - 1); }
  }

  lemma {:induction false} RunProgress(n: nat, desired: nat, owns: seq<Owner>, passes: seq<Pass>, k: nat)
    requires n > 0 && IsRun(n, desired, owns, passes) && k < |passes| && NoDoomedOwner(desired, owns[0])
    ensures NoDoomedOwner(desired, owns[k])
    ensures CorrectCount(owns[k], n, passes[k].layout) == CorrectCount(owns[0], n, passes[0].layout) + Moved(passes, k)
  {
    hide IsPass, CorrectCount, NoDoomedOwner;
    if k > 0 {
      RunProgress(n, desired, owns, passes, k - 1);
      assert IsPass(n, desired, owns[k - 1], passes[k - 1]);
      assert owns[k] == OwnersAfter(owns[k - 1], passes[k - 1].action, passes[k - 1].moved);
      PassKeepsSurvivors(n, desired, owns[k - 1], passes[k - 1]);
      PassProgress(n, desired, owns[k - 1], passes[k - 1], passes[k]);
    }
  }

  /** What a pass moves was misplaced when it was planned. */
  lemma RoomForMove(n: nat, desired: nat, own: Owner, pass: Pass)
    requires n > 0 && IsPass(n, desired, own, pass)
    ensures CorrectCount(own, n, pass.layout) + pass.moved <= SLOTS
  {
    hide IsPass, Count, Correct, Planned, Observes, Segment, ActsOn;
    var f := x => Correct(own, n, pass.layout, x);
    CountBound(f, 0, SLOTS);
    PassPlanned(n, desired, own, pass);
    if pass.moved > 0 {
      var shard, lo, hi, to := PassActsOn(n, desired, own, pass);
      SegmentLength(n, own, pass.layout, pass.action, shard, lo, hi, to);
      forall x | lo <= x <= lo + pass.moved - 1 ensures !f(x) {
        ActsOnMisplaced(n, own, pass.layout, pass.action, shard, lo, hi, to, x);
      }
      CountRoom(f, lo, lo + pass.moved - 1, 0, SLOTS);
    }
  }

  lemma SegmentLength(n: nat, own: Owner, l: ShardLayout, action: Action, shard: nat, lo: int, hi: int, to: Pod)
    requires n > 0 && ActsOn(n, own, l, action, shard, lo, hi, to)
    ensures 0 <= lo <= hi < SLOTS && SegmentSize(action) == hi - lo + 1
  {
    RangesPartition(n, lo, shard);
    RangesPartition(n, hi, shard);
  }

  lemma ActsOnMisplaced(n: nat, own: Owner, l: ShardLayout, action: Action, shard: nat, lo: int, hi: int, to: Pod,
                        x: int)
    requires n > 0 && ActsOn(n, own, l, action, shard, lo, hi, to) && lo <= x <= hi
    ensures !Correct(own, n, l, x)
  {
    RangesPartition(n, x, shard);
    assert !Owns(own, to, x);
  }

  /** Convergence: although every pass plans afresh, a run without doomed owners gains exactly the slots
      it moves, so the count it started with plus the slots it moved never exceeds the number of
      slots, and no more of its passes move anything than slots were misplaced at the start. */
  lemma ReshardConverges(n: nat, desired: nat, owns: seq<Owner>, passes: seq<Pass>)
    requires n > 0 && IsRun(n, desired, owns, passes) && |passes| > 0 && NoDoomedOwner(desired, owns[0])
    ensures forall k :: 0 <= k < |passes| ==>
              CorrectCount(owns[k], n, passes[k].layout) ==
                CorrectCount(owns[0], n, passes[0].layout) + Moved(passes, k)
    ensures CorrectCount(owns[0], n, passes[0].layout) + Moved(passes, |passes|) <= SLOTS
    ensures Acting(passes, |passes|) <= SLOTS - CorrectCount(owns[0], n, passes[0].layout)
  {
    hide IsPass, CorrectCount;
    forall k | 0 <= k < |passes|
      ensures CorrectCount(owns[k], n, passes[k].layout) ==
              CorrectCount(owns[0], n, passes[0].layout) + Moved(passes, k)
    {
      RunProgress(n, desired, owns, passes, k);
    }
    var last := |passes| - 1;
    RoomForMove(n, desired, owns[last], passes[last]);
    ActingIsMoving(passes, |passes|);
  }

  lemma InPlaceIsCorrect(input: Input, own: Owner, l: ShardLayout, table: seq<Option<Pod>>, x: int)
    requires input.Valid() && Observes(input, own) && OwnerTable(input.statuses, table) && 0 <= x < SLOTS
    ensures InPlace(input.n, l, table, x) <==> Correct(own, input.n, l, x)
  {
    hide Observes;
    TableIsOwnership(input, own, table, x);
  }

  lemma ActingIsNotDone(input: Input, l: ShardLayout, table: seq<Option<Pod>>, action: Action)
    requires input.n > 0 && |table| == SLOTS && Acts(input, l, table, action)
    ensures action != Done
  {
  }

  lemma ActingIsNotStopTrue(input: Input, l: ShardLayout, table: seq<Option<Pod>>, action: Action)
    requires input.n > 0 && |table| == SLOTS && Acts(input, l, table, action)
    ensures action != Stop(true)
  {
    hide InPlace, PlacedBelow;
  }

  /** A pass that can reach every primary reports completion exactly when every slot is correct. */
  lemma DoneMeansAllCorrect(input: Input, own: Owner, l: ShardLayout, table: seq<Option<Pod>>, action: Action)
    requires input.Valid() && Observes(input, own) && OwnerTable(input.statuses, table)
    requires Outcome(input, l, table, action) && Blocked(input, l).None?
    ensures action == Done <==> CorrectCount(own, input.n, l) == SLOTS
  {
    hide Observes, OwnerTable, Blocked, Correct, InPlace, Acts;
    TableLength(input.statuses, table);
    var f := x => Correct(own, input.n, l, x);
    forall x | 0 <= x < SLOTS ensures InPlace(input.n, l, table, x) <==> f(x) {
      InPlaceIsCorrect(input, own, l, table, x);
    }
    CountAll(f, 0, SLOTS);
    if !PlacedBelow(input.n, l, table, SLOTS) {
      var x :| 0 <= x < SLOTS && !InPlace(input.n, l, table, x);
      assert !f(x);
    }
    if Acts(input, l, table, action) { ActingIsNotDone(input, l, table, action); }
  }

  // ---------------------------------------------------------------- completion

  /** Nothing stands in the way of the pass: the cluster is healthy, every desired pod can be reached, there
      are as many slot owners and masters without slots as shards, and a command that is sent moves
      something. */
  ghost predicate Unhindered(pass: Pass)
    requires pass.input.Valid()
  {
    && pass.input.Healthy() && pass.input.DesiredReachable()
    && |PolledOwners(pass.input)| + |Loose(pass.input)| >= pass.input.n
    && Reconciled(pass.input, true, pass.action) && (SegmentSize(pass.action) > 0 ==> pass.moved > 0)
  }

  lemma EnoughStatuses(input: Input, k: nat)
    requires forall p: Pod :: p < k ==> p in input.statuses
    ensures |input.statuses| >= k
  {
    var first := set p | p in input.statuses && p < k;
    PrefixBound(first, k);
    Bounded(first, k);
    assert |input.statuses| == |input.statuses.Keys| && first <= input.statuses.Keys;
    SubsetSize(first, input.statuses.Keys);
  }

  /** Then no plan is blocked. */
  lemma NothingBlocks(input: Input, own: Owner, l: ShardLayout)
    requires input.Valid() && PlanResult(input, l) && Observes(input, own) && NoDoomedOwner(input.desired, own)
    requires input.DesiredReachable() && |PolledOwners(input)| + |Loose(input)| >= input.n
    ensures Blocked(input, l).None?
  {
    hide PlanResult, Planned, Observes, PolledOwners, Loose, NoDoomedOwner;
    forall p: Pod | input.OwnsSlots(p) ensures p < input.desired { OwnersAreSurvivors(input, own, p); }
    LeadersSurvive(input, l);
    EnoughLeaders(input, Membership(l));
    forall s | 0 <= s < input.n ensures s in l.primaryOf && !Unreachable(input, l.primaryOf[s]) {
      assert s in Membership(l).primaryOf;
    }
  }

  lemma OwnersAreSurvivors(input: Input, own: Owner, p: Pod)
    requires Observes(input, own) && NoDoomedOwner(input.desired, own) && input.OwnsSlots(p)
    ensures p < input.desired
  {
    hide Observes;
    OwnerServes(input, own, p);
    var x :| Owns(own, p, x);
  }

  lemma LeadersSurvive(input: Input, l: ShardLayout)
    requires input.Valid() && PlanResult(input, l)
    ensures Planned(input, Membership(l)) && forall s :: s in l.primaryOf ==> l.primaryOf[s] < input.desired
  {
    hide Planned;
    PlanIsWellFormed(input, Membership(l));
    forall s | s in l.primaryOf ensures l.primaryOf[s] < input.desired {
      assert Membership(l).primaryOf[s] < input.desired;
    }
  }

  /** So the pass gets as far as its scan. */
  lemma PassScans(n: nat, desired: nat, own: Owner, pass: Pass)
    requires IsPass(n, desired, own, pass) && NoDoomedOwner(desired, own) && Unhindered(pass)
    ensures pass.action != Stop(true) && Blocked(pass.input, pass.layout).None?
  {
    hide Observes, PlanResult, PlacedBelow, Blocked, PolledOwners, Loose, Acts;
    NothingBlocks(pass.input, own, pass.layout);
    forall p: Pod | p < desired ensures p in pass.input.statuses { OwnerIsReachable(pass.input, p); }
    EnoughStatuses(pass.input, desired);
    var l, table :| PlanResult(pass.input, l) && OwnerTable(pass.input.statuses, table)
      && Outcome(pass.input, l, table, pass.action);
    NothingBlocks(pass.input, own, l);
    if Acts(pass.input, l, table, pass.action) { ActingIsNotStopTrue(pass.input, l, table, pass.action); }
  }

  /** A survivor that owns slots can be sent a command. */
  lemma OwnerIsReachable(input: Input, p: Pod)
    requires input.DesiredReachable() && p < input.desired
    ensures p in input.statuses && input.statuses[p].nodeID != "" && p in input.pods && input.pods[p].hasIP
  {
    assert input.Reachable(p);
  }

  /** Such a pass moves something unless there is nothing left to move. */
  lemma MovesOrDone(n: nat, desired: nat, own: Owner, pass: Pass)
    requires IsPass(n, desired, own, pass) && NoDoomedOwner(desired, own) && Unhindered(pass)
    ensures pass.action == Done || pass.moved > 0
  {
    hide Observes, PlanResult, PlacedBelow, Blocked, PolledOwners, Loose, Reconciled;
    PassScans(n, desired, own, pass);
    var table :| OwnerTable(pass.input.statuses, table) && Outcome(pass.input, pass.layout, table, pass.action);
    if pass.action != Done {
      var shard, owner, lo, hi :| FirstSegment(n, pass.layout, table, shard, owner, lo, hi)
        && Decides(pass.input, pass.layout, shard, owner, lo, hi, pass.action);
      if owner.Some? {
        TableIsOwnership(pass.input, own, table, lo);
        assert Owns(own, owner.value, lo);
        OwnerIsReachable(pass.input, owner.value);
      }
    }
  }

  lemma {:induction false} MovedAtLeast(passes: seq<Pass>, k: nat)
    requires k <= |passes| && forall i :: 0 <= i < k ==> passes[i].moved > 0
    ensures Moved(passes, k) >= k
  {
    if k > 0 { MovedAtLeast(passes, k - 1); }
  }

  lemma AllCorrectIsDone(n: nat, desired: nat, own: Owner, pass: Pass)
    requires n > 0 && IsPass(n, desired, own, pass) && NoDoomedOwner(desired, own) && Unhindered(pass)
    ensures pass.action == Done <==> CorrectCount(own, n, pass.layout) == SLOTS
  {
    hide Observes, PlanResult, Outcome, Blocked, CorrectCount, Unhindered;
    PassScans(n, desired, own, pass);
    var table :| OwnerTable(pass.input.statuses, table) && Outcome(pass.input, pass.layout, table, pass.action);
    DoneMeansAllCorrect(pass.input, own, pass.layout, table, pass.action);
  }

  /** Completion: with nothing in the way, some pass reports that every slot is correct, at the latest
      after as many passes as there were misplaced slots. */
  lemma ReshardCompletes(n: nat, desired: nat, owns: seq<Owner>, passes: seq<Pass>)
    requires n > 0 && IsRun(n, desired, owns, passes) && |passes| > 0 && NoDoomedOwner(desired, owns[0])
    requires forall k :: 0 <= k < |passes| ==> Unhindered(passes[k])
    requires |passes| > SLOTS - CorrectCount(owns[0], n, passes[0].layout)
    ensures exists k ::
              0 <= k < |passes| && passes[k].action == Done && CorrectCount(owns[k], n, passes[k].layout) == SLOTS
  {
    hide IsPass, CorrectCount, Unhindered, NoDoomedOwner;
    var last := |passes| - 1;
    forall k | 0 <= k < |passes| ensures passes[k].action == Done <==>
      CorrectCount(owns[k], n, passes[k].layout) == SLOTS {
      RunProgress(n, desired, owns, passes, k);
      AllCorrectIsDone(n, desired, owns[k], passes[k]);
    }
    if forall k :: 0 <= k < last ==> passes[k].action != Done {
      forall k | 0 <= k < last ensures passes[k].moved > 0 {
        RunProgress(n, desired, owns, passes, k);
        MovesOrDone(n, desired, owns[k], passes[k]);
      }
      MovedAtLeast(passes, last);
      RunProgress(n, desired, owns, passes, last);
      RoomForMove(n, desired, owns[last], passes[last]);
      assert passes[last].action == Done;
    }
  }
}
