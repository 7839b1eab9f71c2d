/** What a resharding pass decides, read off the slot owners and the reported statuses, and how a handover gets
    from attaching the heir to its beginning. */
module Decisions {
  import opened Types
  import opened Slots
  import opened Layout
  import opened Ownership
  import opened Reshard
  import opened ReshardRuns

  function OwnerAt(own: Owner, x: int): Option<Pod> {
    if x in own then Some(own[x]) else None
  }

  /** The first slot that its shard's primary does not own. */
  ghost predicate FirstMisplaced(own: Owner, n: nat, l: ShardLayout, x: int)
    requires n > 0
  {
    0 <= x < SLOTS && !Correct(own, n, l, x) && CorrectUpTo(own, n, l, x)
  }

  /** The slots from `lo` to `hi` have one owner and one shard, and `hi` is the last for which that is so. */
  ghost predicate LongestRun(own: Owner, n: nat, lo: int, hi: int)
    requires n > 0
  {
    && 0 <= lo <= hi < SLOTS
    && (forall y :: lo <= y <= hi ==> OwnerAt(own, y) == OwnerAt(own, lo) && ShardOfSlot(n, y) == ShardOfSlot(n, lo))
    && (hi + 1 < SLOTS ==>
          OwnerAt(own, hi + 1) != OwnerAt(own, lo) || ShardOfSlot(n, hi + 1) != ShardOfSlot(n, lo))
  }

  /** Every shard has a primary that answers. */
  ghost predicate AllLeadersAnswer(input: Input, l: ShardLayout) {
    forall s :: 0 <= s < input.n ==> s in l.primaryOf && input.Reachable(l.primaryOf[s])
  }

  /** The pod replicates the other, as it reports. */
  predicate Follows(statuses: Statuses, p: Pod, leader: Pod) {
    StatusOf(statuses, p).role == Slave && StatusOf(statuses, p).primaryNodeID == StatusOf(statuses, leader).nodeID
  }

  /** A slot owner a command can be sent to. */
  predicate Addressable(input: Input, p: Pod) {
    StatusOf(input.statuses, p).nodeID != "" && p in input.pods && input.pods[p].hasIP
  }

  // ---------------------------------------------------------------- the segment

  /** The segment a scan finds starts at the first misplaced slot and is the longest run from there. */
  lemma SegmentIsRun(input: Input, own: Owner, l: ShardLayout, table: seq<Option<Pod>>, shard: nat,
                     owner: Option<Pod>, lo: int, hi: int)
    requires input.Valid() && Observes(input, own) && OwnerTable(input.statuses, table) && |table| == SLOTS
    requires FirstSegment(input.n, l, table, shard, owner, lo, hi)
    ensures FirstMisplaced(own, input.n, l, lo) && shard == ShardOfSlot(input.n, lo) && owner == OwnerAt(own, lo)
    ensures LongestRun(own, input.n, lo, hi)
  {
    hide Observes, OwnerTable, RangeStart, ShardOfSlot, InPlace, Correct;
    var n := input.n;
    forall y | 0 <= y < SLOTS ensures table[y] == OwnerAt(own, y) { TableIsOwner(input, own, table, y); }
    forall y | lo <= y <= hi ensures ShardOfSlot(n, y) == shard { RangesPartition(n, y, shard); }
    forall y | 0 <= y < lo ensures Correct(own, n, l, y) { InPlaceIsCorrect(input, own, l, table, y); }
    assert !Correct(own, n, l, lo) by { NotAtPrimary(own, n, l, lo); }
    if hi + 1 < SLOTS && hi == RangeOf(n, shard).end { RangesPartition(n, hi + 1, shard); }
  }

  lemma TableIsOwner(input: Input, own: Owner, table: seq<Option<Pod>>, x: int)
    requires Observes(input, own) && OwnerTable(input.statuses, table) && 0 <= x < SLOTS
    ensures table[x] == OwnerAt(own, x)
  {
    hide Observes;
    TableIsOwnership(input, own, table, x);
    if x in own { assert Owns(own, own[x], x); }
  }

  lemma NotAtPrimary(own: Owner, n: nat, l: ShardLayout, x: int)
    requires n > 0 && 0 <= x < SLOTS
    requires var s := ShardOfSlot(n, x); s in l.primaryOf && OwnerAt(own, x) != Some(l.primaryOf[s])
    ensures !Correct(own, n, l, x)
  {
  }

  lemma FirstIsUnique(own: Owner, n: nat, l: ShardLayout, x: int, y: int)
    requires n > 0 && FirstMisplaced(own, n, l, x) && FirstMisplaced(own, n, l, y)
    ensures x == y
  {
    hide Correct;
  }

  // ---------------------------------------------------------------- the decision

  /** A pass acts on the first misplaced slot `x`. Unowned slots are added to their shard's primary. An owner
      that cannot be addressed holds the pass up. A doomed owner whose shard's primary has no slots hands over:
      the handover begins if and only if that primary follows the owner over a link that is up, it is waited
      for if and only if the link is down, and it is attached if and only if it does not follow. Any other
      owner's slots are migrated, as many as the longest run holds. */
  ghost predicate Answers(input: Input, own: Owner, l: ShardLayout, x: int, action: Action)
    requires input.n > 0 && 0 <= x < SLOTS && ShardOfSlot(input.n, x) in l.primaryOf
  {
    var to := l.primaryOf[ShardOfSlot(input.n, x)];
    if x !in own then
      action.AddSlots? && action.to == to && action.lo == x && LongestRun(own, input.n, x, action.hi)
    else if !Addressable(input, own[x]) then
      action == Stop(false)
    else if own[x] >= input.desired && !input.OwnsSlots(to) then
      && (action == BeginHandover(own[x], to) <==>
            Follows(input.statuses, to, own[x]) && StatusOf(input.statuses, to).linkUp)
      && (action == AwaitLink(to, own[x]) <==>
            Follows(input.statuses, to, own[x]) && !StatusOf(input.statuses, to).linkUp)
      && (action == Attach(to, own[x]) <==> !Follows(input.statuses, to, own[x]))
    else
      && action.Migrate? && action.from == own[x] && action.to == to
      && action.lo == x && LongestRun(own, input.n, x, action.hi)
  }

  lemma DecisionAnswers(input: Input, own: Owner, l: ShardLayout, shard: nat, lo: int, hi: int, action: Action)
    requires input.n > 0 && LongestRun(own, input.n, lo, hi)
    requires shard in l.primaryOf && shard == ShardOfSlot(input.n, lo) && (lo in own ==> own[lo] in input.statuses)
    requires Decides(input, l, shard, OwnerAt(own, lo), lo, hi, action)
    ensures Answers(input, own, l, lo, action)
  {
    hide ShardOfSlot;
  }

  /** What a pass does is determined by the owners and the statuses. */
  lemma PassDecides(input: Input, own: Owner, l: ShardLayout, table: seq<Option<Pod>>, action: Action)
    requires input.Valid() && Observes(input, own) && OwnerTable(input.statuses, table) && |table| == SLOTS
    requires Outcome(input, l, table, action)
    ensures (exists s :: 0 <= s < input.n && s !in l.primaryOf) ==> action == Stop(false)
    ensures (forall s :: 0 <= s < input.n ==> s in l.primaryOf) && !AllLeadersAnswer(input, l) ==>
              action == Stop(|input.statuses| <= input.desired)
    ensures AllLeadersAnswer(input, l) && CorrectUpTo(own, input.n, l, SLOTS) ==> action == Done
    ensures forall x :: AllLeadersAnswer(input, l) && FirstMisplaced(own, input.n, l, x) ==>
              ShardOfSlot(input.n, x) in l.primaryOf && Answers(input, own, l, x, action)
  {
    hide Observes, OwnerTable, RangeStart, ShardOfSlot, InPlace, Correct, Acts, Answers;
    BlockedIs(input, l);
    forall x | 0 <= x < SLOTS ensures InPlace(input.n, l, table, x) <==> Correct(own, input.n, l, x) {
      InPlaceIsCorrect(input, own, l, table, x);
    }
    forall x | AllLeadersAnswer(input, l) && FirstMisplaced(own, input.n, l, x)
      ensures ShardOfSlot(input.n, x) in l.primaryOf && Answers(input, own, l, x, action)
    {
      assert !PlacedBelow(input.n, l, table, SLOTS) by { assert !InPlace(input.n, l, table, x); }
      ActsAnswers(input, own, l, table, action, x);
    }
  }

  lemma BlockedIs(input: Input, l: ShardLayout)
    ensures Blocked(input, l).None? <==> AllLeadersAnswer(input, l)
    ensures (exists s :: 0 <= s < input.n && s !in l.primaryOf) ==> Blocked(input, l) == Some(Stop(false))
    ensures (forall s :: 0 <= s < input.n ==> s in l.primaryOf) && !AllLeadersAnswer(input, l) ==>
              Blocked(input, l) == Some(Stop(|input.statuses| <= input.desired))
  {
  }

  lemma ActsAnswers(input: Input, own: Owner, l: ShardLayout, table: seq<Option<Pod>>, action: Action, x: int)
    requires input.Valid() && Observes(input, own) && OwnerTable(input.statuses, table) && |table| == SLOTS
    requires Acts(input, l, table, action) && FirstMisplaced(own, input.n, l, x)
    ensures ShardOfSlot(input.n, x) in l.primaryOf && Answers(input, own, l, x, action)
  {
    hide Observes, OwnerTable, RangeStart, ShardOfSlot, InPlace, Correct, Decides, Answers, FirstMisplaced;
    var shard, owner, lo, hi :| FirstSegment(input.n, l, table, shard, owner, lo, hi)
      && Decides(input, l, shard, owner, lo, hi, action);
    SegmentIsRun(input, own, l, table, shard, owner, lo, hi);
    FirstIsUnique(own, input.n, l, x, lo);
    SegmentBounds(input.n, l, table, shard, owner, lo, hi);
    if lo in own { OwnerIsPolled(input, own, lo); }
    DecisionAnswers(input, own, l, shard, lo, hi, action);
  }

  lemma OwnerIsPolled(input: Input, own: Owner, x: int)
    requires Observes(input, own) && x in own
    ensures own[x] in input.statuses
  {
    assert Owns(own, own[x], x);
    assert Serves(StatusOf(input.statuses, own[x]), x);
  }
}
