/** Which slots somebody serves, and the runs of slots nobody serves. */
module Coverage {
  import opened Types
  import opened Reshard

  /** Every slot that some polled pod serves is marked, and no other. */
  ghost predicate Covers(statuses: Statuses, coverage: seq<bool>) {
    && |coverage| == SLOTS
    && forall x :: 0 <= x < SLOTS ==> (coverage[x] <==> exists p :: p in statuses && Serves(statuses[p], x))
  }

  method MarkRanges(served: seq<SlotRange>, coverage: array<bool>)
    requires coverage.Length == SLOTS
    modifies coverage
    ensures forall x :: 0 <= x < SLOTS ==>
              (coverage[x] <==> old(coverage[x]) || exists k :: 0 <= k < |served| && served[k].Contains(x))
  {
    for k := 0 to |served|
      invariant forall x :: 0 <= x < SLOTS ==>
                  (coverage[x] <==> old(coverage[x]) || exists j :: 0 <= j < k && served[j].Contains(x))
    {
      var r := Clamped(served[k]);
      if r.end < r.start {
        assert forall x :: 0 <= x < SLOTS ==> !served[k].Contains(x);
        continue;
      }
      var slot := r.start;
      while slot <= r.end
        invariant r.start <= slot <= r.end + 1
        invariant forall x :: 0 <= x < SLOTS ==>
                    (coverage[x] <==>
                      old(coverage[x]) || (exists j :: 0 <= j < k && served[j].Contains(x)) || r.start <= x < slot)
      {
        coverage[slot] := true;
        slot := slot + 1;
      }
      assert forall x :: 0 <= x < SLOTS ==> (r.start <= x < slot <==> served[k].Contains(x));
    }
  }

  /** Walk the statuses in any order. */
  method CalculateSlotCoverage(statuses: Statuses) returns (coverage: array<bool>)
    ensures fresh(coverage) && Covers(statuses, coverage[..])
  {
    coverage := new bool[SLOTS](_ => false);
    var rest := statuses.Keys;
    while rest != {}
      invariant rest <= statuses.Keys
      invariant forall x :: 0 <= x < SLOTS ==>
                  (coverage[x] <==> exists p :: p in statuses.Keys - rest && Serves(statuses[p], x))
      decreases rest
    {
      var pod :| pod in rest;
      ghost var before := coverage[..];
      MarkRanges(statuses[pod].slotsServed, coverage);
      forall x | 0 <= x < SLOTS
        ensures coverage[x] <==> exists p :: p in statuses.Keys - (rest - {pod}) && Serves(statuses[p], x)
      {
        assert coverage[x] <==> before[x] || Serves(statuses[pod], x);
      }
      rest := rest - {pod};
    }
  }

  /** Nonempty runs of uncovered slots of the target, in order, each as long as it can be, and all of them. */
  ghost predicate UncoveredRuns(target: SlotRange, coverage: seq<bool>, runs: seq<SlotRange>)
    requires |coverage| == SLOTS
  {
    var t := Clamped(target);
    RunsBelow(t, coverage, runs, if t.start <= t.end then t.end + 1 else t.start)
  }

  /** The same for the part of the target below `slot`. */
  ghost predicate RunsBelow(t: SlotRange, coverage: seq<bool>, runs: seq<SlotRange>, slot: int)
    requires |coverage| == SLOTS && 0 <= t.start && t.end < SLOTS
  {
    && t.start <= slot && (slot <= t.end + 1 || slot == t.start)
    && (forall i :: 0 <= i < |runs| ==>
          t.start <= runs[i].start <= runs[i].end < slot && MaximalRun(t, coverage, runs[i]))
    && (forall i, j :: 0 <= i < j < |runs| ==> runs[i].end + 1 < runs[j].start)
    && (forall x :: t.start <= x < slot ==> (InSome(runs, x) <==> !coverage[x]))
  }

  /** Uncovered throughout, and not extensible within the target. */
  ghost predicate MaximalRun(t: SlotRange, coverage: seq<bool>, r: SlotRange)
    requires |coverage| == SLOTS && 0 <= t.start <= r.start <= r.end <= t.end < SLOTS
  {
    && Run(coverage, r)
    && (r.start == t.start || coverage[r.start - 1])
    && (r.end == t.end || coverage[r.end + 1])
  }

  ghost predicate Run(coverage: seq<bool>, r: SlotRange)
    requires |coverage| == SLOTS && 0 <= r.start && r.end < SLOTS
  {
    forall x :: r.start <= x <= r.end ==> !coverage[x]
  }

  ghost predicate InSome(runs: seq<SlotRange>, x: int) {
    exists i :: 0 <= i < |runs| && runs[i].Contains(x)
  }

  lemma AppendRun(t: SlotRange, coverage: seq<bool>, runs: seq<SlotRange>, start: int, slot: int)
    requires |coverage| == SLOTS && 0 <= t.start <= start < slot <= t.end + 1 <= SLOTS
    requires RunsBelow(t, coverage, runs, start) && MaximalRun(t, coverage, SlotRange(start, slot - 1))
    ensures RunsBelow(t, coverage, runs + [SlotRange(start, slot - 1)], slot)
  {
    var runs' := runs + [SlotRange(start, slot - 1)];
    forall x | t.start <= x < slot ensures InSome(runs', x) <==> !coverage[x] {
      InSomeAppend(runs, SlotRange(start, slot - 1), x);
    }
    forall i | 0 <= i < |runs| ensures runs[i].end + 1 < start {
      assert MaximalRun(t, coverage, runs[i]);
      assert runs[i].end + 1 <= start;
      assert Run(coverage, SlotRange(start, slot - 1)) && !coverage[start];
    }
  }

  lemma InSomeAppend(runs: seq<SlotRange>, r: SlotRange, x: int)
    ensures InSome(runs + [r], x) <==> InSome(runs, x) || r.Contains(x)
  {
    var runs' := runs + [r];
    if InSome(runs, x) {
      var i :| 0 <= i < |runs| && runs[i].Contains(x);
      assert runs'[i].Contains(x);
    }
    if r.Contains(x) { assert runs'[|runs|].Contains(x); }
  }

  lemma SkipCovered(t: SlotRange, coverage: seq<bool>, runs: seq<SlotRange>, slot: int)
    requires |coverage| == SLOTS && 0 <= t.start <= slot <= t.end < SLOTS && coverage[slot]
    requires RunsBelow(t, coverage, runs, slot)
    ensures RunsBelow(t, coverage, runs, slot + 1)
  {
    forall x | t.start <= x < slot + 1 ensures InSome(runs, x) <==> !coverage[x] { }
  }

  method CalculateUncoveredSlotRanges(target: SlotRange, coverage: array<bool>) returns (uncovered: seq<SlotRange>)
    requires coverage.Length == SLOTS
    ensures UncoveredRuns(target, coverage[..], uncovered)
  {
    var t := Clamped(target);
    ghost var c := coverage[..];
    uncovered := [];
    assert RunsBelow(t, c, uncovered, t.start);
    if t.end < t.start {
      return;
    }
    hide RunsBelow;
    var slot := t.start;
    while slot <= t.end
      invariant t.start <= slot <= t.end + 1
      invariant RunsBelow(t, c, uncovered, slot)
      invariant t.start < slot <= t.end && !coverage[slot - 1] ==> coverage[slot]
    {
      if coverage[slot] {
        SkipCovered(t, c, uncovered, slot);
        slot := slot + 1;
        continue;
      }
      var start := slot;
      while slot <= t.end && !coverage[slot]
        invariant start <= slot <= t.end + 1
        invariant forall x :: start <= x < slot ==> !coverage[x]
      {
        slot := slot + 1;
      }
      AppendRun(t, c, uncovered, start, slot);
      uncovered := uncovered + [SlotRange(start, slot - 1)];
    }
  }

  /** Uncovered runs hold exactly the uncovered slots of the target. */
  lemma RunsAreTheUncovered(target: SlotRange, coverage: seq<bool>, runs: seq<SlotRange>, x: int)
    requires |coverage| == SLOTS && UncoveredRuns(target, coverage, runs)
    ensures InSome(runs, x) <==> 0 <= x < SLOTS && target.Contains(x) && !coverage[x]
  {
  }
}
