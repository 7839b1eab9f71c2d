/** Planning follows what it observes: a replica stays with the owner it follows and an unobservable pod
    stays where its label puts it, unless it is needed as the heir of a doomed owner. */
module MembershipKept {
  import opened Types
  import opened Ranking
  import opened Layout
  import opened LayoutInvariant
  import opened PlanFacts
  import opened Totality
  import opened Rebalance

  /** The pod was borrowed as the heir of a shard that had no primary. */
  ghost predicate Borrowed(first: ShardLayout, l: ShardLayout, p: Pod) {
    exists s :: l.IsPrimaryOf(p, s) && s in first.ownerOf && s !in first.primaryOf
  }

  lemma {:induction false} HeirsOnlyBorrow(desired: nat, owners: set<Pod>, trace: seq<ShardLayout>, k: nat, p: Pod)
    requires k < |trace| && HeirTrace(desired, trace[0], trace) && WellFormed(desired, owners, trace[0])
             && p in trace[0].shardOf
    ensures trace[0].primaryOf.Keys <= trace[k].primaryOf.Keys && p in trace[k].shardOf
    ensures trace[k].shardOf[p] == trace[0].shardOf[p] || Borrowed(trace[0], trace[k], p)
  {
    hide WellFormed;
    if k > 0 {
      HeirsOnlyBorrow(desired, owners, trace, k - 1, p);
      HeirTraceWellFormed(desired, owners, trace, k - 1);
      var l, l' := trace[k - 1], trace[k];
      if l' != l {
        var q := HeirOf(desired, owners, l, k - 1, l');
        assert l'.shardOf == l.shardOf[q := k - 1];
        if q == p {
          assert l'.IsPrimaryOf(p, k - 1);
        } else if Borrowed(trace[0], l, p) {
          var s :| l.IsPrimaryOf(p, s) && s in trace[0].ownerOf && s !in trace[0].primaryOf;
          assert l'.IsPrimaryOf(p, s);
        }
      }
    }
  }

  /** Where attaching puts a pod it stays, unless it becomes the heir of a shard that is handing over. */
  lemma PlacedStays(input: Input, ch: Choices, l: ShardLayout, p: Pod)
    requires input.Valid() && PlannedWith(input, ch, l) && p in Attached(input, ch).layout.shardOf
    ensures l.Placed(p, Attached(input, ch).layout.shardOf[p]) || exists s :: l.IsPrimaryOf(p, s) && l.HandingOver(s)
  {
    hide WellFormed, Attach;
    FilledFacts(input, ch, l);
    FillExtends(input.desired, Owners(input, ch), Survivors(input, ch),
                PodSet(ch.names) - PodSet(Filter(input.desired, Attached(input, ch).free, true)), input.n);
    HeirsOnlyBorrow(input.desired, Owners(input, ch), ch.heirs, input.n, p);
    FinalFacts(input, ch, l);
    if Borrowed(ch.heirs[0], ch.heirs[input.n], p) {
      var s :| ch.heirs[input.n].IsPrimaryOf(p, s) && s in ch.heirs[0].ownerOf && s !in ch.heirs[0].primaryOf;
      BorrowedIsHandingOver(input, ch, l, p, s);
    }
  }

  lemma BorrowedIsHandingOver(input: Input, ch: Choices, l: ShardLayout, p: Pod, s: nat)
    requires input.Valid() && PlannedWith(input, ch, l)
    requires l.IsPrimaryOf(p, s) && s in Filled(input, ch).layout.ownerOf && s !in Filled(input, ch).layout.primaryOf
    ensures l.HandingOver(s)
  {
    FilledFacts(input, ch, l);
    FinalFacts(input, ch, l);
    var filled := Filled(input, ch).layout;
    var owner := filled.ownerOf[s];
    assert filled.Placed(owner, s) && owner in Owners(input, ch);
    assert !filled.IsPrimary(owner);
    assert owner >= input.desired;
  }

  /** A replica is planned in the shard of the owner it follows, or leads a shard that is handing over. */
  lemma FollowersStay(input: Input, l: ShardLayout, p: Pod, owner: Pod)
    requires input.Valid() && Planned(input, l) && UniqueNodes(input.statuses)
    requires input.Named(p) && !input.OwnsSlots(p) && IsOwner(input, owner) && owner in input.statuses
    requires var status := StatusOf(input.statuses, p);
             status.role == Slave && status.primaryNodeID == input.statuses[owner].nodeID != ""
    ensures owner in l.shardOf && p in l.shardOf
    ensures l.shardOf[p] == l.shardOf[owner] || exists s :: l.IsPrimaryOf(p, s) && l.HandingOver(s)
  {
    hide PlannedWith, Attach;
    var ch :| PlannedWith(input, ch, l);
    PlannedClaims(input, ch, l);
    OwnersAre(input, ch);
    OwnedKeys(input, ch, l);
    OwnersKeepClaims(input, ch, l);
    assert ch.index[input.statuses[owner].nodeID] == owner;
    AttachFollows(input, ch.index, ch.owned, ch.names, p);
    PlacedStays(input, ch, l, p);
    PlacedIffNamed(input, ch, l, p);
  }

  lemma {:induction false} AttachKeepsLabel(input: Input, index: map<string, Pod>, l: ShardLayout, names: seq<Pod>,
                                            p: Pod)
    requires p in names && p !in l.shardOf && Ascending(names) && Unobservable(input, p)
    requires p in input.pods && input.pods[p].shardLabel.Some? && input.pods[p].shardLabel.value < input.n
    ensures AttachAll(input, index, l, names).layout.Placed(p, input.pods[p].shardLabel.value)
  {
    var front := names[..|names| - 1];
    if p in front {
      hide Attach;
      AttachKeepsLabel(input, index, l, front, p);
      AttachStepExtends(input, index, AttachAll(input, index, l, front), names[|names| - 1]);
    } else {
      AttachOnlyNames(input, index, l, front, p);
    }
  }

  /** Not polled, not connected, or a replica that does not say whom it follows. */
  predicate Unobservable(input: Input, p: Pod) {
    var status := StatusOf(input.statuses, p);
    (status.role != Slave || status.primaryNodeID == "")
      && (p !in input.statuses || !status.connected || status.role == Slave)
  }

  /** A pod whose role cannot be observed is planned in the shard its label names, or leads a shard that is
      handing over. */
  lemma LabelsAreKept(input: Input, l: ShardLayout, p: Pod)
    requires input.Valid() && Planned(input, l) && !input.OwnsSlots(p) && Unobservable(input, p)
    requires p in input.pods && input.pods[p].shardLabel.Some? && input.pods[p].shardLabel.value < input.n
    ensures l.Placed(p, input.pods[p].shardLabel.value) || exists s :: l.IsPrimaryOf(p, s) && l.HandingOver(s)
  {
    hide PlannedWith, Attach;
    var ch :| PlannedWith(input, ch, l);
    PlannedClaims(input, ch, l);
    OwnersAre(input, ch);
    OwnedKeys(input, ch, l);
    assert input.Named(p) && p in ch.names;
    AttachKeepsLabel(input, ch.index, ch.owned, ch.names, p);
    PlacedStays(input, ch, l, p);
  }
}
