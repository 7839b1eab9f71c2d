/** Every layout the planner can produce is well formed, for every input. */
module LayoutInvariant {
  import opened Types
  import opened Ranking
  import opened Layout

  ghost predicate Distinct(pods: seq<Pod>) {
    forall i, j :: 0 <= i < j < |pods| ==> pods[i] != pods[j]
  }

  /** `members` lists each placed pod once, in the shard `shardOf` gives. */
  ghost predicate Consistent(l: ShardLayout) {
    && (forall p, s: nat :: p in l.MembersOf(s) <==> l.Placed(p, s))
    && (forall s: nat :: Distinct(l.MembersOf(s)))
  }

  /** A primary survives and is in the shard it leads. */
  ghost predicate PrimariesSurvive(desired: nat, l: ShardLayout) {
    forall s :: s in l.primaryOf ==> l.Placed(l.primaryOf[s], s) && l.primaryOf[s] < desired
  }

  /** Each slot owner has a shard to itself, and leads it if it survives. */
  ghost predicate OwnersPlaced(desired: nat, owners: set<Pod>, l: ShardLayout) {
    && (forall p :: p in owners ==> p in l.shardOf && l.shardOf[p] in l.ownerOf && l.ownerOf[l.shardOf[p]] == p)
    && (forall s :: s in l.ownerOf ==> l.ownerOf[s] in owners && l.Placed(l.ownerOf[s], s))
    && (forall p :: p in owners && p < desired ==> l.IsPrimary(p))
  }

  ghost predicate WellFormed(desired: nat, owners: set<Pod>, l: ShardLayout) {
    Consistent(l) && PrimariesSurvive(desired, l) && OwnersPlaced(desired, owners, l)
  }

  lemma ClaimsWellFormed(desired: nat, c: map<Pod, nat>, l: ShardLayout)
    requires ClaimsOnly(desired, c, l)
    ensures WellFormed(desired, c.Keys, l)
  {
    hide Consistent;
    ClaimsConsistent(c, l);
    forall s | s in l.ownerOf ensures l.ownerOf[s] in c && l.Placed(l.ownerOf[s], s) {
      var q :| q in c && c[q] == s;
    }
  }

  lemma ClaimsConsistent(c: map<Pod, nat>, l: ShardLayout)
    requires ClaimsHeld(c, l)
    ensures Consistent(l)
  {
    forall s: nat
      ensures Distinct(l.MembersOf(s))
      ensures forall p :: p in l.MembersOf(s) <==> l.Placed(p, s)
    {
      if s in c.Values {
        var q :| q in c && c[q] == s;
        assert l.members[s] == [q];
      }
    }
  }

  lemma AssignConsistent(l: ShardLayout, p: Pod, shard: nat)
    requires Consistent(l) && p !in l.shardOf
    ensures Consistent(l.Assign(p, shard))
  {
    var l' := l.Assign(p, shard);
    forall q, s: nat ensures q in l'.MembersOf(s) <==> l'.Placed(q, s) {
      assert q in l.MembersOf(s) <==> l.Placed(q, s);
    }
    forall s: nat ensures Distinct(l'.MembersOf(s)) {
      assert Distinct(l.MembersOf(s));
      assert p in l.MembersOf(s) <==> l.Placed(p, s);
    }
  }

  lemma AssignWellFormed(desired: nat, owners: set<Pod>, l: ShardLayout, p: Pod, shard: nat)
    requires WellFormed(desired, owners, l) && p !in l.shardOf
    ensures WellFormed(desired, owners, l.Assign(p, shard))
  {
    hide Consistent;
    AssignConsistent(l, p, shard);
  }

  lemma LeadWellFormed(desired: nat, owners: set<Pod>, l: ShardLayout, p: Pod, shard: nat)
    requires WellFormed(desired, owners, l) && l.Placed(p, shard) && p < desired && shard !in l.primaryOf
    ensures WellFormed(desired, owners, l.WithPrimary(p, shard))
  {
    LeadConsistent(l, p, shard);
    LeadKeepsOwners(desired, owners, l, p, shard);
  }

  lemma LeadConsistent(l: ShardLayout, p: Pod, shard: nat)
    requires Consistent(l)
    ensures Consistent(l.WithPrimary(p, shard))
  {
    var l' := l.WithPrimary(p, shard);
    assert forall s: nat :: l'.MembersOf(s) == l.MembersOf(s);
    assert forall q, s: nat :: l'.Placed(q, s) == l.Placed(q, s);
  }

  lemma LeadKeepsOwners(desired: nat, owners: set<Pod>, l: ShardLayout, p: Pod, shard: nat)
    requires OwnersPlaced(desired, owners, l) && shard !in l.primaryOf
    ensures OwnersPlaced(desired, owners, l.WithPrimary(p, shard))
  {
    var l' := l.WithPrimary(p, shard);
    forall s | s in l'.ownerOf ensures l'.ownerOf[s] in owners && l'.Placed(l'.ownerOf[s], s) {
      assert l.Placed(l.ownerOf[s], s);
    }
    forall q | q in owners && q < desired ensures l'.IsPrimary(q) {
      assert l.IsPrimary(q);
    }
  }

  lemma JoinWellFormed(desired: nat, owners: set<Pod>, l: ShardLayout, p: Pod, shard: nat, mayLead: bool)
    requires WellFormed(desired, owners, l) && p !in l.shardOf
    ensures WellFormed(desired, owners, l.Join(desired, p, shard, mayLead))
  {
    AssignWellFormed(desired, owners, l, p, shard);
    var l' := l.Assign(p, shard);
    if mayLead && shard !in l.primaryOf && p < desired {
      LeadWellFormed(desired, owners, l', p, shard);
    }
  }

  // ---------------------------------------------------------------- heirs

  lemma {:induction false} WithoutProperties(pods: seq<Pod>, pod: Pod)
    requires Distinct(pods)
    ensures Distinct(Without(pods, pod))
    ensures forall q :: q in Without(pods, pod) <==> q in pods && q != pod
    ensures |Without(pods, pod)| == if pod in pods then |pods| - 1 else |pods|
  {
    if pods != [] {
      assert pods == [pods[0]] + pods[1..];
      WithoutProperties(pods[1..], pod);
      if pods[0] == pod {
      } else {
        var rest := Without(pods[1..], pod);
        assert forall q :: q in Without(pods, pod) <==> q == pods[0] || q in rest;
        assert forall i :: 0 <= i < |rest| ==> rest[i] in pods[1..];
      }
    }
  }

  /** The layout while a pod is between shards. */
  ghost function Lifted(l: ShardLayout, p: Pod): ShardLayout
    requires p in l.shardOf
  {
    var from := l.shardOf[p];
    l.(members := l.members[from := Without(l.MembersOf(from), p)], shardOf := l.shardOf - {p})
  }

  lemma LiftedConsistent(l: ShardLayout, p: Pod)
    requires Consistent(l) && p in l.shardOf
    ensures Consistent(Lifted(l, p))
  {
    var from, l' := l.shardOf[p], Lifted(l, p);
    assert Distinct(l.MembersOf(from));
    WithoutProperties(l.MembersOf(from), p);
    forall q, s: nat ensures q in l'.MembersOf(s) <==> l'.Placed(q, s) {
      assert q in l.MembersOf(s) <==> l.Placed(q, s);
    }
    forall s: nat ensures Distinct(l'.MembersOf(s)) {
      assert Distinct(l.MembersOf(s));
    }
  }

  lemma LiftedWellFormed(desired: nat, owners: set<Pod>, l: ShardLayout, p: Pod)
    requires WellFormed(desired, owners, l) && p in l.shardOf && !l.IsPrimary(p) && p < desired
    ensures p !in owners && p !in Lifted(l, p).shardOf
    ensures WellFormed(desired, owners, Lifted(l, p))
  {
    hide Consistent;
    LiftedConsistent(l, p);
    forall s | s in l.primaryOf ensures Lifted(l, p).Placed(l.primaryOf[s], s) {
      assert l.Placed(l.primaryOf[s], s);
    }
    forall s | s in l.ownerOf ensures Lifted(l, p).Placed(l.ownerOf[s], s) {
      assert l.Placed(l.ownerOf[s], s);
    }
  }

  lemma MoveLiftsAndAssigns(l: ShardLayout, p: Pod, shard: nat)
    requires p in l.shardOf
    ensures l.Move(p, shard) == Lifted(l, p).Assign(p, shard)
  {
    assert l.shardOf[p := shard] == Lifted(l, p).shardOf[p := shard];
  }

  /** A spare survivor owns nothing, so moving it disturbs no owner and no primary. */
  lemma MoveWellFormed(desired: nat, owners: set<Pod>, l: ShardLayout, p: Pod, shard: nat)
    requires WellFormed(desired, owners, l) && p in l.shardOf && !l.IsPrimary(p) && p < desired
    ensures p !in owners
    ensures WellFormed(desired, owners, l.Move(p, shard))
  {
    MoveLiftsAndAssigns(l, p, shard);
    LiftedWellFormed(desired, owners, l, p);
    AssignWellFormed(desired, owners, Lifted(l, p), p, shard);
  }

  lemma HeirStepWellFormed(desired: nat, owners: set<Pod>, l: ShardLayout, shard: nat, l': ShardLayout)
    requires WellFormed(desired, owners, l) && HeirStep(desired, l, shard, l')
    ensures WellFormed(desired, owners, l') && l'.shardOf.Keys == l.shardOf.Keys && l'.ownerOf == l.ownerOf
  {
    if l' != l {
      var p := HeirOf(desired, owners, l, shard, l');
      HeirWellFormed(desired, owners, l, p, shard);
    }
  }

  /** A step that changes the layout moves a spare survivor to the head of an owned shard without a primary. */
  lemma HeirOf(desired: nat, owners: set<Pod>, l: ShardLayout, shard: nat, l': ShardLayout) returns (p: Pod)
    requires WellFormed(desired, owners, l) && HeirStep(desired, l, shard, l') && l' != l
    ensures shard !in l.primaryOf && shard in l.ownerOf
    ensures p in l.shardOf && !l.IsPrimary(p) && p < desired && |l.MembersOf(l.shardOf[p])| > 1
    ensures l' == l.Move(p, shard).WithPrimary(p, shard)
  {
    p :| p in l.shardOf && IsSpareSurvivor(desired, l, p) && l' == l.Move(p, shard).WithPrimary(p, shard);
    SpareIsSpare(desired, owners, l, p);
  }

  lemma HeirWellFormed(desired: nat, owners: set<Pod>, l: ShardLayout, p: Pod, shard: nat)
    requires WellFormed(desired, owners, l) && p in l.shardOf && !l.IsPrimary(p) && p < desired && shard !in l.primaryOf
    ensures p !in owners && l.Move(p, shard).shardOf == l.shardOf[p := shard]
    ensures WellFormed(desired, owners, l.Move(p, shard).WithPrimary(p, shard))
  {
    MoveWellFormed(desired, owners, l, p, shard);
    LeadWellFormed(desired, owners, l.Move(p, shard), p, shard);
  }

  lemma SpareIsSpare(desired: nat, owners: set<Pod>, l: ShardLayout, p: Pod)
    requires WellFormed(desired, owners, l) && IsSpareSurvivor(desired, l, p)
    ensures p in l.shardOf && !l.IsPrimary(p) && p < desired && |l.MembersOf(l.shardOf[p])| > 1
  {
    var shard, k: nat :| FirstSpare(desired, l, shard, k) && l.members[shard][k] == p;
    assert p in l.MembersOf(shard);
    assert l.Placed(p, shard);
  }

  lemma HeirTraceStep(desired: nat, trace: seq<ShardLayout>, k: nat)
    requires k + 1 < |trace| && HeirTrace(desired, trace[0], trace)
    ensures HeirStep(desired, trace[k], k, trace[k + 1])
  {
    hide HeirStep;
  }

  lemma {:induction false} HeirTraceWellFormed(desired: nat, owners: set<Pod>, trace: seq<ShardLayout>, k: nat)
    requires k < |trace| && WellFormed(desired, owners, trace[0]) && HeirTrace(desired, trace[0], trace)
    ensures WellFormed(desired, owners, trace[k]) && trace[k].shardOf.Keys == trace[0].shardOf.Keys
    ensures trace[k].ownerOf == trace[0].ownerOf
  {
    hide WellFormed, HeirTrace, HeirStep;
    if k > 0 {
      HeirTraceWellFormed(desired, owners, trace, k - 1);
      HeirTraceStep(desired, trace, k - 1);
      HeirStepWellFormed(desired, owners, trace[k - 1], k - 1, trace[k]);
    }
  }

  // ---------------------------------------------------------------- attaching, filling, balancing

  /** Pods are placed well or still free, never both, and none is forgotten. */
  ghost predicate DraftOk(desired: nat, owners: set<Pod>, d: Draft, named: set<Pod>) {
    && WellFormed(desired, owners, d.layout)
    && Distinct(d.free)
    && d.layout.shardOf.Keys !! PodSet(d.free)
    && d.layout.shardOf.Keys + PodSet(d.free) == named
  }

  lemma AttachOk(input: Input, index: map<string, Pod>, owners: set<Pod>, d: Draft, named: set<Pod>, p: Pod)
    requires DraftOk(input.desired, owners, d, named) && p !in d.free
    ensures DraftOk(input.desired, owners, Attach(input, index, d, p), named + {p})
  {
    hide WellFormed;
    var l, status, d' := d.layout, StatusOf(input.statuses, p), Attach(input, index, d, p);
    if p in l.shardOf {
      assert named + {p} == named;
    } else if d'.free != d.free {
      assert PodSet(d'.free) == PodSet(d.free) + {p};
      assert forall i :: 0 <= i < |d.free| ==> d.free[i] in d.free;
    } else if status.role == Slave && status.primaryNodeID != "" && status.primaryNodeID in index
           && index[status.primaryNodeID] in l.shardOf {
      JoinWellFormed(input.desired, owners, l, p, l.shardOf[index[status.primaryNodeID]], true);
    } else {
      JoinWellFormed(input.desired, owners, l, p, input.pods[p].shardLabel.value, input.pods[p].primaryLabel);
    }
  }

  lemma FreeOwnNothing(desired: nat, owners: set<Pod>, d: Draft, named: set<Pod>, p: Pod)
    requires DraftOk(desired, owners, d, named)
    ensures p in d.free ==> p in named - owners
  {
    if p in d.free { assert p in PodSet(d.free); }
  }

  lemma {:induction false} AttachAllOk(input: Input, index: map<string, Pod>, owners: set<Pod>, l: ShardLayout,
                                       names: seq<Pod>)
    requires WellFormed(input.desired, owners, l) && l.shardOf.Keys == owners && Ascending(names)
    ensures DraftOk(input.desired, owners, AttachAll(input, index, l, names), owners + PodSet(names))
  {
    hide WellFormed, Attach;
    if names == [] {
      assert owners + PodSet(names) == owners;
    } else {
      var front, p := names[..|names| - 1], names[|names| - 1];
      AttachAllOk(input, index, owners, l, front);
      FreeOwnNothing(input.desired, owners, AttachAll(input, index, l, front), owners + PodSet(front), p);
      assert p !in front;
      AttachOk(input, index, owners, AttachAll(input, index, l, front), owners + PodSet(front), p);
      assert owners + PodSet(front) + {p} == owners + PodSet(names);
    }
  }

  lemma {:induction false} FilterProperties(desired: nat, pods: seq<Pod>, doomed: bool)
    requires Distinct(pods)
    ensures Distinct(Filter(desired, pods, doomed))
    ensures forall p :: p in Filter(desired, pods, doomed) <==> p in pods && (p >= desired) == doomed
  {
    if pods != [] {
      var front := pods[..|pods| - 1];
      FilterProperties(desired, front, doomed);
      assert pods == front + [pods[|pods| - 1]];
      var kept := Filter(desired, front, doomed);
      assert forall i :: 0 <= i < |kept| ==> kept[i] in front;
    }
  }

  lemma FillStepOk(desired: nat, owners: set<Pod>, d: Draft, named: set<Pod>, shard: nat)
    requires DraftOk(desired, owners, d, named) && d.free != [] && d.free[0] < desired && shard !in d.layout.primaryOf
    ensures DraftOk(desired, owners, Draft(d.layout.Assign(d.free[0], shard).WithPrimary(d.free[0], shard),
            d.free[1..]), named)
  {
    hide WellFormed;
    var p := d.free[0];
    AssignWellFormed(desired, owners, d.layout, p, shard);
    LeadWellFormed(desired, owners, d.layout.Assign(p, shard), p, shard);
    assert d.free == [p] + d.free[1..];
    assert PodSet(d.free) == PodSet(d.free[1..]) + {p};
  }

  lemma {:induction false} FillBelowOk(desired: nat, owners: set<Pod>, d: Draft, named: set<Pod>, k: nat)
    requires DraftOk(desired, owners, d, named) && forall p :: p in d.free ==> p < desired
    ensures DraftOk(desired, owners, FillBelow(d, k), named)
    ensures forall p :: p in FillBelow(d, k).free ==> p in d.free
    ensures FillBelow(d, k).layout.ownerOf == d.layout.ownerOf
  {
    hide WellFormed;
    if k > 0 {
      FillBelowOk(desired, owners, d, named, k - 1);
      var d1 := FillBelow(d, k - 1);
      if d1.free != [] && k - 1 !in d1.layout.primaryOf {
        assert d1.free[0] in d1.free;
        FillStepOk(desired, owners, d1, named, k - 1);
      }
    }
  }

  lemma {:induction false} BalanceOk(desired: nat, owners: set<Pod>, n: nat, l: ShardLayout, free: seq<Pod>)
    requires n > 0 && WellFormed(desired, owners, l) && Distinct(free) && l.shardOf.Keys !! PodSet(free)
    ensures WellFormed(desired, owners, Balance(n, l, free))
    ensures Balance(n, l, free).shardOf.Keys == l.shardOf.Keys + PodSet(free)
    ensures Balance(n, l, free).primaryOf == l.primaryOf && Balance(n, l, free).ownerOf == l.ownerOf
    ensures forall p :: p in l.shardOf ==> Balance(n, l, free).shardOf[p] == l.shardOf[p]
    ensures forall p :: p in free ==> Balance(n, l, free).shardOf[p] < n
  {
    if free != [] {
      var front, p := free[..|free| - 1], free[|free| - 1];
      assert free == front + [p];
      assert PodSet(free) == PodSet(front) + {p};
      BalanceOk(desired, owners, n, l, front);
      var l1 := Balance(n, l, front);
      assert p !in front;
      AssignWellFormed(desired, owners, l1, p, LeastLoaded(l1, n));
    }
  }

  lemma {:induction false} InsertPodProperties(pods: seq<Pod>, p: Pod)
    requires Ascending(pods) && p !in pods
    ensures Ascending(InsertPod(pods, p)) && |InsertPod(pods, p)| == |pods| + 1
    ensures forall q :: q in InsertPod(pods, p) <==> q in pods || q == p
  {
    if pods != [] && pods[|pods| - 1] > p {
      var front, last := pods[..|pods| - 1], pods[|pods| - 1];
      assert pods == front + [last];
      InsertPodProperties(front, p);
      var inserted := InsertPod(front, p);
      forall i | 0 <= i < |inserted| ensures inserted[i] < last {
        assert inserted[i] in inserted;
      }
    }
  }

  lemma {:induction false} SortPodsProperties(pods: seq<Pod>)
    requires Distinct(pods)
    ensures Ascending(SortPods(pods)) && |SortPods(pods)| == |pods|
    ensures forall q :: q in SortPods(pods) <==> q in pods
  {
    if pods != [] {
      SortPodsProperties(pods[..|pods| - 1]);
      assert pods == pods[..|pods| - 1] + [pods[|pods| - 1]];
      InsertPodProperties(SortPods(pods[..|pods| - 1]), pods[|pods| - 1]);
    }
  }

  lemma SortMembersOk(desired: nat, owners: set<Pod>, l: ShardLayout)
    requires WellFormed(desired, owners, l)
    ensures WellFormed(desired, owners, SortMembers(l))
    ensures forall s: nat :: Ascending(SortMembers(l).MembersOf(s)) && |SortMembers(l).MembersOf(s)| == |l.MembersOf(s)|
  {
    hide Consistent, Ascending;
    SortMembersConsistent(l);
  }

  lemma AscendingIsDistinct(pods: seq<Pod>)
    requires Ascending(pods)
    ensures Distinct(pods)
  {
  }

  lemma EmptyIsSorted()
    ensures SortPods([]) == []
  {
  }

  lemma SortMembersConsistent(l: ShardLayout)
    requires Consistent(l)
    ensures Consistent(SortMembers(l))
    ensures forall s: nat :: Ascending(SortMembers(l).MembersOf(s)) && |SortMembers(l).MembersOf(s)| == |l.MembersOf(s)|
  {
    hide SortPods, Ascending, Distinct;
    var l' := SortMembers(l);
    forall s: nat
      ensures Ascending(l'.MembersOf(s)) && Distinct(l'.MembersOf(s)) && |l'.MembersOf(s)| == |l.MembersOf(s)|
      ensures forall q :: q in l'.MembersOf(s) <==> q in l.MembersOf(s)
    {
      assert Distinct(l.MembersOf(s));
      SortPodsProperties(l.MembersOf(s));
      AscendingIsDistinct(SortPods(l.MembersOf(s)));
      EmptyIsSorted();
    }
    forall q, s: nat ensures q in l'.MembersOf(s) <==> l'.Placed(q, s) {
      assert q in l.MembersOf(s) <==> l.Placed(q, s);
    }
  }
}
