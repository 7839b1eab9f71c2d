/** Where a pod belongs by what it reports and how it is labelled, and who leads a shard that no surviving
    owner leads: the lowest of the survivors that follow a pod of the shard or carry its primary label. */
module Homes {
  import opened Types
  import opened Ranking
  import opened Layout
  import opened LayoutInvariant
  import opened PlanFacts
  import opened Totality
  import opened Rebalance
  import opened MembershipKept

  /** The pod reports as a replica of some node. */
  predicate Replicates(input: Input, p: Pod) {
    StatusOf(input.statuses, p).role == Slave && StatusOf(input.statuses, p).primaryNodeID != ""
  }

  /** The pod it follows, if that node was reported by one. */
  function Leader(input: Input, index: map<string, Pod>, p: Pod): Option<Pod> {
    var id := StatusOf(input.statuses, p).primaryNodeID;
    if Replicates(input, p) && id in index then Some(index[id]) else None
  }

  /** What the pod reports does not tell where it belongs: it was not polled, did not answer, or is a replica
      that does not say whom it follows. */
  predicate Silent(input: Input, p: Pod) {
    || p !in input.statuses || !input.statuses[p].connected
    || (input.statuses[p].role == Slave && input.statuses[p].primaryNodeID == "")
  }

  predicate LabelledFor(input: Input, p: Pod, s: nat) {
    p in input.pods && input.pods[p].shardLabel == Some(s) && s < input.n
  }

  /** The shard the pod it follows belongs to: a slot owner's, or that of a pod of lower ordinal. */
  ghost function FollowedHome(input: Input, index: map<string, Pod>, claims: map<Pod, nat>, p: Pod): Option<nat>
    decreases p, 0
  {
    match Leader(input, index, p)
    case None => None
    case Some(q) => if q in claims then Some(claims[q]) else if q < p then Home(input, index, claims, q) else None
  }

  /** The shard a pod belongs to: that of its claim, of the pod it follows, or of its label if it is silent. */
  ghost function Home(input: Input, index: map<string, Pod>, claims: map<Pod, nat>, p: Pod): Option<nat>
    decreases p, 1
  {
    if p in claims then Some(claims[p])
    else if !input.Named(p) then None
    else if FollowedHome(input, index, claims, p).Some? then FollowedHome(input, index, claims, p)
    else if Silent(input, p) && exists s :: LabelledFor(input, p, s) then
      var s :| LabelledFor(input, p, s);
      Some(s)
    else None
  }

  /** A survivor without a claim that follows a pod of the shard, or is silent and labelled as its primary. */
  ghost predicate Candidate(input: Input, index: map<string, Pod>, claims: map<Pod, nat>, s: nat, p: Pod) {
    && p < input.desired && p !in claims && Home(input, index, claims, p) == Some(s)
    && (FollowedHome(input, index, claims, p) == Some(s) || input.pods[p].primaryLabel)
  }

  // ---------------------------------------------------------------- attaching puts pods where they belong

  /** All named pods up to some ordinal. */
  ghost predicate NamesUpTo(input: Input, names: seq<Pod>) {
    && Ascending(names) && (forall p :: p in names ==> input.Named(p))
    && (forall p, q: Pod :: p in names && input.Named(q) && q < p ==> q in names)
  }

  /** Exactly the pods seen so far that have a home are placed, at home. */
  ghost predicate PlacedAtHome(input: Input, index: map<string, Pod>, l: ShardLayout, names: seq<Pod>, d: ShardLayout) {
    forall p, s: nat :: d.Placed(p, s) <==>
      (p in l.shardOf || p in names) && Home(input, index, l.shardOf, p) == Some(s)
  }

  /** A shard that was not led is led by its lowest candidate among the pods seen so far, if there is one. */
  ghost predicate LedByLowest(input: Input, index: map<string, Pod>, l: ShardLayout, names: seq<Pod>, d: ShardLayout) {
    && (forall s: nat, p :: s !in l.primaryOf && Candidate(input, index, l.shardOf, s, p) && p in names ==>
          s in d.primaryOf && d.primaryOf[s] <= p)
    && (forall s: nat :: s !in l.primaryOf && s in d.primaryOf ==>
          Candidate(input, index, l.shardOf, s, d.primaryOf[s]) && d.primaryOf[s] in names)
    && (forall s :: s in l.primaryOf ==> s in d.primaryOf && d.primaryOf[s] == l.primaryOf[s])
  }

  ghost predicate AtHome(input: Input, index: map<string, Pod>, l: ShardLayout, names: seq<Pod>, d: ShardLayout) {
    PlacedAtHome(input, index, l, names, d) && LedByLowest(input, index, l, names, d)
  }

  lemma {:induction false} AttachIsHome(input: Input, index: map<string, Pod>, l: ShardLayout, names: seq<Pod>)
    requires NamesUpTo(input, names)
    ensures AtHome(input, index, l, names, AttachAll(input, index, l, names).layout)
  {
    if names == [] {
      NobodyYet(input, index, l);
    } else {
      var front, p := names[..|names| - 1], names[|names| - 1];
      assert names == front + [p];
      assert NamesUpTo(input, front) by { FrontIsUpTo(input, names); }
      AttachIsHome(input, index, l, front);
      OneMoreHome(input, index, l, front, p, AttachAll(input, index, l, front));
    }
  }

  lemma NobodyYet(input: Input, index: map<string, Pod>, l: ShardLayout)
    ensures AtHome(input, index, l, [], l)
  {
    forall p, s: nat ensures l.Placed(p, s) <==> p in l.shardOf && Home(input, index, l.shardOf, p) == Some(s) {
    }
  }

  lemma FrontIsUpTo(input: Input, names: seq<Pod>)
    requires NamesUpTo(input, names) && names != []
    ensures NamesUpTo(input, names[..|names| - 1])
    ensures forall q: Pod :: q in names[..|names| - 1] <==> input.Named(q) && q < names[|names| - 1]
  {
    var front, p := names[..|names| - 1], names[|names| - 1];
    assert names == front + [p];
    forall q | q in front ensures q < p {
      var i :| 0 <= i < |front| && front[i] == q;
      assert names[i] < names[|names| - 1];
    }
    forall q: Pod | input.Named(q) && q < p ensures q in front { assert p in names; }
  }

  /** Whom the pod follows is placed already exactly when following him gives it a home. */
  lemma FollowingIsSeen(input: Input, index: map<string, Pod>, l: ShardLayout, front: seq<Pod>, p: Pod, d: ShardLayout)
    requires AtHome(input, index, l, front, d)
    requires forall q: Pod :: q in front <==> input.Named(q) && q < p
    ensures FollowedHome(input, index, l.shardOf, p).Some? <==>
            Leader(input, index, p).Some? && Leader(input, index, p).value in d.shardOf
    ensures FollowedHome(input, index, l.shardOf, p).Some? ==>
            FollowedHome(input, index, l.shardOf, p) == Some(d.shardOf[Leader(input, index, p).value])
  {
    if Leader(input, index, p).Some? {
      var q := Leader(input, index, p).value;
      if q in d.shardOf { assert d.Placed(q, d.shardOf[q]); }
      if q < p && q !in l.shardOf && Home(input, index, l.shardOf, q).Some? {
        assert q in front;
        assert d.Placed(q, Home(input, index, l.shardOf, q).value);
      }
      if q in l.shardOf { assert d.Placed(q, l.shardOf[q]); }
    }
  }

  lemma SilentIsUnseen(input: Input, p: Pod)
    ensures var status := StatusOf(input.statuses, p);
            Silent(input, p) <==>
            !(p in input.statuses && status.connected && (status.role != Slave || status.primaryNodeID != ""))
  {
  }

  /** What attaching one pod does, in terms of its home. */
  lemma AttachGoesHome(input: Input, index: map<string, Pod>, l: ShardLayout, front: seq<Pod>, p: Pod, d: Draft)
    requires AtHome(input, index, l, front, d.layout) && p !in l.shardOf && input.Named(p)
    requires forall q: Pod :: q in front <==> input.Named(q) && q < p
    ensures p !in d.layout.shardOf
    ensures var home := Home(input, index, l.shardOf, p);
            var after := Attach(input, index, d, p).layout;
            if home.None? then after == d.layout
            else after == d.layout.Join(input.desired, p, home.value,
                                        FollowedHome(input, index, l.shardOf, p).Some? || input.pods[p].primaryLabel)
  {
    if p in d.layout.shardOf { assert d.layout.Placed(p, d.layout.shardOf[p]); }
    FollowingIsSeen(input, index, l, front, p, d.layout);
    SilentIsUnseen(input, p);
    if Silent(input, p) && p in input.pods && input.pods[p].shardLabel.Some?
       && input.pods[p].shardLabel.value < input.n {
      assert LabelledFor(input, p, input.pods[p].shardLabel.value);
    }
  }

  lemma OneMoreHome(input: Input, index: map<string, Pod>, l: ShardLayout, front: seq<Pod>, p: Pod, d: Draft)
    requires AtHome(input, index, l, front, d.layout) && input.Named(p)
    requires forall q: Pod :: q in front <==> input.Named(q) && q < p
    ensures AtHome(input, index, l, front + [p], Attach(input, index, d, p).layout)
  {
    hide Attach, Home, FollowedHome;
    if p in l.shardOf {
      assert d.layout.Placed(p, l.shardOf[p]) by { ClaimIsHome(input, index, l, p); }
      assert Attach(input, index, d, p) == d by { PlacedIsLeft(input, index, d, p); }
    } else {
      AttachGoesHome(input, index, l, front, p, d);
      var home := Home(input, index, l.shardOf, p);
      if home.None? {
        NoHomeNoChange(input, index, l, front, p, d.layout);
      } else {
        JoinIsHome(input, index, l, front, p, home.value, d.layout);
      }
    }
  }

  lemma NoHomeNoChange(input: Input, index: map<string, Pod>, l: ShardLayout, front: seq<Pod>, p: Pod, d: ShardLayout)
    requires AtHome(input, index, l, front, d) && Home(input, index, l.shardOf, p) == None
    ensures AtHome(input, index, l, front + [p], d)
  {
    hide Home, FollowedHome;
  }

  lemma CandidateIs(input: Input, index: map<string, Pod>, claims: map<Pod, nat>, s: nat, p: Pod)
    requires p !in claims && input.Named(p) && Home(input, index, claims, p) == Some(s)
    ensures FollowedHome(input, index, claims, p).None? ==> p in input.pods
    ensures Candidate(input, index, claims, s, p) <==>
            p < input.desired && (FollowedHome(input, index, claims, p).Some? || input.pods[p].primaryLabel)
  {
  }

  lemma JoinPlaces(input: Input, index: map<string, Pod>, l: ShardLayout, front: seq<Pod>, p: Pod, s: nat,
                   d: ShardLayout, mayLead: bool)
    requires PlacedAtHome(input, index, l, front, d) && p !in d.shardOf
    requires Home(input, index, l.shardOf, p) == Some(s)
    ensures PlacedAtHome(input, index, l, front + [p], d.Join(input.desired, p, s, mayLead))
  {
    hide Home;
    var after := d.Join(input.desired, p, s, mayLead);
    forall q, r: nat ensures after.Placed(q, r) <==>
      (q in l.shardOf || q in front + [p]) && Home(input, index, l.shardOf, q) == Some(r)
    {
      assert after.Placed(q, r) <==> (if q == p then r == s else d.Placed(q, r));
    }
  }

  lemma JoinLeads(input: Input, index: map<string, Pod>, l: ShardLayout, front: seq<Pod>, p: Pod, s: nat,
                  d: ShardLayout, mayLead: bool)
    requires LedByLowest(input, index, l, front, d) && forall q: Pod :: q in front ==> q < p
    requires Candidate(input, index, l.shardOf, s, p) <==> p < input.desired && mayLead
    requires forall r: nat :: Candidate(input, index, l.shardOf, r, p) ==> r == s
    ensures LedByLowest(input, index, l, front + [p], d.Join(input.desired, p, s, mayLead))
  {
    hide Candidate, LedByLowest;
    var after := d.Join(input.desired, p, s, mayLead);
    if mayLead && s !in d.primaryOf && p < input.desired {
      assert after.primaryOf == d.primaryOf[s := p];
      NewLeader(input, index, l, front, p, s, d, after);
    } else {
      SameLeader(input, index, l, front, p, s, d, after);
    }
  }

  lemma NewLeader(input: Input, index: map<string, Pod>, l: ShardLayout, front: seq<Pod>, p: Pod, s: nat,
                  d: ShardLayout, after: ShardLayout)
    requires LedByLowest(input, index, l, front, d) && Candidate(input, index, l.shardOf, s, p)
    requires forall r: nat :: Candidate(input, index, l.shardOf, r, p) ==> r == s
    requires s !in d.primaryOf && after.primaryOf == d.primaryOf[s := p]
    ensures LedByLowest(input, index, l, front + [p], after)
  {
    hide Candidate;
    forall r: nat, q: Pod | r !in l.primaryOf && Candidate(input, index, l.shardOf, r, q) && q in front + [p]
      ensures r in after.primaryOf && after.primaryOf[r] <= q
    {
      assert q in front || (q == p && r == s);
    }
  }

  lemma SameLeader(input: Input, index: map<string, Pod>, l: ShardLayout, front: seq<Pod>, p: Pod, s: nat,
                   d: ShardLayout, after: ShardLayout)
    requires LedByLowest(input, index, l, front, d) && forall q: Pod :: q in front ==> q < p
    requires forall r: nat :: Candidate(input, index, l.shardOf, r, p) ==> r == s && s in d.primaryOf
    requires after.primaryOf == d.primaryOf
    ensures LedByLowest(input, index, l, front + [p], after)
  {
    hide Candidate;
    forall r: nat, q: Pod | r !in l.primaryOf && Candidate(input, index, l.shardOf, r, q) && q in front + [p]
      ensures r in after.primaryOf && after.primaryOf[r] <= q
    {
      assert q in front || (q == p && r == s);
    }
  }

  lemma JoinIsHome(input: Input, index: map<string, Pod>, l: ShardLayout, front: seq<Pod>, p: Pod, s: nat,
                   d: ShardLayout)
    requires AtHome(input, index, l, front, d) && p !in l.shardOf && input.Named(p) && p !in d.shardOf
    requires Home(input, index, l.shardOf, p) == Some(s) && forall q: Pod :: q in front ==> q < p
    ensures FollowedHome(input, index, l.shardOf, p).None? ==> p in input.pods
    ensures AtHome(input, index, l, front + [p],
                   d.Join(input.desired, p, s,
                          FollowedHome(input, index, l.shardOf, p).Some? || input.pods[p].primaryLabel))
  {
    hide Home, FollowedHome, Candidate, PlacedAtHome, LedByLowest;
    CandidateIs(input, index, l.shardOf, s, p);
    var mayLead := FollowedHome(input, index, l.shardOf, p).Some? || input.pods[p].primaryLabel;
    forall r: nat | Candidate(input, index, l.shardOf, r, p) ensures r == s {
      CandidateHome(input, index, l.shardOf, r, p);
    }
    JoinPlaces(input, index, l, front, p, s, d, mayLead);
    JoinLeads(input, index, l, front, p, s, d, mayLead);
  }

  lemma CandidateHome(input: Input, index: map<string, Pod>, claims: map<Pod, nat>, s: nat, p: Pod)
    requires Candidate(input, index, claims, s, p)
    ensures Home(input, index, claims, p) == Some(s)
  {
  }

  lemma ClaimIsHome(input: Input, index: map<string, Pod>, l: ShardLayout, p: Pod)
    requires p in l.shardOf
    ensures Home(input, index, l.shardOf, p) == Some(l.shardOf[p])
  {
  }

  lemma PlacedIsLeft(input: Input, index: map<string, Pod>, d: Draft, p: Pod)
    requires p in d.layout.shardOf
    ensures Attach(input, index, d, p) == d
  {
  }

  // ---------------------------------------------------------------- the plan keeps it

  /** The slot owners and their shards. */
  ghost function OwnerShards(input: Input, l: ShardLayout): map<Pod, nat> {
    map p | p in l.shardOf && input.OwnsSlots(p) :: l.shardOf[p]
  }

  lemma OwnerShardsAreClaims(input: Input, ch: Choices, l: ShardLayout)
    requires input.Valid() && PlannedWith(input, ch, l)
    ensures OwnerShards(input, l) == ch.claims && ch.owned.shardOf == ch.claims
  {
    hide PlannedWith;
    PlannedClaims(input, ch, l);
    OwnersAre(input, ch);
    OwnedKeys(input, ch, l);
    OwnersKeepClaims(input, ch, l);
    forall p ensures p in OwnerShards(input, l) <==> p in ch.claims {
      if p in OwnerShards(input, l) { PlacedIffNamed(input, ch, l, p); }
      if p in ch.claims { assert p in Owners(input, ch); }
    }
  }

  /** Whoever leads after filling leads to the end. */
  lemma FilledLeadersStay(input: Input, ch: Choices, l: ShardLayout)
    requires input.Valid() && PlannedWith(input, ch, l)
    ensures forall s :: s in Filled(input, ch).layout.primaryOf ==>
              s in l.primaryOf && l.primaryOf[s] == Filled(input, ch).layout.primaryOf[s]
  {
    FilledFacts(input, ch, l);
    HeirsKeepPrimaries(input.desired, Owners(input, ch), ch.heirs, input.n);
    FinalFacts(input, ch, l);
  }

  /** Whoever leads after attaching leads to the end. */
  lemma LeadersStay(input: Input, ch: Choices, l: ShardLayout)
    requires input.Valid() && PlannedWith(input, ch, l)
    ensures var first := Attached(input, ch).layout.primaryOf;
            forall s :: s in first ==> s in l.primaryOf && l.primaryOf[s] == first[s]
  {
    hide WellFormed, Attach;
    FilledFacts(input, ch, l);
    FillExtends(input.desired, Owners(input, ch), Survivors(input, ch),
                PodSet(ch.names) - PodSet(Filter(input.desired, Attached(input, ch).free, true)), input.n);
    HeirsKeepPrimaries(input.desired, Owners(input, ch), ch.heirs, input.n);
    FinalFacts(input, ch, l);
  }

  lemma AttachedAtHome(input: Input, ch: Choices, l: ShardLayout)
    requires input.Valid() && PlannedWith(input, ch, l)
    ensures AtHome(input, ch.index, ch.owned, ch.names, Attached(input, ch).layout)
  {
    assert NamesUpTo(input, ch.names);
    AttachIsHome(input, ch.index, ch.owned, ch.names);
  }

  /** A shard that no surviving owner holds. */
  ghost predicate Orphaned(input: Input, l: ShardLayout, s: nat) {
    s in l.ownerOf ==> l.ownerOf[s] >= input.desired
  }

  lemma OrphansAre(input: Input, ch: Choices, l: ShardLayout, s: nat)
    requires input.Valid() && PlannedWith(input, ch, l)
    ensures Orphaned(input, l, s) <==> s !in ch.owned.primaryOf
  {
    FinalFacts(input, ch, l);
  }

  /** A survivor taken from its shard to lead one whose owner is doomed. */
  ghost predicate BorrowedHeir(l: ShardLayout, p: Pod) {
    exists s :: l.IsPrimaryOf(p, s) && l.HandingOver(s)
  }

  lemma HomeIsKept(input: Input, ch: Choices, l: ShardLayout, p: Pod, s: nat)
    requires input.Valid() && PlannedWith(input, ch, l) && input.Named(p)
    requires Home(input, ch.index, ch.owned.shardOf, p) == Some(s)
    ensures l.Placed(p, s) || BorrowedHeir(l, p)
  {
    hide PlannedWith, Attach, Home, FollowedHome;
    PlannedClaims(input, ch, l);
    AttachedAtHome(input, ch, l);
    assert p in ch.names && Attached(input, ch).layout.Placed(p, s);
    PlacedStays(input, ch, l, p);
  }

  /** Planning goes by where pods belong: a pod that has a home is planned there unless it is borrowed as an
      heir, and a shard that no surviving owner holds is led by its lowest candidate, if there is any. */
  lemma PlanGoesByHomes(input: Input, l: ShardLayout) returns (index: map<string, Pod>)
    requires input.Valid() && Planned(input, l)
    ensures IsNodeIndex(input.statuses, index)
    ensures forall p, s: nat :: input.Named(p) && Home(input, index, OwnerShards(input, l), p) == Some(s) ==>
              l.Placed(p, s) || BorrowedHeir(l, p)
    ensures forall s: nat, p :: Orphaned(input, l, s) && Candidate(input, index, OwnerShards(input, l), s, p) ==>
              && s in l.primaryOf && l.primaryOf[s] <= p
              && Candidate(input, index, OwnerShards(input, l), s, l.primaryOf[s])
  {
    hide PlannedWith, Attach, Candidate, Orphaned, Home, BorrowedHeir;
    var ch :| PlannedWith(input, ch, l);
    index := ch.index;
    PlannedClaims(input, ch, l);
    OwnerShardsAreClaims(input, ch, l);
    forall p, s: nat | input.Named(p) && Home(input, index, OwnerShards(input, l), p) == Some(s)
      ensures l.Placed(p, s) || BorrowedHeir(l, p)
    {
      HomeIsKept(input, ch, l, p, s);
    }
    forall s: nat, p | Orphaned(input, l, s) && Candidate(input, index, OwnerShards(input, l), s, p)
      ensures && s in l.primaryOf && l.primaryOf[s] <= p
              && Candidate(input, index, OwnerShards(input, l), s, l.primaryOf[s])
    {
      CandidateLeads(input, ch, l, s, p);
    }
  }

  lemma CandidateLeads(input: Input, ch: Choices, l: ShardLayout, s: nat, p: Pod)
    requires input.Valid() && PlannedWith(input, ch, l) && Orphaned(input, l, s)
    requires Candidate(input, ch.index, ch.owned.shardOf, s, p)
    ensures s in l.primaryOf && l.primaryOf[s] <= p && Candidate(input, ch.index, ch.owned.shardOf, s, l.primaryOf[s])
  {
    hide PlannedWith, Attach, Home, FollowedHome;
    PlannedClaims(input, ch, l);
    OrphansAre(input, ch, l, s);
    AttachedAtHome(input, ch, l);
    assert input.Named(p) && p in ch.names;
    LeadersStay(input, ch, l);
  }

  /** A survivor without slots that replicates the owner. */
  ghost predicate FollowsOwner(input: Input, owner: Pod, p: Pod) {
    && p < input.desired && !input.OwnsSlots(p) && owner in input.statuses
    && StatusOf(input.statuses, p).role == Slave
    && StatusOf(input.statuses, p).primaryNodeID == input.statuses[owner].nodeID != ""
  }

  /** A survivor without slots whose role cannot be observed and whose labels call it the primary of the shard. */
  ghost predicate LabelledPrimary(input: Input, s: nat, p: Pod) {
    && p < input.desired && !input.OwnsSlots(p) && Unobservable(input, p)
    && LabelledFor(input, p, s) && input.pods[p].primaryLabel
  }

  lemma FollowerIsCandidate(input: Input, index: map<string, Pod>, claims: map<Pod, nat>, owner: Pod, p: Pod)
    requires IsNodeIndex(input.statuses, index) && UniqueNodes(input.statuses)
    requires FollowsOwner(input, owner, p) && owner in claims && p !in claims
    ensures Candidate(input, index, claims, claims[owner], p)
  {
    assert index[input.statuses[owner].nodeID] == owner;
    assert FollowedHome(input, index, claims, p) == Some(claims[owner]);
  }

  lemma LabelledIsCandidate(input: Input, index: map<string, Pod>, claims: map<Pod, nat>, s: nat, p: Pod)
    requires LabelledPrimary(input, s, p) && p !in claims
    ensures Candidate(input, index, claims, s, p)
  {
    assert Silent(input, p) && Leader(input, index, p) == None;
  }

  /** The shard of a doomed owner is led by the lowest of the survivors that follow the owner or that are
      labelled as the shard's primary and cannot be observed, or by an even lower survivor that follows its
      way there through other pods. */
  lemma DoomedShardIsLed(input: Input, l: ShardLayout, owner: Pod, p: Pod)
    requires input.Valid() && Planned(input, l) && UniqueNodes(input.statuses)
    requires IsOwner(input, owner) && owner >= input.desired && owner in l.shardOf
    requires FollowsOwner(input, owner, p) || LabelledPrimary(input, l.shardOf[owner], p)
    ensures var s := l.shardOf[owner];
            s in l.primaryOf && l.primaryOf[s] <= p && !input.OwnsSlots(l.primaryOf[s])
  {
    hide Planned, Candidate;
    var index := PlanGoesByHomes(input, l);
    var claims, s := OwnerShards(input, l), l.shardOf[owner];
    PlanIsWellFormed(input, l);
    assert owner in claims && p !in claims && Orphaned(input, l, s);
    if FollowsOwner(input, owner, p) {
      FollowerIsCandidate(input, index, claims, owner, p);
    } else {
      LabelledIsCandidate(input, index, claims, s, p);
    }
    CandidateHasNoSlots(input, index, l, s, l.primaryOf[s]);
  }

  lemma CandidateHasNoSlots(input: Input, index: map<string, Pod>, l: ShardLayout, s: nat, p: Pod)
    requires Candidate(input, index, OwnerShards(input, l), s, p) && forall q :: input.Named(q) ==> q in l.shardOf
    ensures !input.OwnsSlots(p)
  {
    assert input.Named(p);
  }

  // ---------------------------------------------------------------- when nobody is left

  lemma {:induction false} UnownedGetsNoHeir(desired: nat, trace: seq<ShardLayout>, k: nat, s: nat)
    requires k < |trace| && HeirTrace(desired, trace[0], trace) && s !in trace[0].ownerOf && s !in trace[0].primaryOf
    ensures s !in trace[k].primaryOf && s !in trace[k].ownerOf
  {
    if k > 0 {
      UnownedGetsNoHeir(desired, trace, k - 1, s);
      HeirTraceStep(desired, trace, k - 1);
    }
  }

  lemma {:induction false} NothingToFill(d: Draft, k: nat)
    requires d.free == []
    ensures FillBelow(d, k) == d
  {
    if k > 0 { NothingToFill(d, k - 1); }
  }

  /** Which pod reported a node ID is determined when no two report the same. */
  lemma IndexIsUnique(statuses: Statuses, index: map<string, Pod>, index': map<string, Pod>)
    requires UniqueNodes(statuses) && IsNodeIndex(statuses, index) && IsNodeIndex(statuses, index')
    ensures index' == index
  {
    assert index'.Keys == index.Keys;
    forall id | id in index ensures index'[id] == index[id] {
      assert statuses[index[id]].nodeID == statuses[index'[id]].nodeID;
    }
  }

  /** A shard without an owner is left without a primary when every survivor belongs to some shard and none is a
      candidate for this one. */
  lemma NobodyLeads(input: Input, l: ShardLayout, index: map<string, Pod>, s: nat)
    requires input.Valid() && Planned(input, l) && UniqueNodes(input.statuses) && IsNodeIndex(input.statuses, index)
    requires s !in l.ownerOf
    requires forall p: Pod :: p < input.desired ==>
               && Home(input, index, OwnerShards(input, l), p).Some?
               && !Candidate(input, index, OwnerShards(input, l), s, p)
    ensures s !in l.primaryOf
  {
    hide PlannedWith, Attach, Candidate, Home, FollowedHome;
    var ch :| PlannedWith(input, ch, l);
    PlannedClaims(input, ch, l);
    OwnerShardsAreClaims(input, ch, l);
    IndexIsUnique(input.statuses, index, ch.index);
    AttachedAtHome(input, ch, l);
    var d := Attached(input, ch);
    OwnersOfPhases(input, ch, l);
    assert s !in d.layout.primaryOf by {
      assert s !in ch.owned.primaryOf by { OrphansAre(input, ch, l, s); }
      if s in d.layout.primaryOf { CandidateSurvives(input, ch.index, ch.owned.shardOf, s, d.layout.primaryOf[s]); }
    }
    assert Survivors(input, ch).free == [] by { NobodyIsFree(input, ch, l); }
    NothingToFill(Survivors(input, ch), input.n);
    LedInTheEnd(input, ch, l, s);
  }

  lemma CandidateSurvives(input: Input, index: map<string, Pod>, claims: map<Pod, nat>, s: nat, p: Pod)
    requires Candidate(input, index, claims, s, p)
    ensures p < input.desired
  {
  }

  lemma OwnersOfPhases(input: Input, ch: Choices, l: ShardLayout)
    requires input.Valid() && PlannedWith(input, ch, l)
    ensures Attached(input, ch).layout.ownerOf == l.ownerOf && Filled(input, ch).layout.ownerOf == l.ownerOf
    ensures Filled(input, ch) == FillBelow(Survivors(input, ch), input.n)
  {
    AttachedFacts(input, ch, l);
    FilledFacts(input, ch, l);
    FinalFacts(input, ch, l);
  }

  lemma SomeoneIn(pods: seq<Pod>)
    requires pods != []
    ensures exists p :: p in pods
  {
    assert pods[0] in pods;
  }

  lemma NobodyIsFree(input: Input, ch: Choices, l: ShardLayout)
    requires input.Valid() && PlannedWith(input, ch, l)
    requires AtHome(input, ch.index, ch.owned, ch.names, Attached(input, ch).layout)
    requires forall p: Pod :: p < input.desired ==> Home(input, ch.index, ch.owned.shardOf, p).Some?
    ensures Survivors(input, ch).free == []
  {
    hide PlannedWith, Attach, Home, FollowedHome, LedByLowest;
    AttachedFacts(input, ch, l);
    FilledFacts(input, ch, l);
    PlannedClaims(input, ch, l);
    var d := Attached(input, ch);
    FilterProperties(input.desired, d.free, false);
    forall p: Pod | p < input.desired ensures p in d.layout.shardOf {
      assert input.Named(p) && p in ch.names;
      assert d.layout.Placed(p, Home(input, ch.index, ch.owned.shardOf, p).value);
    }
    assert d.layout.shardOf.Keys !! PodSet(d.free);
    var free := Survivors(input, ch).free;
    assert forall p :: p in free ==> p in PodSet(d.free);
    if free != [] { SomeoneIn(free); }
  }

  lemma LedInTheEnd(input: Input, ch: Choices, l: ShardLayout, s: nat)
    requires input.Valid() && PlannedWith(input, ch, l)
    requires s !in Filled(input, ch).layout.primaryOf && s !in Filled(input, ch).layout.ownerOf
    ensures s !in l.primaryOf
  {
    FinalFacts(input, ch, l);
    UnownedGetsNoHeir(input.desired, ch.heirs, input.n, s);
  }
}
