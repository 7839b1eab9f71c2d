/** From attaching the heir of a doomed owner to the beginning of the handover: once the heir is seen following
    the owner of its shard over a link that is up, the next pass that nothing holds up begins the handover. An
    heir attached to the owner of another shard is planned there instead, and its own shard goes without it. */
module HandoverBegins {
  import opened Types
  import opened Slots
  import opened Matching
  import opened Layout
  import opened PlanFacts
  import opened Totality
  import opened Rebalance
  import opened ReplicaMoves
  import opened Ownership
  import opened Convergence
  import opened Reshard
  import opened ReshardRuns
  import opened Homes
  import opened Decisions

  ghost predicate SameReport(input: Input, input': Input, p: Pod) {
    && (p in input.statuses <==> p in input'.statuses) && (p in input.pods <==> p in input'.pods)
    && (p in input.statuses ==> input'.statuses[p] == input.statuses[p])
    && (p in input.pods ==> input'.pods[p] == input.pods[p])
  }

  /** Nobody's slots or node ID have changed, and nothing about the pods of lower ordinal than the heir. */
  ghost predicate SameBelow(input: Input, input': Input, heir: Pod) {
    && input'.n == input.n && input'.desired == input.desired
    && SameSlots(input.statuses, input'.statuses)
    && (forall p :: StatusOf(input'.statuses, p).nodeID == StatusOf(input.statuses, p).nodeID)
    && (forall p: Pod :: p < heir ==> SameReport(input, input', p))
  }

  /** Which pod reported a node ID is determined when no two report the same. */
  lemma SameIndex(input: Input, input': Input, heir: Pod, index: map<string, Pod>, index': map<string, Pod>)
    requires SameBelow(input, input', heir) && UniqueNodes(input.statuses)
    requires IsNodeIndex(input.statuses, index) && IsNodeIndex(input'.statuses, index')
    ensures index' == index
  {
    forall id | id in index ensures id in index' && index'[id] == index[id] {
      assert StatusOf(input'.statuses, index[id]).nodeID == id;
      assert StatusOf(input.statuses, index'[id]).nodeID == id;
    }
    forall id | id in index' ensures id in index {
      assert StatusOf(input.statuses, index'[id]).nodeID == id;
    }
  }

  lemma {:induction false} SameHome(input: Input, input': Input, heir: Pod, index: map<string, Pod>,
                                    claims: map<Pod, nat>, p: Pod)
    requires SameBelow(input, input', heir) && p < heir < input.desired
    ensures Home(input', index, claims, p) == Home(input, index, claims, p)
    ensures FollowedHome(input', index, claims, p) == FollowedHome(input, index, claims, p)
    decreases p
  {
    hide SameSlots;
    assert SameReport(input, input', p);
    assert Leader(input', index, p) == Leader(input, index, p);
    if Leader(input, index, p).Some? && Leader(input, index, p).value < p {
      SameHome(input, input', heir, index, claims, Leader(input, index, p).value);
    }
    assert forall s :: LabelledFor(input', p, s) <==> LabelledFor(input, p, s);
  }

  lemma SameCandidate(input: Input, input': Input, heir: Pod, index: map<string, Pod>, claims: map<Pod, nat>, s: nat,
                      p: Pod)
    requires SameBelow(input, input', heir) && p < heir < input.desired
    requires Candidate(input', index, claims, s, p)
    ensures Candidate(input, index, claims, s, p)
  {
    SameHome(input, input', heir, index, claims, p);
    assert SameReport(input, input', p);
  }

  lemma SameOwnerShards(input: Input, own: Owner, l: ShardLayout, input': Input, l': ShardLayout, heir: Pod)
    requires input.Valid() && input'.Valid() && Planned(input, l) && Planned(input', l')
    requires Observes(input, own) && Observes(input', own) && SameBelow(input, input', heir)
    ensures OwnerShards(input', l') == OwnerShards(input, l)
    ensures l'.ownerOf == l.ownerOf
  {
    hide PlannedWith, SameSlots, Observes, Owners, OwnerShards;
    var ch :| PlannedWith(input, ch, l);
    var ch' :| PlannedWith(input', ch', l');
    OwnerShardsAreClaims(input, ch, l);
    OwnerShardsAreClaims(input', ch', l');
    SameSlotOwners(input, own, ch, l, input', ch', l', heir);
    SameClaims(input, ch, l, input', ch', l');
    OwnersOfClaims(input, ch, l);
    OwnersOfClaims(input', ch', l');
    SameOwnerOf(ch.claims, l, l');
  }

  /** Who owns which shard is the claims read backwards. */
  ghost predicate OwnersClaim(claims: map<Pod, nat>, l: ShardLayout) {
    && (forall p :: p in claims ==> claims[p] in l.ownerOf && l.ownerOf[claims[p]] == p)
    && (forall s :: s in l.ownerOf ==> l.ownerOf[s] in claims && claims[l.ownerOf[s]] == s)
  }

  lemma SameOwnerOf(claims: map<Pod, nat>, l: ShardLayout, l': ShardLayout)
    requires OwnersClaim(claims, l) && OwnersClaim(claims, l')
    ensures l'.ownerOf == l.ownerOf
  {
    assert l'.ownerOf.Keys == l.ownerOf.Keys;
  }

  lemma OwnersOfClaims(input: Input, ch: Choices, l: ShardLayout)
    requires input.Valid() && PlannedWith(input, ch, l)
    ensures OwnersClaim(ch.claims, l)
  {
    FinalFacts(input, ch, l);
    OwnedFacts(input, ch, l);
    forall s | s in l.ownerOf ensures l.ownerOf[s] in ch.claims && ch.claims[l.ownerOf[s]] == s {
      assert s in ch.claims.Values;
    }
  }

  lemma SameSlotOwners(input: Input, own: Owner, ch: Choices, l: ShardLayout, input': Input, ch': Choices,
                       l': ShardLayout, heir: Pod)
    requires input.Valid() && input'.Valid() && PlannedWith(input, ch, l) && PlannedWith(input', ch', l')
    requires Observes(input, own) && Observes(input', own) && SameBelow(input, input', heir)
    ensures Owners(input, ch) == Owners(input', ch')
  {
    hide PlannedWith, Observes;
    PlannedClaims(input, ch, l);
    PlannedClaims(input', ch', l');
    OwnersAre(input, ch);
    OwnersAre(input', ch');
    forall p ensures IsOwner(input, p) <==> IsOwner(input', p) {
      assert StatusOf(input.statuses, p).slotsServed == StatusOf(input'.statuses, p).slotsServed;
      if input.OwnsSlots(p) {
        OwnersAreNamed(input, own, p);
        OwnersAreNamed(input', own, p);
      }
    }
  }

  lemma OwnersAreNamed(input: Input, own: Owner, p: Pod)
    requires Observes(input, own) && input.OwnsSlots(p)
    ensures input.Named(p)
  {
    OwnerServes(input, own, p);
    var x :| Owns(own, p, x);
    assert input.Named(own[x]);
  }

  // ---------------------------------------------------------------- the heir keeps the lead

  /** An heir that led the shard of a doomed owner leads it still when it is seen following the owner. */
  lemma HeirStillLeads(input: Input, own: Owner, l: ShardLayout, input': Input, l': ShardLayout, s: nat, heir: Pod)
    requires input.Valid() && input'.Valid() && Planned(input, l) && Planned(input', l')
    requires Observes(input, own) && Observes(input', own) && SameBelow(input, input', heir)
    requires UniqueNodes(input.statuses) && UniqueNodes(input'.statuses)
    requires s in l.ownerOf && l.ownerOf[s] >= input.desired && l.IsPrimaryOf(heir, s)
    requires Follows(input'.statuses, heir, l.ownerOf[s]) && StatusOf(input'.statuses, l.ownerOf[s]).nodeID != ""
    ensures l'.IsPrimaryOf(heir, s) && l'.ownerOf == l.ownerOf
  {
    hide Planned, Observes, SameBelow, Candidate, Home, FollowedHome, OwnerShards;
    var index := PlanGoesByHomes(input, l);
    var index' := PlanGoesByHomes(input', l');
    SameIndex(input, input', heir, index, index');
    SameOwnerShards(input, own, l, input', l', heir);
    PlanIsWellFormed(input, l);
    PlanIsWellFormed(input', l');
    var claims := OwnerShards(input, l);
    HeirIsCandidate(input, l, input', l', index, s, heir);
    assert input'.desired == input.desired by { SameSizes(input, input', heir); }
    assert Orphaned(input, l, s) && Orphaned(input', l', s);
    var leader := l'.primaryOf[s];
    if leader < heir {
      SameCandidate(input, input', heir, index, claims, s, leader);
    }
  }

  lemma SameSizes(input: Input, input': Input, heir: Pod)
    requires SameBelow(input, input', heir)
    ensures input'.n == input.n && input'.desired == input.desired
  {
  }

  lemma HeirIsCandidate(input: Input, l: ShardLayout, input': Input, l': ShardLayout, index: map<string, Pod>, s: nat,
                        heir: Pod)
    requires input.Valid() && input'.Valid() && Planned(input, l) && Planned(input', l')
    requires SameBelow(input, input', heir) && l'.ownerOf == l.ownerOf && IsNodeIndex(input'.statuses, index)
    requires UniqueNodes(input'.statuses)
    requires s in l.ownerOf && l.ownerOf[s] >= input.desired && l.IsPrimaryOf(heir, s)
    requires Follows(input'.statuses, heir, l.ownerOf[s]) && StatusOf(input'.statuses, l.ownerOf[s]).nodeID != ""
    ensures Candidate(input', index, OwnerShards(input', l'), s, heir) && heir < input.desired
  {
    hide Planned, Candidate;
    PlanIsWellFormed(input, l);
    PlanIsWellFormed(input', l');
    var owner := l.ownerOf[s];
    OwnerOfIsOwner(input', l', s);
    OwnerOfIsOwner(input, l, s);
    assert l.Placed(heir, s) && !input.OwnsSlots(heir);
    assert StatusOf(input.statuses, heir).slotsServed == StatusOf(input'.statuses, heir).slotsServed;
    assert FollowsOwner(input', owner, heir);
    FollowerIsCandidate(input', index, OwnerShards(input', l'), owner, heir);
  }

  // ---------------------------------------------------------------- the next pass

  /** The slots that are where they should be do not depend on which plan was made for the same owners. */
  lemma SameFirstMisplaced(input: Input, own: Owner, l: ShardLayout, input': Input, l': ShardLayout, x: int)
    requires input.Valid() && Planned(input, l) && Observes(input, own)
    requires input'.Valid() && Planned(input', l') && Observes(input', own) && input'.n == input.n
             && input'.desired == input.desired
    requires FirstMisplaced(own, input.n, l, x)
    ensures FirstMisplaced(own, input.n, l', x)
  {
    hide Planned, Observes, Stable;
    var claims := ClaimsBehind(input, own, l);
    var claims' := ClaimsBehind(input', own, l');
    StableIsUnique(OwnMarket(own, input.n), claims, claims');
    forall y | 0 <= y < SLOTS ensures Correct(own, input.n, l, y) == Correct(own, input.n, l', y) {
      if y in own {
        CorrectIsClaimed(input, own, l, claims, y);
        CorrectIsClaimed(input', own, l', claims', y);
      }
    }
  }

  /** A pass that attaches an heir or waits for its link acts on a slot of the doomed owner in the heir's shard. */
  lemma WaitingPass(input: Input, own: Owner, l: ShardLayout, table: seq<Option<Pod>>, action: Action, heir: Pod,
                    owner: Pod) returns (x: int)
    requires input.Valid() && Observes(input, own) && OwnerTable(input.statuses, table) && |table| == SLOTS
    requires Outcome(input, l, table, action) && (action == Attach(heir, owner) || action == AwaitLink(heir, owner))
    ensures FirstMisplaced(own, input.n, l, x) && Owns(own, owner, x)
    ensures l.IsPrimaryOf(heir, ShardOfSlot(input.n, x)) && !input.OwnsSlots(heir)
    ensures heir != owner && owner >= input.desired && Addressable(input, owner)
  {
    hide Observes, OwnerTable, RangeStart, ShardOfSlot, InPlace, Correct, FirstMisplaced, PlacedBelow, LongestRun;
    BlockedIs(input, l);
    var shard, from, lo, hi :| FirstSegment(input.n, l, table, shard, from, lo, hi)
      && Decides(input, l, shard, from, lo, hi, action);
    SegmentIsRun(input, own, l, table, shard, from, lo, hi);
    SegmentBounds(input.n, l, table, shard, from, lo, hi);
    x := lo;
  }

  /** A pass over these owners that planned this layout and did this. */
  ghost predicate Passes(input: Input, own: Owner, l: ShardLayout, table: seq<Option<Pod>>, action: Action) {
    && input.Valid() && PlanResult(input, l) && Observes(input, own)
    && OwnerTable(input.statuses, table) && |table| == SLOTS && Outcome(input, l, table, action)
  }

  /** The pass attaches the heir to the owner, or waits for the link between them. */
  predicate Prepares(action: Action, heir: Pod, owner: Pod) {
    action == Attach(heir, owner) || action == AwaitLink(heir, owner)
  }

  /** When an heir that was attached, or waited for, is seen following the owner over a link that is up, the next
      pass that nothing holds up begins the handover to it if and only if the heir still leads its shard. */
  lemma NextPass(input: Input, own: Owner, l: ShardLayout, table: seq<Option<Pod>>, action: Action, heir: Pod,
                 owner: Pod, input': Input, l': ShardLayout, table': seq<Option<Pod>>, action': Action)
    requires Passes(input, own, l, table, action) && Prepares(action, heir, owner)
    requires Passes(input', own, l', table', action') && SameBelow(input, input', heir)
    requires Follows(input'.statuses, heir, owner) && StatusOf(input'.statuses, heir).linkUp
    requires Addressable(input', owner) && AllLeadersAnswer(input', l')
    ensures heir in l.shardOf && l.IsPrimaryOf(heir, l.shardOf[heir])
    ensures action' == BeginHandover(owner, heir) <==> l'.IsPrimaryOf(heir, l.shardOf[heir])
  {
    hide PlanResult, Observes, OwnerTable, SameBelow, Outcome, FirstMisplaced, ShardOfSlot, Planned;
    var x := WaitingPass(input, own, l, table, action, heir, owner);
    assert 0 <= x < SLOTS by { FirstInBounds(own, input.n, l, x); }
    ResultIsPlanned(input, l);
    ResultIsPlanned(input', l');
    SameSizes(input, input', heir);
    PlanIsWellFormed(input, Membership(l));
    assert Membership(l).Placed(heir, ShardOfSlot(input.n, x));
    MisplacedMembership(own, input.n, l, x);
    SameFirstMisplaced(input, own, Membership(l), input', Membership(l'), x);
    MisplacedMembership(own, input.n, l', x);
    PassDecides(input', own, l', table', action');
    assert !input'.OwnsSlots(heir) by { SlotsReported(input, own, heir, input'); }
    assert Answers(input', own, l', x, action');
  }

  /** So it begins the handover if the heir's shard is the owner's, and does not begin it with this heir if the
      heir's shard has no owner. */
  lemma HandoverBeginsNext(input: Input, own: Owner, l: ShardLayout, table: seq<Option<Pod>>, action: Action,
                           heir: Pod, owner: Pod, input': Input, l': ShardLayout, table': seq<Option<Pod>>,
                           action': Action)
    requires Passes(input, own, l, table, action) && Prepares(action, heir, owner)
    requires Passes(input', own, l', table', action') && SameBelow(input, input', heir)
    requires UniqueNodes(input.statuses) && UniqueNodes(input'.statuses)
    requires Follows(input'.statuses, heir, owner) && StatusOf(input'.statuses, heir).linkUp
    requires Addressable(input', owner) && AllLeadersAnswer(input', l')
    ensures heir in l.shardOf
    ensures var s := l.shardOf[heir];
            && (s in l.ownerOf && l.ownerOf[s] == owner ==> action' == BeginHandover(owner, heir))
            && (s !in l.ownerOf ==> action' != BeginHandover(owner, heir))
  {
    hide PlanResult, Observes, OwnerTable, SameBelow, Outcome, FirstMisplaced, ShardOfSlot, Planned, UniqueNodes;
    NextPass(input, own, l, table, action, heir, owner, input', l', table', action');
    var x := WaitingPass(input, own, l, table, action, heir, owner);
    var s := l.shardOf[heir];
    var m, m' := Membership(l), Membership(l');
    ResultIsPlanned(input, l);
    ResultIsPlanned(input', l');
    if s in l.ownerOf && l.ownerOf[s] == owner {
      HeirStillLeads(input, own, m, input', m', s, heir);
    } else if s !in l.ownerOf {
      PlanIsWellFormed(input, m);
      assert m.primaryOf[s] < input.desired;
      NotLedByFollower(input, own, m, heir, owner, x, input', m');
    }
  }

  lemma SlotsReported(input: Input, own: Owner, p: Pod, input': Input)
    requires Observes(input, own) && Observes(input', own)
    ensures input.OwnsSlots(p) <==> input'.OwnsSlots(p)
  {
    OwnerServes(input, own, p);
    OwnerServes(input', own, p);
  }

  lemma FirstInBounds(own: Owner, n: nat, l: ShardLayout, x: int)
    requires n > 0 && FirstMisplaced(own, n, l, x)
    ensures 0 <= x < SLOTS
  {
  }

  lemma MisplacedMembership(own: Owner, n: nat, l: ShardLayout, x: int)
    requires n > 0
    ensures FirstMisplaced(own, n, l, x) <==> FirstMisplaced(own, n, Membership(l), x)
  {
    hide ShardOfSlot;
    forall y ensures Correct(own, n, l, y) == Correct(own, n, Membership(l), y) {
      if 0 <= y < SLOTS && y in own {
        assert l.IsPrimaryOf(own[y], ShardOfSlot(n, y)) == Membership(l).IsPrimaryOf(own[y], ShardOfSlot(n, y));
      }
    }
  }

  // ---------------------------------------------------------------- an heir attached to the owner of another shard

  /** An heir that follows the owner of another shard leads its own next only if it is borrowed back, which takes
      an owner of that shard and nobody else to lead it. */
  lemma HeirGoesElsewhere(input: Input, l: ShardLayout, s: nat, heir: Pod, owner: Pod) returns (index: map<string, Pod>)
    requires input.Valid() && Planned(input, l) && UniqueNodes(input.statuses)
    requires IsOwner(input, owner) && owner in l.shardOf && l.shardOf[owner] != s && FollowsOwner(input, owner, heir)
    ensures IsNodeIndex(input.statuses, index)
    ensures l.IsPrimaryOf(heir, s) ==> l.HandingOver(s)
    ensures l.IsPrimaryOf(heir, s) ==> forall p :: !Candidate(input, index, OwnerShards(input, l), s, p)
  {
    hide Planned, Candidate, Home, FollowedHome, FollowsOwner, UniqueNodes, IsNodeIndex;
    index := PlanGoesByHomes(input, l);
    PlanIsWellFormed(input, l);
    var claims := OwnerShards(input, l);
    assert heir < input.desired && !input.OwnsSlots(heir) by { FollowerIsSlotless(input, owner, heir); }
    FollowerIsCandidate(input, index, claims, owner, heir);
    CandidateHome(input, index, claims, claims[owner], heir);
    if l.IsPrimaryOf(heir, s) {
      assert l.Placed(heir, s) && input.Named(heir) && BorrowedHeir(l, heir);
      assert Orphaned(input, l, s);
      forall p ensures !Candidate(input, index, claims, s, p) {
        if Candidate(input, index, claims, s, p) {
          CandidateHome(input, index, claims, s, heir);
        }
      }
    }
  }

  lemma FollowerIsSlotless(input: Input, owner: Pod, p: Pod)
    requires FollowsOwner(input, owner, p)
    ensures p < input.desired && !input.OwnsSlots(p)
  {
  }

  /** An heir without slots that follows the doomed owner of another shard does not lead a shard without an owner. */
  lemma NotLedByFollower(input: Input, own: Owner, l: ShardLayout, heir: Pod, owner: Pod, x: int, input': Input,
                         l': ShardLayout)
    requires input.Valid() && Planned(input, l) && Observes(input, own) && !input.OwnsSlots(heir)
    requires input'.Valid() && Planned(input', l') && Observes(input', own) && SameBelow(input, input', heir)
    requires UniqueNodes(input'.statuses) && Owns(own, owner, x) && Addressable(input', owner)
    requires heir in l.shardOf && heir < input.desired && l.shardOf[heir] !in l.ownerOf
    requires Follows(input'.statuses, heir, owner)
    ensures !l'.IsPrimaryOf(heir, l.shardOf[heir])
  {
    hide Planned, Observes, SameBelow;
    SameSizes(input, input', heir);
    PlanIsWellFormed(input', l');
    SameOwnerShards(input, own, l, input', l', heir);
    assert IsOwner(input', owner) by { OwnerIsOwner(input', own, owner, x); }
    assert !input'.OwnsSlots(heir) by { SlotsReported(input, own, heir, input'); }
    assert FollowsOwner(input', owner, heir);
    var index := HeirGoesElsewhere(input', l', l.shardOf[heir], heir, owner);
  }

  lemma OwnerIsOwner(input: Input, own: Owner, p: Pod, x: int)
    requires Observes(input, own) && Owns(own, p, x)
    ensures IsOwner(input, p) && p in input.statuses
  {
    OwnerServes(input, own, p);
  }
}
