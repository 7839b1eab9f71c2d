/** Failover and switchover: fence the old primary, promote a replica, move the status and the leader
    service, and only then lift the fence. Any command may fail and end the sequence there. */
module Failover {

  /** What was last reported about an instance. */
  datatype Instance = Instance(connected: bool, offset: int)

  predicate Eligible(instances: map<string, Instance>, primary: string, name: string) {
    name in instances && name != primary && instances[name].connected
  }

  /** No connected replica has reported an offset. */
  ghost predicate NoCandidate(instances: map<string, Instance>, primary: string) {
    forall name :: Eligible(instances, primary, name) ==> instances[name].offset <= -1
  }

  /** The connected replica with the largest offset, walking the instances in any order. */
  method SelectFailoverCandidate(instances: map<string, Instance>, primary: string) returns (best: string)
    requires "" !in instances
    ensures best == "" <==> NoCandidate(instances, primary)
    ensures best != "" ==> Eligible(instances, primary, best)
    ensures best != "" ==> forall name :: Eligible(instances, primary, name) ==>
              instances[name].offset <= instances[best].offset
  {
    best := "";
    var bestOffset := -1;
    var rest := instances.Keys;
    while rest != {}
      invariant rest <= instances.Keys && bestOffset >= -1
      invariant best == "" ==> bestOffset == -1
      invariant best != "" ==> Eligible(instances, primary, best) && instances[best].offset == bestOffset > -1
      invariant forall name :: Eligible(instances, primary, name) && name !in rest ==>
                  instances[name].offset <= bestOffset
      decreases rest
    {
      var name :| name in rest;
      rest := rest - {name};
      if name == primary {
        continue;
      }
      if !instances[name].connected {
        continue;
      }
      if instances[name].offset > bestOffset {
        bestOffset, best := instances[name].offset, name;
      }
    }
  }

  /** What other actors can see. */
  datatype View = View(fenced: set<string>, promotions: seq<string>, currentPrimary: string, leader: string)

  /** Once a promotion has been requested, the old primary is fenced until both the status and the leader
      service have moved on. */
  predicate Ordered(start: View, now: View) {
    now.promotions == start.promotions
    || start.currentPrimary in now.fenced
    || (now.currentPrimary != start.currentPrimary && now.leader == now.currentPrimary)
  }

  /** The status and the leader service move only while the old primary is fenced or after both have moved. */
  predicate MovesFenced(start: View, now: View) {
    (now.currentPrimary == start.currentPrimary && now.leader == start.leader)
    || start.currentPrimary in now.fenced
    || (now.currentPrimary != start.currentPrimary && now.leader == now.currentPrimary)
  }

  class Standalone {
    var fenced: set<string>
    var promotions: seq<string>
    var currentPrimary: string
    var leader: string
    ghost var trace: seq<View>
    ghost var refused: nat

    ghost function Now(): View
      reads this
    {
      View(fenced, promotions, currentPrimary, leader)
    }

    constructor (primary: string)
      ensures currentPrimary == primary && leader == primary && fenced == {} && promotions == [] && trace == [Now()]
      ensures refused == 0
    {
      fenced, promotions, currentPrimary, leader := {}, [], primary, primary;
      trace, refused := [View({}, [], primary, primary)], 0;
    }

    method SetFence(pod: string) returns (ok: bool)
      modifies this`fenced, this`trace, this`refused
      ensures fenced == if ok then old(fenced) + {pod} else old(fenced)
      ensures trace == old(trace) + [Now()] && refused == old(refused) + if ok then 0 else 1
    {
      ok := *;
      if ok { fenced := fenced + {pod}; }
      trace, refused := trace + [Now()], refused + if ok then 0 else 1;
    }

    method ClearFence(pod: string) returns (ok: bool)
      modifies this`fenced, this`trace, this`refused
      ensures fenced == if ok then old(fenced) - {pod} else old(fenced)
      ensures trace == old(trace) + [Now()] && refused == old(refused) + if ok then 0 else 1
    {
      ok := *;
      if ok { fenced := fenced - {pod}; }
      trace, refused := trace + [Now()], refused + if ok then 0 else 1;
    }

    /** A promotion request; one that fails may have promoted the instance all the same. */
    method Promote(pod: string) returns (ok: bool)
      modifies this`promotions, this`trace, this`refused
      ensures promotions == old(promotions) + [pod]
      ensures trace == old(trace) + [Now()] && refused == old(refused) + if ok then 0 else 1
    {
      ok := *;
      promotions := promotions + [pod];
      trace, refused := trace + [Now()], refused + if ok then 0 else 1;
    }

    method PatchStatus(primary: string) returns (ok: bool)
      modifies this`currentPrimary, this`trace, this`refused
      ensures currentPrimary == if ok then primary else old(currentPrimary)
      ensures trace == old(trace) + [Now()] && refused == old(refused) + if ok then 0 else 1
    {
      ok := *;
      if ok { currentPrimary := primary; }
      trace, refused := trace + [Now()], refused + if ok then 0 else 1;
    }

    method UpdateLeader() returns (ok: bool)
      modifies this`leader, this`trace, this`refused
      ensures leader == if ok then currentPrimary else old(leader)
      ensures trace == old(trace) + [Now()] && refused == old(refused) + if ok then 0 else 1
    {
      ok := *;
      if ok { leader := currentPrimary; }
      trace, refused := trace + [Now()], refused + if ok then 0 else 1;
    }

    /** Every view since `from` keeps the order. */
    ghost predicate InOrder(start: View, from: nat)
      reads this
    {
      from <= |trace| && forall i :: from <= i < |trace| ==> Ordered(start, trace[i]) && MovesFenced(start, trace[i])
    }

    /** The two sequences differ only in what happens when the candidate's pod has no address:
        `insist` makes that an error. */
    method Replace(instances: map<string, Instance>, reachable: set<string>, insist: bool) returns (ok: bool,
                   candidate: string)
      requires "" !in instances
      modifies this
      ensures InOrder(old(Now()), |old(trace)|)
      ensures old(trace) <= trace
      ensures candidate != "" ==> Eligible(instances, old(currentPrimary), candidate)
      ensures candidate != "" ==>
                forall name :: Eligible(instances, old(currentPrimary), name) ==>
                    instances[name].offset <= instances[candidate].offset
      ensures ok ==>
                candidate != "" && currentPrimary == leader == candidate
                && fenced == old(fenced) - {old(currentPrimary)}
      ensures ok ==> promotions == old(promotions) + if candidate in reachable then [candidate] else []
      ensures ok && insist ==> candidate in reachable
      ensures !ok ==> promotions == old(promotions) || promotions == old(promotions) + [candidate]
      ensures !ok ==> (Now() == old(Now()) || old(currentPrimary) in fenced)
      ensures refused <= old(refused) + 1 && (ok ==> refused == old(refused))
      ensures !ok ==>
                || refused == old(refused) + 1 || NoCandidate(instances, old(currentPrimary))
                || (insist && candidate != "" && candidate !in reachable)
    {
      hide Eligible, NoCandidate;
      candidate := "";
      ghost var start, from := Now(), |trace|;
      var former := currentPrimary;
      ok := SetFence(former);
      assert InOrder(start, from);
      if !ok { return; }
      candidate := SelectFailoverCandidate(instances, currentPrimary);
      if candidate == "" {
        return false, "";
      }
      if candidate in reachable {
        ok := Promote(candidate);
        assert InOrder(start, from);
        if !ok { return; }
      } else if insist {
        return false, candidate;
      }
      ok := PatchStatus(candidate);
      assert InOrder(start, from);
      if !ok { return; }
      ok := UpdateLeader();
      assert InOrder(start, from);
      if !ok { return; }
      ok := ClearFence(former);
    }

    /** Automatic failover: an unreachable candidate is made primary without having been promoted. */
    method FailOver(instances: map<string, Instance>, reachable: set<string>) returns (ok: bool, candidate: string)
      requires "" !in instances
      modifies this
      ensures InOrder(old(Now()), |old(trace)|)
      ensures ok ==> currentPrimary == leader == candidate && fenced == old(fenced) - {old(currentPrimary)}
      ensures ok ==> Eligible(instances, old(currentPrimary), candidate)
      ensures ok ==> promotions == old(promotions) + if candidate in reachable then [candidate] else []
      ensures !ok ==> Now() == old(Now()) || old(currentPrimary) in fenced
      ensures !ok ==> refused == old(refused) + 1 || NoCandidate(instances, old(currentPrimary))
      ensures ok ==> refused == old(refused)
    {
      ok, candidate := Replace(instances, reachable, false);
    }

    /** Switchover: as failover, but it needs a current primary and a reachable candidate. */
    method SwitchOver(instances: map<string, Instance>, reachable: set<string>) returns (ok: bool, candidate: string)
      requires "" !in instances
      modifies this
      ensures InOrder(old(Now()), |old(trace)|)
      ensures ok ==>
                old(currentPrimary) != "" && Eligible(instances, old(currentPrimary), candidate)
                && candidate in reachable
      ensures ok ==> promotions == old(promotions) + [candidate]
      ensures ok ==> currentPrimary == leader == candidate && fenced == old(fenced) - {old(currentPrimary)}
      ensures !ok ==> Now() == old(Now()) || old(currentPrimary) in fenced
      ensures !ok ==>
                || refused == old(refused) + 1 || old(currentPrimary) == ""
                || NoCandidate(instances, old(currentPrimary)) || (candidate != "" && candidate !in reachable)
      ensures ok ==> refused == old(refused)
    {
      if currentPrimary == "" {
        return false, "";
      }
      ok, candidate := Replace(instances, reachable, true);
    }
  }
}
