/** Planned handover and emergency fencing on one versioned object, with every actor working from a
    copy that may be out of date. */
module Handover {
  import opened Types
  import opened Fencing

  // ---------------------------------------------------------------- what each write does

  function WithFences(codec: Codec, cluster: Cluster, names: seq<string>): Cluster {
    cluster.(fence := if names == [] then None else Some(codec.marshal(names)))
  }

  function Remove(names: seq<string>, name: string): seq<string> {
    if names == [] then []
    else
      var front := Remove(names[..|names| - 1], name);
      if names[|names| - 1] == name then front else front + [names[|names| - 1]]
  }

  predicate CanBegin(codec: Codec, cluster: Cluster, owner: string, heir: string) {
    MarkerText(cluster) == "" && owner !in FencedPods(codec, cluster) && heir !in FencedPods(codec, cluster)
  }

  function Begun(codec: Codec, cluster: Cluster, owner: string, heir: string): Cluster {
    WithFences(codec, cluster, FencedPods(codec, cluster) + [owner]).(marker := Some(MarkerFor(owner, heir)))
  }

  function Finished(codec: Codec, cluster: Cluster, owner: string): Cluster {
    WithFences(codec, cluster, Remove(FencedPods(codec, cluster), owner)).(marker := None)
  }

  /** A merge patch writes the fields in which the edited copy differs from the copy it was made from. */
  function MergePatch(server: Cluster, before: Cluster, after: Cluster): Cluster {
    server.(fence := if after.fence == before.fence then server.fence else after.fence,
            marker := if after.marker == before.marker then server.marker else after.marker)
  }

  // ---------------------------------------------------------------- reading back

  lemma FencesReadBack(codec: Codec, cluster: Cluster, names: seq<string>)
    requires codec.Sound()
    ensures FencedPods(codec, WithFences(codec, cluster, names)) == names
  {
    assert codec.unmarshal(codec.marshal(names)) == Some(names);
  }

  lemma {:induction false} RemoveProperties(names: seq<string>, name: string)
    ensures forall n :: n in Remove(names, name) <==> n in names && n != name
    ensures name !in names ==> Remove(names, name) == names
  {
    if names != [] {
      assert names == names[..|names| - 1] + [names[|names| - 1]];
      RemoveProperties(names[..|names| - 1], name);
    }
  }

  /** A handover that begins and finishes leaves the fence list as it found it. */
  lemma BeginThenFinish(codec: Codec, cluster: Cluster, owner: string, heir: string)
    requires codec.Sound() && CanBegin(codec, cluster, owner, heir)
    ensures FencedPods(codec, Finished(codec, Begun(codec, cluster, owner, heir), owner)) == FencedPods(codec, cluster)
    ensures MarkerText(Finished(codec, Begun(codec, cluster, owner, heir), owner)) == MarkerText(cluster)
  {
    var names := FencedPods(codec, cluster);
    FencesReadBack(codec, cluster, names + [owner]);
    assert FencedPods(codec, Begun(codec, cluster, owner, heir)) == names + [owner];
    FencesReadBack(codec, Begun(codec, cluster, owner, heir), Remove(names + [owner], owner));
    RemoveProperties(names, owner);
    assert (names + [owner])[..|names|] == names;
  }

  lemma NoMarkerNoOwner(cluster: Cluster)
    requires cluster.marker == None
    ensures HandoverPods(cluster) == ("", "")
  {
  }

  lemma SameMarkerSamePods(a: Cluster, b: Cluster)
    requires a.marker == b.marker && a.clusterMode == b.clusterMode
    ensures HandoverPods(a) == HandoverPods(b)
  {
  }

  /** A marker names the owner it was written for, if it is one that parses, and nobody else. */
  lemma MarkerNames(cluster: Cluster, owner: string, heir: string, pod: string)
    requires cluster.marker == Some(MarkerFor(owner, heir)) && pod != ""
    ensures HandoverPods(cluster).0 == pod <==> cluster.clusterMode && GoodPair(owner, heir) && pod == owner
  {
    if HandoverPods(cluster).0 == pod {
      MarkerIsCanonical(cluster);
      if '/' in owner {
        SlashInOwner(owner, heir, HandoverPods(cluster).0, HandoverPods(cluster).1);
      } else {
        CutFinds(owner, heir);
      }
    } else if cluster.clusterMode {
      MarkerRoundTrip(cluster, owner, heir);
    }
  }

  lemma SlashInOwner(owner: string, heir: string, before: string, after: string)
    requires '/' in owner && owner + "/" + heir == before + "/" + after && '/' !in before
    ensures '/' in after
  {
    var text := owner + "/" + heir;
    assert text[|before|] == '/' && text[|owner|] == '/';
    var k :| 0 <= k < |owner| && owner[k] == '/';
    assert text[k] == '/';
    assert |before| <= k;
    assert after[|owner| - |before| - 1] == text[|owner|];
  }

  // ---------------------------------------------------------------- histories

  /** All versions of the object; the last one is current. */
  type History = h: seq<Cluster> | h != [] witness [Cluster(true, None, None)]

  function Current(h: History): Cluster {
    h[|h| - 1]
  }

  /** A write that changes nothing makes no new version. */
  function Commit(h: History, cluster: Cluster): (h': History)
    ensures Current(h') == cluster && h <= h'
  {
    if cluster == Current(h) then h else h + [cluster]
  }

  /** An atomic write, made from the copy at version `seen`. */
  datatype Step =
    | Begin(seen: nat, owner: string, heir: string)
    | Finish(seen: nat)
    | Escalate(seen: nat, pod: string)
    | AddFence(seen: nat, pod: string)
    | DropFence(seen: nat, pod: string)

  /** Begin and finish are locked to the version they were made from; the other writes are not. */
  function Next(codec: Codec, h: History, step: Step): History
    requires step.seen < |h|
  {
    var copy := h[step.seen];
    match step
    case Begin(seen, owner, heir) =>
      if seen == |h| - 1 && CanBegin(codec, copy, owner, heir) then Commit(h, Begun(codec, copy, owner, heir)) else h
    case Finish(seen) =>
      if seen == |h| - 1 && HandoverPods(copy).0 != "" then Commit(h, Finished(codec, copy, HandoverPods(copy).0))
        else h
    case Escalate(_, pod) =>
      if HandoverPods(copy).0 == pod then Commit(h, MergePatch(Current(h), copy, copy.(marker := None))) else h
    case AddFence(_, pod) =>
      var names := FencedPods(codec, copy);
      if pod in names then h else Commit(h, MergePatch(Current(h), copy, WithFences(codec, copy, names + [pod])))
    case DropFence(_, pod) =>
      Commit(h, MergePatch(Current(h), copy, WithFences(codec, copy, Remove(FencedPods(codec, copy), pod))))
  }

  // ---------------------------------------------------------------- what a step leaves behind

  /** The step begins a handover: made from the current version, which admits one. */
  predicate Begins(codec: Codec, h: History, step: Step) {
    step.seen < |h| && step.Begin? && step.seen == |h| - 1 && CanBegin(codec, Current(h), step.owner, step.heir)
  }

  /** The step ends whatever handover there is: a finish from the current version, or an escalation from a
      copy whose marker names the pod to be fenced. */
  predicate Ends(h: History, step: Step) {
    && step.seen < |h|
    && match step
       case Finish(seen) => seen == |h| - 1 && HandoverPods(Current(h)).0 != ""
       case Escalate(seen, pod) => HandoverPods(h[seen]).0 == pod && h[seen].marker.Some?
       case _ => false
  }

  /** The fence list the step writes, if it writes one. */
  function ListWritten(codec: Codec, h: History, step: Step): Option<seq<string>>
    requires step.seen < |h|
  {
    var names := FencedPods(codec, h[step.seen]);
    match step
    case Begin(_, owner, _) => if Begins(codec, h, step) then Some(names + [owner]) else None
    case Finish(_) => if Ends(h, step) then Some(Remove(names, HandoverPods(Current(h)).0)) else None
    case Escalate(_, _) => None
    case AddFence(_, pod) => if pod in names then None else Some(names + [pod])
    case DropFence(_, pod) =>
      if WithFences(codec, h[step.seen], Remove(names, pod)).fence == h[step.seen].fence then None
        else Some(Remove(names, pod))
  }

  /** The list in force after a step is the one it wrote, or the one before. */
  lemma ListAfter(codec: Codec, h: History, step: Step)
    requires codec.Sound() && step.seen < |h|
    ensures FencedPods(codec, Current(Next(codec, h, step))) ==
            if ListWritten(codec, h, step).Some? then ListWritten(codec, h, step).value
              else FencedPods(codec, Current(h))
  {
    hide HandoverPods, Remove;
    var copy := h[step.seen];
    var names := FencedPods(codec, copy);
    match step
    case Begin(_, owner, heir) => FencesReadBack(codec, copy, names + [owner]);
    case Finish(_) => FencesReadBack(codec, copy, Remove(names, HandoverPods(copy).0));
    case Escalate(_, _) =>
    case AddFence(_, pod) => FencesReadBack(codec, copy, names + [pod]);
    case DropFence(_, pod) => FencesReadBack(codec, copy, Remove(names, pod));
  }

  /** The marker after a step: a begun handover's, none if one was ended, or the one before. */
  lemma MarkerAfter(codec: Codec, h: History, step: Step)
    requires step.seen < |h|
    ensures Current(Next(codec, h, step)).clusterMode == Current(h).clusterMode
    ensures Current(Next(codec, h, step)).marker ==
            if Begins(codec, h, step) then Some(MarkerFor(step.owner, step.heir)) else if Ends(h, step) then None
              else Current(h).marker
  {
    hide HandoverPods, Remove, FencedPods;
  }

  /** The names a step may take out of the fence list. */
  ghost predicate Clears(h: History, step: Step, pod: string)
    requires step.seen < |h|
  {
    (step.DropFence? && step.pod == pod) || (step.Finish? && HandoverPods(h[step.seen]).0 == pod)
  }

  /** An unlocked write of the fence list made from a list that is out of date about this pod. */
  ghost predicate Overlooks(codec: Codec, h: History, step: Step, pod: string)
    requires step.seen < |h|
  {
    (step.AddFence? || step.DropFence?) && pod !in FencedPods(codec, h[step.seen])
  }

  /** A fence stays unless the step clears it, or overwrites the list from a copy that lacks it. */
  lemma FenceSurvivesStep(codec: Codec, h: History, step: Step, pod: string)
    requires codec.Sound() && step.seen < |h| && pod in FencedPods(codec, Current(h))
    requires !Clears(h, step, pod) && !Overlooks(codec, h, step, pod)
    ensures pod in FencedPods(codec, Current(Next(codec, h, step)))
  {
    hide HandoverPods, FencedPods, Next, WithFences;
    ListAfter(codec, h, step);
    var names := FencedPods(codec, h[step.seen]);
    if step.DropFence? { RemoveProperties(names, step.pod); }
    if step.Finish? { RemoveProperties(names, HandoverPods(h[step.seen]).0); }
  }

  /** Exactly when an unlocked write of the fence list keeps a fence that is in force. */
  lemma UnlockedWriteKeepsFence(codec: Codec, h: History, step: Step, pod: string)
    requires codec.Sound() && step.seen < |h| && (step.AddFence? || step.DropFence?)
             && pod in FencedPods(codec, Current(h))
    ensures var copy := h[step.seen];
            var names := FencedPods(codec, copy);
            pod in FencedPods(codec, Current(Next(codec, h, step))) <==>
              if step.AddFence? then step.pod in names || pod in names || pod == step.pod
              else
                || WithFences(codec, copy, Remove(names, step.pod)).fence == copy.fence
                || (pod in names && pod != step.pod)
  {
    hide HandoverPods, FencedPods, Next, WithFences;
    ListAfter(codec, h, step);
    RemoveProperties(FencedPods(codec, h[step.seen]), step.pod);
  }

  /** Clearing one fence from an old copy takes another pod's fence with it. */
  lemma StaleClearLosesFence(codec: Codec)
    requires codec.Sound()
    ensures var h := [Cluster(true, Some(codec.marshal(["q"])), None),
            Cluster(true, Some(codec.marshal(["q", "p"])), None)];
            && "p" in FencedPods(codec, Current(h))
            && FencedPods(codec, Current(Next(codec, h, DropFence(0, "q")))) == []
  {
    var c0, c1 := Cluster(true, Some(codec.marshal(["q"])), None), Cluster(true, Some(codec.marshal(["q", "p"])), None);
    FencesReadBack(codec, c0, ["q"]);
    FencesReadBack(codec, c1, ["q", "p"]);
    assert ["q"][..0] == [];
    assert Remove(["q"], "q") == [];
  }

  /** Setting a fence: drop a marker that would soften it, then add the pod to the list. */
  function FenceSet(codec: Codec, h: History, pod: string): History {
    var h1 := Next(codec, h, Escalate(|h| - 1, pod));
    Next(codec, h1, AddFence(|h1| - 1, pod))
  }

  /** The fence list names whom it named before, with some pods added or dropped. */
  ghost predicate FencesAre(codec: Codec, before: Cluster, after: Cluster, added: set<string>, dropped: set<string>) {
    forall p :: p in FencedPods(codec, after) <==> (p in FencedPods(codec, before) || p in added) && p !in dropped
  }

  lemma BeginReads(codec: Codec, cluster: Cluster, owner: string, heir: string)
    requires codec.Sound()
    ensures FencesAre(codec, cluster, Begun(codec, cluster, owner, heir), {owner}, {})
    ensures cluster.clusterMode && GoodPair(owner, heir) ==>
              HandoverPods(Begun(codec, cluster, owner, heir)) == (owner, heir)
  {
    hide HandoverPods;
    FencesReadBack(codec, cluster, FencedPods(codec, cluster) + [owner]);
    if cluster.clusterMode { MarkerRoundTrip(Begun(codec, cluster, owner, heir), owner, heir); }
  }

  lemma DropReads(codec: Codec, cluster: Cluster, edited: Cluster, pod: string)
    requires codec.Sound()
    ensures FencesAre(codec, cluster, WithFences(codec, edited, Remove(FencedPods(codec, cluster), pod)), {}, {pod})
  {
    var remaining := Remove(FencedPods(codec, cluster), pod);
    FencesReadBack(codec, edited, remaining);
    RemoveProperties(FencedPods(codec, cluster), pod);
  }

  /** What setting a fence from the current version comes to, as the pods read it. */
  lemma FenceReads(codec: Codec, h: History, pod: string)
    requires codec.Sound() && pod != ""
    ensures var after := Current(FenceSet(codec, h, pod));
            && FencesAre(codec, Current(h), after, {pod}, {}) && RequiresHardFence(codec, after, pod)
            && (HandoverPods(Current(h)).0 != pod ==> after.marker == Current(h).marker)
  {
    hide HandoverPods, FencedPods, IsFenced, Next, WithFences;
    var escalate := Escalate(|h| - 1, pod);
    var h1 := Next(codec, h, escalate);
    var add := AddFence(|h1| - 1, pod);
    ListAfter(codec, h, escalate);
    MarkerAfter(codec, h, escalate);
    ListAfter(codec, h1, add);
    MarkerAfter(codec, h1, add);
    var after := Current(Next(codec, h1, add));
    ReadersAgree(codec, after, pod);
    if after.marker == None { NoMarkerNoOwner(after); } else { SameMarkerSamePods(after, Current(h)); }
    if Current(h).marker == None { NoMarkerNoOwner(Current(h)); }
  }

  // ---------------------------------------------------------------- resuming a handover

  /** What the operator knows of a pod: listed with an address and readiness, and what it reported. */
  datatype PodView = PodView(hasIP: bool, ready: bool)

  datatype Report = Report(connected: bool, role: Role, nodeID: string, primaryNodeID: string, linkUp: bool,
    servesSlots: bool)

  const NO_REPORT := Report(false, Unreported, "", "", false, false)

  function ReportOf(reports: map<string, Report>, pod: string): Report {
    if pod in reports then reports[pod] else NO_REPORT
  }

  datatype Decision = InvalidMarker | Conclude | Wait | Promote(heir: string)

  /** The heir has taken over and the owner follows it. */
  predicate Swapped(source: Report, target: Report) {
    && target.role == Master && target.servesSlots
    && source.role == Slave && source.primaryNodeID == target.nodeID && !source.servesSlots
  }

  predicate Stale(codec: Codec, cluster: Cluster, pods: map<string, PodView>, owner: string, heir: string) {
    owner !in pods || heir !in pods || owner !in FencedPods(codec, cluster) || heir in FencedPods(codec, cluster)
  }

  /** One look at a pending handover. */
  method ResumeClusterHandover(codec: Codec, cluster: Cluster, pods: map<string, PodView>, reports: map<string, Report>)
    returns (decision: Decision)
    ensures decision == InvalidMarker <==> HandoverPods(cluster).0 == ""
    ensures decision.Promote? <==> MayPromote(codec, cluster, pods, reports)
    ensures decision.Promote? ==> decision.heir == HandoverPods(cluster).1
    ensures decision == Conclude <==> MayConclude(codec, cluster, pods, reports)
  {
    var (owner, heir) := HandoverPods(cluster);
    if owner == "" {
      return InvalidMarker;
    }
    var fenced := FencedPods(codec, cluster);
    if owner !in pods || heir !in pods || owner !in fenced || heir in fenced {
      return Conclude;
    }
    var source, target := ReportOf(reports, owner), ReportOf(reports, heir);
    if !source.connected || !target.connected {
      return Wait;
    }
    if target.role == Master && target.servesSlots && source.role == Slave && source.primaryNodeID == target.nodeID
      && !source.servesSlots {
      return Conclude;
    }
    if source.role != Master || target.role != Slave || target.primaryNodeID != source.nodeID || !target.linkUp
      || !pods[heir].hasIP {
      return Wait;
    }
    if pods[owner].ready {
      return Wait;
    }
    return Promote(heir);
  }

  /** A promotion is requested only for a valid pair of which the owner is fenced and unready, the heir
      is not fenced, and the heir follows the owner over a link that is up. */
  ghost predicate MayPromote(codec: Codec, cluster: Cluster, pods: map<string, PodView>, reports: map<string, Report>) {
    var (owner, heir) := HandoverPods(cluster);
    && owner != "" && !Stale(codec, cluster, pods, owner, heir)
    && var source, target := ReportOf(reports, owner), ReportOf(reports, heir);
    && source.connected && target.connected
    && source.role == Master && target.role == Slave && target.primaryNodeID == source.nodeID && target.linkUp
    && pods[heir].hasIP && !pods[owner].ready
  }

  /** A handover ends when it has become pointless or the swap is complete. */
  ghost predicate MayConclude(codec: Codec, cluster: Cluster, pods: map<string, PodView>,
                              reports: map<string, Report>) {
    var (owner, heir) := HandoverPods(cluster);
    && owner != ""
    && (Stale(codec, cluster, pods, owner, heir)
        || (var source, target := ReportOf(reports, owner), ReportOf(reports, heir);
            source.connected && target.connected && Swapped(source, target)))
  }

  // ---------------------------------------------------------------- the operator's writes

  /** The API server's record of the object. A patch may be refused for reasons of its own, and a
      locked patch is refused unless it was made from the current version. */
  class ApiServer {
    var history: History
    ghost var refused: nat

    constructor (first: Cluster)
      ensures history == [first] && refused == 0
    {
      history, refused := [first], 0;
    }

    method Patch(before: Cluster, after: Cluster, lock: Option<nat>) returns (ok: bool)
      modifies this
      ensures ok ==> lock.None? || lock.value == |old(history)| - 1
      ensures history == if ok then Commit(old(history), MergePatch(Current(old(history)), before, after))
              else old(history)
      ensures refused == old(refused) + if ok then 0 else 1
    {
      ok := *;
      if lock.Some? && lock.value != |history| - 1 {
        ok := false;
      }
      if ok {
        history := Commit(history, MergePatch(Current(history), before, after));
      } else {
        refused := refused + 1;
      }
    }
  }

  /** A reconciler with its copy of the object. A successful patch brings the copy up to date. */
  class Operator {
    const codec: Codec
    var cluster: Cluster
    var seen: nat

    constructor (codec: Codec, api: ApiServer)
      ensures this.codec == codec && Holds(api) && seen == |api.history| - 1
    {
      this.codec := codec;
      cluster := Current(api.history);
      seen := |api.history| - 1;
    }

    /** The copy is a version the object has had. */
    ghost predicate Holds(api: ApiServer)
      reads this, api
    {
      seen < |api.history| && api.history[seen] == cluster
    }

    method Refresh(api: ApiServer)
      modifies this
      ensures Holds(api) && seen == |api.history| - 1
    {
      cluster, seen := Current(api.history), |api.history| - 1;
    }

    method BeginClusterHandover(api: ApiServer, owner: string, heir: string) returns (ok: bool)
      requires Holds(api)
      modifies this, api
      ensures Holds(api)
      ensures ok ==> CanBegin(codec, old(cluster), owner, heir) && old(seen) == |old(api.history)| - 1
      ensures ok ==>
                && MarkerText(old(cluster)) == "" && owner !in FencedPods(codec, old(cluster))
                && heir !in FencedPods(codec, old(cluster))
      ensures api.history == if ok then Next(codec, old(api.history), Begin(old(seen), owner, heir))
              else old(api.history)
      ensures !ok ==>
                || api.refused == old(api.refused) + 1 || MarkerText(old(cluster)) != ""
                || owner in FencedPods(codec, old(cluster)) || heir in FencedPods(codec, old(cluster))
      ensures ok && codec.Sound() ==>
                && FencesAre(codec, old(cluster), Current(api.history), {owner}, {})
                && (old(cluster).clusterMode && GoodPair(owner, heir) ==>
                      HandoverPods(Current(api.history)) == (owner, heir))
    {
      hide FencedPods, MarkerFor, HandoverPods, FencesAre;
      if MarkerText(cluster) != "" {
        return false;
      }
      var fenced := FencedPods(codec, cluster);
      if owner in fenced || heir in fenced {
        return false;
      }
      var edited := WithFences(codec, cluster, fenced + [owner]).(marker := Some(MarkerFor(owner, heir)));
      ok := api.Patch(cluster, edited, Some(seen));
      if ok {
        assert MergePatch(cluster, cluster, edited) == edited;
        if codec.Sound() { BeginReads(codec, cluster, owner, heir); }
        Refresh(api);
      }
    }

    method FinishClusterHandover(api: ApiServer) returns (ok: bool)
      requires Holds(api) && HandoverPods(cluster).0 != ""
      modifies this, api
      ensures Holds(api)
      ensures ok ==> old(seen) == |old(api.history)| - 1
      ensures api.history == if ok then Next(codec, old(api.history), Finish(old(seen))) else old(api.history)
      ensures !ok ==> api.refused == old(api.refused) + 1
      ensures ok && codec.Sound() ==>
                && FencesAre(codec, old(cluster), Current(api.history), {}, {HandoverPods(old(cluster)).0})
                && Current(api.history).marker == None
    {
      hide HandoverPods, FencedPods, Remove, FencesAre;
      var owner := HandoverPods(cluster).0;
      var remaining := Remove(FencedPods(codec, cluster), owner);
      var edited := WithFences(codec, cluster, remaining).(marker := None);
      ok := api.Patch(cluster, edited, Some(seen));
      if ok {
        assert MergePatch(cluster, cluster, edited) == edited;
        if codec.Sound() { DropReads(codec, cluster, cluster.(marker := None), owner); }
        Refresh(api);
      }
    }

    method SetFence(api: ApiServer, pod: string) returns (ok: bool)
      requires Holds(api)
      modifies this, api
      ensures Holds(api)
      ensures var h1 := Next(codec, old(api.history), Escalate(old(seen), pod));
              var seen1 := if HandoverPods(old(cluster)).0 == pod then |h1| - 1 else old(seen);
              if ok then api.history == Next(codec, h1, AddFence(seen1, pod))
              else api.history == old(api.history) || api.history == h1
      ensures ok && old(seen) == |old(api.history)| - 1 ==> api.history == FenceSet(codec, old(api.history), pod)
      ensures !ok ==> api.refused == old(api.refused) + 1
      ensures ok && old(seen) == |old(api.history)| - 1 && codec.Sound() && pod != "" ==>
                && FencesAre(codec, old(cluster), Current(api.history), {pod}, {})
                && RequiresHardFence(codec, Current(api.history), pod)
                && (HandoverPods(old(cluster)).0 != pod ==> Current(api.history).marker == old(cluster).marker)
    {
      hide HandoverPods, FencedPods, WithFences, FencesAre, RequiresHardFence;
      if codec.Sound() && pod != "" && seen == |api.history| - 1 { FenceReads(codec, api.history, pod); }
      if HandoverPods(cluster).0 == pod {
        ok := api.Patch(cluster, cluster.(marker := None), None);
        if !ok {
          return;
        }
        Refresh(api);
      }
      var fenced := FencedPods(codec, cluster);
      if pod in fenced {
        return true;
      }
      ok := api.Patch(cluster, WithFences(codec, cluster, fenced + [pod]), None);
      if ok {
        Refresh(api);
      }
    }

    method ClearFence(api: ApiServer, pod: string) returns (ok: bool)
      requires Holds(api)
      modifies this, api
      ensures Holds(api)
      ensures api.history == if ok then Next(codec, old(api.history), DropFence(old(seen), pod)) else old(api.history)
      ensures !ok ==> api.refused == old(api.refused) + 1
      ensures ok && old(seen) == |old(api.history)| - 1 && codec.Sound() ==>
                && FencesAre(codec, old(cluster), Current(api.history), {}, {pod})
                && Current(api.history).marker == old(cluster).marker
    {
      hide FencesAre;
      if codec.Sound() { DropReads(codec, cluster, cluster, pod); }
      var remaining := [];
      var fenced := FencedPods(codec, cluster);
      for i := 0 to |fenced|
        invariant remaining == Remove(fenced[..i], pod)
      {
        assert fenced[..i + 1][..i] == fenced[..i];
        if fenced[i] != pod {
          remaining := remaining + [fenced[i]];
        }
      }
      assert fenced[..|fenced|] == fenced;
      ok := api.Patch(cluster, WithFences(codec, cluster, remaining), None);
      if ok {
        Refresh(api);
      }
    }
  }
}
