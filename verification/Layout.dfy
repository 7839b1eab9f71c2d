/** The shard layout as a value, and what each phase of planning may turn it into.
    Module `Planner` carries the phases out in place; the theorems are about these values. */
module Layout {
  import opened Types
  import opened Matching
  import opened Ranking

  /** A listed data pod: its shard label if it parses, whether its shard role is primary, and whether it has
      an address. */
  datatype PodMeta = PodMeta(shardLabel: Option<nat>, primaryLabel: bool, hasIP: bool)

  /** What planning reads: the desired shards, pods and replicas, the listed pods and the polled statuses. */
  datatype Input = Input(n: nat, desired: nat, replicas: int, pods: map<Pod, PodMeta>, statuses: Statuses) {

    /** Planning needs a shard, and `Desired` gives every shard at least one pod. */
    ghost predicate Valid() {
      0 < n <= desired
    }

    predicate OwnsSlots(pod: Pod) {
      |StatusOf(statuses, pod).slotsServed| > 0
    }

    ghost predicate Named(pod: Pod) {
      pod < desired || pod in pods
    }

    /** Polling asks exactly the listed pods that have an address. */
    ghost predicate Polled() {
      forall p :: p in statuses <==> p in pods && pods[p].hasIP
    }

    /** The pod is listed with an address and has answered with a node ID. */
    predicate Reachable(pod: Pod) {
      pod in statuses && statuses[pod].connected && statuses[pod].nodeID != "" && pod in pods && pods[pod].hasIP
    }

    ghost predicate DesiredReachable() {
      forall p: Pod :: p < desired ==> Reachable(p)
    }

    ghost predicate Covered(slot: int) {
      exists p :: p in statuses && Named(p) && Serves(statuses[p], slot)
    }

    /** There are statuses, none of them gives reason for concern, and they cover all slots. */
    ghost predicate Healthy() {
      && statuses != map[] && (forall p :: p in statuses ==> Fine(statuses[p].clusterState))
      && forall x :: 0 <= x < SLOTS ==> Covered(x)
    }
  }

  function InputOf(spec: Spec, pods: map<Pod, PodMeta>, statuses: Statuses): (input: Input)
    ensures input.Valid() && input.n >= 3
    ensures input.replicas >= 0 ==> input.desired == input.n * (1 + input.replicas)
  {
    Input(spec.ShardCount(), spec.Desired(), spec.replicasPerShard, pods, statuses)
  }

  /** `ownerOf` holds the slots now; `primaryOf` should hold them after any handover. */
  datatype ShardLayout = ShardLayout(
    shardOf: map<Pod, nat>,
    primaryOf: map<nat, Pod>,
    ownerOf: map<nat, Pod>,
    members: map<nat, seq<Pod>>,
    replicaMoves: map<Pod, nat>)
  {
    predicate Placed(pod: Pod, shard: nat) {
      pod in shardOf && shardOf[pod] == shard
    }

    predicate IsPrimaryOf(pod: Pod, shard: nat) {
      shard in primaryOf && primaryOf[shard] == pod
    }

    predicate IsPrimary(pod: Pod) {
      pod in shardOf && IsPrimaryOf(pod, shardOf[pod])
    }

    predicate HandingOver(shard: nat) {
      shard in ownerOf && !IsPrimaryOf(ownerOf[shard], shard)
    }

    function MembersOf(shard: nat): seq<Pod> {
      if shard in members then members[shard] else []
    }

    function Assign(pod: Pod, shard: nat): ShardLayout {
      this.(shardOf := shardOf[pod := shard], members := members[shard := MembersOf(shard) + [pod]])
    }

    function WithPrimary(pod: Pod, shard: nat): ShardLayout {
      this.(primaryOf := primaryOf[shard := pod])
    }

    /** An owner takes a shard, and leads it unless it is about to go away. */
    function Claim(desired: nat, pod: Pod, shard: nat): ShardLayout {
      var l := Assign(pod, shard);
      var l := l.(ownerOf := l.ownerOf[shard := pod]);
      if pod >= desired then l else l.WithPrimary(pod, shard)
    }

    /** A survivor joins a shard and leads it if it may and nobody does. */
    function Join(desired: nat, pod: Pod, shard: nat, mayLead: bool): ShardLayout {
      var l := Assign(pod, shard);
      if mayLead && shard !in primaryOf && pod < desired then l.WithPrimary(pod, shard) else l
    }

    function Move(pod: Pod, shard: nat): ShardLayout
      requires pod in shardOf
    {
      var from := shardOf[pod];
      var l := this.(members := members[from := Without(MembersOf(from), pod)]);
      l.Assign(pod, shard)
    }
  }

  const EMPTY := ShardLayout(map[], map[], map[], map[], map[])

  /** Drop the first occurrence. */
  function Without(pods: seq<Pod>, pod: Pod): seq<Pod> {
    if pods == [] then []
    else if pods[0] == pod then pods[1..]
    else [pods[0]] + Without(pods[1..], pod)
  }

  // ---------------------------------------------------------------- claiming

  /** All names, by ordinal. */
  ghost predicate IsNames(input: Input, names: seq<Pod>) {
    Ascending(names) && forall p :: p in names <==> input.Named(p)
  }

  function OwnersIn(input: Input, names: seq<Pod>): seq<Pod> {
    if names == [] then []
    else
      var front := OwnersIn(input, names[..|names| - 1]);
      var p := names[|names| - 1];
      if input.OwnsSlots(p) then front + [p] else front
  }

  ghost predicate Injective(c: map<Pod, nat>) {
    forall p, q :: p in c && q in c && c[p] == c[q] ==> p == q
  }

  /** The map form of a set of claims. */
  ghost predicate Represents(c: map<Pod, nat>, claims: set<OwnerMatch>) {
    && (forall x :: x in claims ==> x.pod in c && c[x.pod] == x.shard)
    && (forall p :: p in c ==> exists x :: x in claims && x.pod == p)
  }

  ghost predicate StableClaims(input: Input, owners: seq<Pod>, c: map<Pod, nat>)
    requires input.Valid()
  {
    exists claims :: Stable(Market(input.statuses, PodSet(owners), input.n), claims) && Represents(c, claims)
  }

  function LowestUnused(used: set<nat>, from: nat): (s: nat)
    ensures s >= from && s !in used && forall k :: from <= k < s ==> k in used
    decreases |set u | u in used && u >= from|
  {
    if from !in used then from
    else
      assert (set u | u in used && u >= from) == (set u | u in used && u >= from + 1) + {from};
      LowestUnused(used, from + 1)
  }

  /** Owners left without a claim get the lowest unused shard, in ordinal order. */
  function Park(c: map<Pod, nat>, owners: seq<Pod>): map<Pod, nat> {
    if owners == [] then c
    else
      var c' := Park(c, owners[..|owners| - 1]);
      var p := owners[|owners| - 1];
      if p in c' then c' else c'[p := LowestUnused(c'.Values, 0)]
  }

  ghost predicate OwnerClaims(input: Input, owners: seq<Pod>, c: map<Pod, nat>)
    requires input.Valid()
  {
    exists base :: StableClaims(input, owners, base) && c == Park(base, owners)
  }

  /** Each claimant is alone in its shard, and owns it. */
  ghost predicate ClaimsHeld(c: map<Pod, nat>, l: ShardLayout) {
    && Injective(c)
    && l.shardOf == c
    && l.ownerOf.Keys == c.Values && l.members.Keys == c.Values
    && (forall p :: p in c ==> l.ownerOf[c[p]] == p && l.members[c[p]] == [p])
  }

  /** Exactly the surviving owners lead. */
  ghost predicate SurvivorsLead(desired: nat, l: ShardLayout) {
    && (forall s :: s in l.primaryOf <==> s in l.ownerOf && l.ownerOf[s] < desired)
    && (forall s :: s in l.primaryOf ==> l.primaryOf[s] == l.ownerOf[s])
  }

  /** The layout that holds these claims and nothing else. */
  ghost predicate ClaimsOnly(desired: nat, c: map<Pod, nat>, l: ShardLayout) {
    ClaimsHeld(c, l) && SurvivorsLead(desired, l) && l.replicaMoves == map[]
  }

  // ---------------------------------------------------------------- attaching

  /** Some pod for every node ID that was reported. */
  ghost predicate IsNodeIndex(statuses: Statuses, index: map<string, Pod>) {
    && (forall id :: id in index ==> id != "" && index[id] in statuses && statuses[index[id]].nodeID == id)
    && (forall p :: p in statuses && statuses[p].nodeID != "" ==> statuses[p].nodeID in index)
  }

  datatype Draft = Draft(layout: ShardLayout, free: seq<Pod>)

  /** A replica follows the shard of its primary; a pod whose role cannot be seen keeps its label. */
  function Attach(input: Input, index: map<string, Pod>, d: Draft, p: Pod): Draft {
    var l := d.layout;
    var status := StatusOf(input.statuses, p);
    var seen := p in input.statuses && status.connected && (status.role != Slave || status.primaryNodeID != "");
    if p in l.shardOf then d
    else if status.role == Slave && status.primaryNodeID != "" && status.primaryNodeID in index
         && index[status.primaryNodeID] in l.shardOf then
      d.(layout := l.Join(input.desired, p, l.shardOf[index[status.primaryNodeID]], true))
    else if p in input.pods && input.pods[p].shardLabel.Some? && !seen && input.pods[p].shardLabel.value < input.n then
      d.(layout := l.Join(input.desired, p, input.pods[p].shardLabel.value, input.pods[p].primaryLabel))
    else
      d.(free := d.free + [p])
  }

  function AttachAll(input: Input, index: map<string, Pod>, l: ShardLayout, names: seq<Pod>): Draft {
    if names == [] then Draft(l, [])
    else Attach(input, index, AttachAll(input, index, l, names[..|names| - 1]), names[|names| - 1])
  }

  function Filter(desired: nat, pods: seq<Pod>, doomed: bool): seq<Pod> {
    if pods == [] then []
    else
      var front := Filter(desired, pods[..|pods| - 1], doomed);
      var p := pods[|pods| - 1];
      if (p >= desired) == doomed then front + [p] else front
  }

  // ---------------------------------------------------------------- filling

  /** Free survivors lead the shards below `k` that nobody leads, in order. */
  function FillBelow(d: Draft, k: nat): Draft {
    if k == 0 then d
    else
      var d := FillBelow(d, k - 1);
      if d.free == [] || k - 1 in d.layout.primaryOf then d
      else Draft(d.layout.Assign(d.free[0], k - 1).WithPrimary(d.free[0], k - 1), d.free[1..])
  }

  // ---------------------------------------------------------------- heirs

  predicate Spare(desired: nat, l: ShardLayout, shard: nat, p: Pod) {
    shard in l.members && p in l.members[shard] && |l.members[shard]| > 1 && !l.IsPrimaryOf(p, shard) && p < desired
  }

  ghost predicate HasSpare(desired: nat, l: ShardLayout) {
    exists shard, p :: Spare(desired, l, shard, p)
  }

  /** What some order of walking the shards can yield: the first spare member of a largest shard that has one. */
  ghost predicate IsSpareSurvivor(desired: nat, l: ShardLayout, p: Pod) {
    exists shard, k: nat :: FirstSpare(desired, l, shard, k) && l.members[shard][k] == p
                       && forall s, q :: Spare(desired, l, s, q) ==> |l.members[s]| <= |l.members[shard]|
  }

  ghost predicate FirstSpare(desired: nat, l: ShardLayout, shard: nat, k: nat) {
    && shard in l.members && k < |l.members[shard]|
    && Spare(desired, l, shard, l.members[shard][k])
    && forall j :: 0 <= j < k ==> !Spare(desired, l, shard, l.members[shard][j])
  }

  ghost predicate HeirStep(desired: nat, l: ShardLayout, shard: nat, l': ShardLayout) {
    if shard in l.primaryOf || shard !in l.ownerOf || !HasSpare(desired, l) then l' == l
    else exists p :: p in l.shardOf && IsSpareSurvivor(desired, l, p) && l' == l.Move(p, shard).WithPrimary(p, shard)
  }

  /** The layouts before and after each shard in turn has borrowed an heir, if it needed one and there was one. */
  ghost predicate HeirTrace(desired: nat, l: ShardLayout, trace: seq<ShardLayout>) {
    && |trace| > 0 && trace[0] == l
    && forall k: nat :: k + 1 < |trace| ==> HeirStep(desired, trace[k], k, trace[k + 1])
  }

  // ---------------------------------------------------------------- balancing

  /** The lowest of the first `k` shards with fewest members. */
  function LeastLoaded(l: ShardLayout, k: nat): (s: nat)
    requires k > 0
    ensures s < k
  {
    if k == 1 then 0
    else
      var s := LeastLoaded(l, k - 1);
      if |l.MembersOf(k - 1)| < |l.MembersOf(s)| then k - 1 else s
  }

  function Balance(n: nat, l: ShardLayout, free: seq<Pod>): ShardLayout
    requires n > 0
  {
    if free == [] then l
    else
      var l := Balance(n, l, free[..|free| - 1]);
      l.Assign(free[|free| - 1], LeastLoaded(l, n))
  }

  function InsertPod(pods: seq<Pod>, p: Pod): seq<Pod> {
    if pods == [] || pods[|pods| - 1] <= p then pods + [p]
    else InsertPod(pods[..|pods| - 1], p) + [pods[|pods| - 1]]
  }

  function SortPods(pods: seq<Pod>): seq<Pod> {
    if pods == [] then [] else InsertPod(SortPods(pods[..|pods| - 1]), pods[|pods| - 1])
  }

  function SortMembers(l: ShardLayout): ShardLayout {
    l.(members := map s | s in l.members :: SortPods(l.members[s]))
  }

  // ---------------------------------------------------------------- the plan

  /** The choices Go's map order leaves open, and the intermediate results. */
  datatype Choices = Choices(names: seq<Pod>, claims: map<Pod, nat>, owned: ShardLayout, index: map<string, Pod>,
    heirs: seq<ShardLayout>)

  ghost function Attached(input: Input, ch: Choices): Draft {
    AttachAll(input, ch.index, ch.owned, ch.names)
  }

  ghost function Filled(input: Input, ch: Choices): Draft {
    var d := Attached(input, ch);
    FillBelow(d.(free := Filter(input.desired, d.free, false)), input.n)
  }

  ghost function Leftover(input: Input, ch: Choices): seq<Pod> {
    Filled(input, ch).free + Filter(input.desired, Attached(input, ch).free, true)
  }

  ghost predicate PlannedWith(input: Input, ch: Choices, l: ShardLayout)
    requires input.Valid()
  {
    && IsNames(input, ch.names)
    && OwnerClaims(input, OwnersIn(input, ch.names), ch.claims)
    && ClaimsOnly(input.desired, ch.claims, ch.owned)
    && IsNodeIndex(input.statuses, ch.index)
    && HeirTrace(input.desired, Filled(input, ch).layout, ch.heirs) && |ch.heirs| == input.n + 1
    && l == SortMembers(Balance(input.n, ch.heirs[input.n], Leftover(input, ch)))
  }

  /** The layouts planning can produce, before replica moves are added. */
  ghost predicate Planned(input: Input, l: ShardLayout)
    requires input.Valid()
  {
    exists ch :: PlannedWith(input, ch, l)
  }
}
