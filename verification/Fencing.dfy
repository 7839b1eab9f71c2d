/** The two annotations that fence pods: the fence list, and the marker of a planned handover. A pod in
    the list is out of service; it is also stopped unless the marker says the fence is a planned one. */
module Fencing {
  import opened Types

  /** Encoding a list of names as the value of an annotation, and back. */
  datatype Codec = Codec(marshal: seq<string> -> string, unmarshal: string -> Option<seq<string>>) {

    /** What encoding/json guarantees for lists of strings. */
    ghost predicate Sound() {
      unmarshal("") == None && forall names :: unmarshal(marshal(names)) == Some(names)
    }
  }

  /** The part of a cluster object that fencing reads and writes. */
  datatype Cluster = Cluster(clusterMode: bool, fence: Option<string>, marker: Option<string>)

  // ---------------------------------------------------------------- the marker

  /** The text before and after the first slash, if there is one. */
  function Cut(text: string): (r: (string, string, bool))
    ensures r.2 ==> text == r.0 + "/" + r.1 && '/' !in r.0
    ensures !r.2 <==> '/' !in text
  {
    if text == "" then ("", "", false)
    else if text[0] == '/' then ("", text[1..], true)
    else
      var (before, after, found) := Cut(text[1..]);
      assert text == [text[0]] + text[1..];
      if found then ([text[0]] + before, after, true) else (text, "", false)
  }

  function MarkerText(cluster: Cluster): string {
    if cluster.marker.Some? then cluster.marker.value else ""
  }

  /** Owner and heir of a planned handover, or empty names. */
  function HandoverPods(cluster: Cluster): (string, string) {
    if !cluster.clusterMode then ("", "")
    else
      var (owner, heir, found) := Cut(MarkerText(cluster));
      if !found || owner == "" || heir == "" || owner == heir || '/' in heir then ("", "") else (owner, heir)
  }

  function MarkerFor(owner: string, heir: string): string {
    owner + "/" + heir
  }

  lemma {:induction false} CutFinds(before: string, after: string)
    requires '/' !in before
    ensures Cut(before + "/" + after) == (before, after, true)
  {
    var text := before + "/" + after;
    if before == "" {
      assert text == "/" + after;
    } else {
      assert text[1..] == before[1..] + "/" + after;
      CutFinds(before[1..], after);
      assert before == [before[0]] + before[1..];
    }
  }

  predicate GoodPair(owner: string, heir: string) {
    owner != "" && heir != "" && owner != heir && '/' !in owner && '/' !in heir
  }

  /** The marker round-trips for exactly the pairs of distinct nonempty names without a slash. */
  lemma MarkerRoundTrip(cluster: Cluster, owner: string, heir: string)
    requires cluster.clusterMode && cluster.marker == Some(MarkerFor(owner, heir))
    ensures HandoverPods(cluster) == (owner, heir) <==> GoodPair(owner, heir) || (owner == "" && heir == "")
  {
    if '/' !in owner {
      CutFinds(owner, heir);
    } else {
      var (before, after, found) := Cut(MarkerFor(owner, heir));
      assert '/' in MarkerFor(owner, heir);
    }
  }

  /** A marker that parses is the marker of the pair it parses to. */
  lemma MarkerIsCanonical(cluster: Cluster)
    requires HandoverPods(cluster).0 != ""
    ensures GoodPair(HandoverPods(cluster).0, HandoverPods(cluster).1)
    ensures cluster.marker == Some(MarkerFor(HandoverPods(cluster).0, HandoverPods(cluster).1))
  {
  }

  // ---------------------------------------------------------------- the fence list

  /** The operator's reading of the fence list. */
  function FencedPods(codec: Codec, cluster: Cluster): seq<string> {
    if cluster.fence.None? || cluster.fence.value == "" then []
    else match codec.unmarshal(cluster.fence.value)
      case None => []
      case Some(names) => names
  }

  /** The pod's reading, before it decides to stop Redis. */
  predicate IsFenced(codec: Codec, cluster: Cluster, pod: string) {
    cluster.fence.Some? &&
    match codec.unmarshal(cluster.fence.value)
    case None => false
    case Some(names) => pod in names
  }

  /** The readiness probe's reading. */
  predicate PodIsFenced(codec: Codec, cluster: Cluster, pod: string) {
    pod != "" &&
    var raw := if cluster.fence.Some? then cluster.fence.value else "";
    raw != "" &&
    match codec.unmarshal(raw)
    case None => false
    case Some(names) => pod in names
  }

  /** The three readers agree on every annotation value. */
  lemma ReadersAgree(codec: Codec, cluster: Cluster, pod: string)
    requires codec.Sound()
    ensures IsFenced(codec, cluster, pod) <==> pod in FencedPods(codec, cluster)
    ensures PodIsFenced(codec, cluster, pod) <==> pod in FencedPods(codec, cluster) && pod != ""
  {
  }

  /** Redis is stopped: the pod is fenced, and not as the owner of a planned handover. */
  predicate RequiresHardFence(codec: Codec, cluster: Cluster, pod: string) {
    IsFenced(codec, cluster, pod) && HandoverPods(cluster).0 != pod
  }

  /** The readiness probe succeeds. */
  predicate Ready(codec: Codec, cluster: Cluster, pod: string, pings: bool) {
    !PodIsFenced(codec, cluster, pod) && pings
  }

  /** Two levels of fencing: a fenced pod is never ready, and it keeps running exactly when a
      well-formed marker in cluster mode names it as the owner. */
  lemma TwoLevels(codec: Codec, cluster: Cluster, pod: string, pings: bool)
    requires codec.Sound() && pod != "" && pod in FencedPods(codec, cluster)
    ensures !Ready(codec, cluster, pod, pings)
    ensures !RequiresHardFence(codec, cluster, pod) <==>
            cluster.clusterMode && exists heir :: GoodPair(pod, heir) && cluster.marker == Some(MarkerFor(pod, heir))
  {
    ReadersAgree(codec, cluster, pod);
    if !RequiresHardFence(codec, cluster, pod) {
      MarkerIsCanonical(cluster);
    }
    if cluster.clusterMode {
      forall heir | GoodPair(pod, heir) && cluster.marker == Some(MarkerFor(pod, heir))
        ensures HandoverPods(cluster).0 == pod {
        MarkerRoundTrip(cluster, pod, heir);
      }
    }
  }
}
