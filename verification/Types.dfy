/** The records the topology engine reads: what an instance manager reports about
    its pod, and what the specification of a cluster asks for. */
module Types {

  datatype Option<T> = None | Some(value: T)

  /** Number of hash slots, from "Key distribution model" of the Redis Cluster Specification. */
  const SLOTS: nat := 16384

  /** A data pod, named by its ordinal: module `Names` shows that the pod name and the
      ordinal determine each other. */
  type Pod = nat

  /** An inclusive range of slots. It is empty when `end < start`. */
  datatype SlotRange = SlotRange(start: int, end: int) {
    predicate Contains(slot: int) {
      start <= slot <= end
    }

    function Size(): int {
      end - start + 1
    }
  }

  datatype Role = Master | Slave | Unreported

  /** What a pod's instance manager last reported. */
  datatype InstanceStatus = InstanceStatus(
    connected: bool,
    role: Role,
    nodeID: string,
    primaryNodeID: string,
    linkUp: bool,
    slotsServed: seq<SlotRange>,
    clusterState: string := "ok",
    epoch: int := 0)

  /** The value a lookup yields for a pod that was never polled. */
  const NO_STATUS := InstanceStatus(false, Unreported, "", "", false, [], "", 0)

  /** A cluster state that is no reason for concern: none reported, or "ok". */
  predicate Fine(state: string) {
    state == "" || state == "ok"
  }

  type Statuses = map<Pod, InstanceStatus>

  function StatusOf(statuses: Statuses, pod: Pod): InstanceStatus {
    if pod in statuses then statuses[pod] else NO_STATUS
  }

  /** The part of a cluster-mode specification that shapes the topology. */
  datatype Spec = Spec(shards: int, replicasPerShard: int) {

    function ShardCount(): (n: nat)
      ensures n >= 3
    {
      if shards < 3 then 3 else shards
    }

    /** The number of data pods; a pod whose ordinal is not below it is doomed. */
    function Desired(): (d: nat)
      ensures d >= ShardCount()
      ensures replicasPerShard >= 0 ==> d == ShardCount() * (1 + replicasPerShard)
    {
      var replicas := if replicasPerShard < 0 then 0 else replicasPerShard;
      assert ShardCount() * (1 + replicas) == ShardCount() + ShardCount() * replicas;
      assert ShardCount() * replicas >= 0;
      ShardCount() * (1 + replicas)
    }
  }

  predicate InRanges(ranges: seq<SlotRange>, slot: int) {
    exists k :: 0 <= k < |ranges| && ranges[k].Contains(slot)
  }

  predicate Serves(status: InstanceStatus, slot: int) {
    InRanges(status.slotsServed, slot)
  }
}
