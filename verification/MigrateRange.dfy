/** Moving a range of slots from one node to another, key by key in batches, when any command may fail.
    The commands follow "Live reconfiguration" of the Redis Cluster Specification. */
module MigrateRange {

  type Data = map<string, string>

  /** What a node holds and believes. */
  datatype Node = Node(data: Data, view: map<int, string>, importing: map<int, string>, migrating: map<int, string>)

  /** A command that changes a node: the target imports a slot from a node, the source migrates it to one, the
      source sends a batch of keys, and the slot is given to a node at the source or at the target. */
  datatype Command =
    | Importing(slot: int, nodeID: string)
    | Migrating(slot: int, nodeID: string)
    | Moving(slot: int, keys: set<string>)
    | GivenAtSource(slot: int, nodeID: string)
    | GivenAtTarget(slot: int, nodeID: string)

  datatype Side = Source | Target

  /** The commands sent so far, and how many commands and queries were refused. */
  class Wire {
    ghost var sent: seq<Command>
    ghost var refused: nat

    constructor ()
      ensures sent == [] && refused == 0
    {
      sent, refused := [], 0;
    }

    ghost method Log(commands: seq<Command>, ok: bool)
      modifies this
      ensures sent == old(sent) + commands && refused == old(refused) + if ok then 0 else 1
    {
      sent, refused := sent + commands, refused + if ok then 0 else 1;
    }
  }

  /** A node's keys, its own view of who each slot belongs to, and the slots it is receiving or giving away. */
  class RedisNode {
    const side: Side
    var data: Data
    var importing: map<int, string>
    var migrating: map<int, string>
    var view: map<int, string>

    ghost function Now(): Node
      reads this
    {
      Node(data, view, importing, migrating)
    }

    constructor (side: Side)
      ensures this.side == side && Now() == Node(map[], map[], map[], map[])
    {
      this.side, data, importing, migrating, view := side, map[], map[], map[], map[];
    }

    method SetSlotImporting(wire: Wire, slot: int, nodeID: string) returns (ok: bool)
      modifies this`importing, wire
      ensures importing == if ok then old(importing)[slot := nodeID] else old(importing)
      ensures wire.sent == old(wire.sent) + [Importing(slot, nodeID)]
      ensures wire.refused == old(wire.refused) + if ok then 0 else 1
    {
      ok := *;
      if ok { importing := importing[slot := nodeID]; }
      wire.Log([Importing(slot, nodeID)], ok);
    }

    method SetSlotMigrating(wire: Wire, slot: int, nodeID: string) returns (ok: bool)
      modifies this`migrating, wire
      ensures migrating == if ok then old(migrating)[slot := nodeID] else old(migrating)
      ensures wire.sent == old(wire.sent) + [Migrating(slot, nodeID)]
      ensures wire.refused == old(wire.refused) + if ok then 0 else 1
    {
      ok := *;
      if ok { migrating := migrating[slot := nodeID]; }
      wire.Log([Migrating(slot, nodeID)], ok);
    }

    /** Giving a slot to a node also ends its import or migration. */
    method SetSlotNode(wire: Wire, slot: int, nodeID: string) returns (ok: bool)
      modifies this`view, this`importing, this`migrating, wire
      ensures view == if ok then old(view)[slot := nodeID] else old(view)
      ensures importing == if ok then old(importing) - {slot} else old(importing)
      ensures migrating == if ok then old(migrating) - {slot} else old(migrating)
      ensures wire.sent == old(wire.sent) + [Given(side, slot, nodeID)]
      ensures wire.refused == old(wire.refused) + if ok then 0 else 1
    {
      ok := *;
      if ok { view, importing, migrating := view[slot := nodeID], importing - {slot}, migrating - {slot}; }
      wire.Log([Given(side, slot, nodeID)], ok);
    }

    /** Up to `count` keys of the slot, any of them; none only if the slot has none. */
    method GetKeysInSlot(wire: Wire, slotOf: string -> int, slot: int, count: nat)
      returns (ok: bool, keys: set<string>)
      requires count > 0
      modifies wire
      ensures ok ==> keys <= InSlot(slotOf, data, slot) && |keys| <= count
      ensures ok ==> (keys == {} <==> InSlot(slotOf, data, slot) == {})
      ensures wire.sent == old(wire.sent) && wire.refused == old(wire.refused) + if ok then 0 else 1
    {
      ok := *;
      wire.Log([], ok);
      keys := {};
      var rest := set k | k in data && slotOf(k) == slot;
      while rest != {} && |keys| < count
        invariant keys + rest == InSlot(slotOf, data, slot) && keys !! rest && |keys| <= count
        invariant wire.sent == old(wire.sent) && wire.refused == old(wire.refused) + if ok then 0 else 1
        decreases rest
      {
        var key :| key in rest;
        keys, rest := keys + {key}, rest - {key};
      }
    }
  }

  function Given(side: Side, slot: int, nodeID: string): Command {
    if side == Source then GivenAtSource(slot, nodeID) else GivenAtTarget(slot, nodeID)
  }

  /** The keys a node holds of one slot. */
  ghost function InSlot(slotOf: string -> int, data: Data, slot: int): set<string> {
    set k | k in data && slotOf(k) == slot
  }

  ghost predicate Submap(a: Data, b: Data) {
    forall k :: k in a ==> k in b && b[k] == a[k]
  }

  /** A key that is on both nodes has the same value on both. */
  ghost predicate Agree(a: Data, b: Data) {
    forall k :: k in a && k in b ==> a[k] == b[k]
  }

  /** Keys go from source to target and nowhere else: none is lost or changed. */
  ghost predicate Conserved(source0: Data, target0: Data, source: Data, target: Data) {
    && Agree(source, target)
    && source + target == source0 + target0
    && Submap(source, source0) && Submap(target0, target)
  }

  lemma ConservedStep(source0: Data, target0: Data, source: Data, target: Data, copied: set<string>, moved: set<string>)
    requires Conserved(source0, target0, source, target) && moved <= copied <= source.Keys
    ensures Conserved(source0, target0, source - moved, target + (map k | k in copied :: source[k]))
  {
    var source', target' := source - moved, target + (map k | k in copied :: source[k]);
    assert source' + target' == source + target;
  }

  /** MIGRATE ... KEYS without REPLACE, sent only for keys of a slot that has been announced on both sides. The
      target refuses keys it has, and then the command fails; a failure may leave any part of the batch at the
      source, and after a timeout some of it on both nodes. */
  method MigrateKeys(wire: Wire, slotOf: string -> int, source: RedisNode, target: RedisNode, slot: int,
                     keys: set<string>)
    returns (ok: bool, ghost copied: set<string>, ghost moved: set<string>)
    requires source != target && keys <= InSlot(slotOf, source.data, slot)
    requires slot in target.importing && slot in source.migrating
    modifies source`data, target`data, wire
    ensures wire.sent == old(wire.sent) + [Moving(slot, keys)]
    ensures wire.refused == old(wire.refused) + if ok then 0 else 1
    ensures moved <= copied <= keys && copied !! old(target.data).Keys && (ok ==> moved == keys)
    ensures source.data == old(source.data) - moved
    ensures target.data == old(target.data) + (map k | k in copied :: old(source.data)[k])
  {
    var lacking := set k | k in keys && k !in target.data;
    ok := *;
    var arrived, gone := keys, keys;
    if !ok || lacking != keys {
      ok := false;
      arrived :| arrived <= lacking;
      gone :| gone <= arrived;
    }
    target.data := target.data + (map k | k in arrived :: source.data[k]);
    source.data := source.data - gone;
    copied, moved := arrived, gone;
    wire.Log([Moving(slot, keys)], ok);
  }

  /** Batches of the slot's keys, none empty and none too large. */
  ghost predicate Batches(moves: seq<Command>, slot: int, batch: nat) {
    forall k :: 0 <= k < |moves| ==> IsBatch(moves[k], slot, batch)
  }

  ghost predicate IsBatch(command: Command, slot: int, batch: nat) {
    command.Moving? && command.slot == slot && command.keys != {} && |command.keys| <= batch
  }

  /** The commands for one slot: announce it at the target and at the source, move its keys, give it to the
      target at the source and at the target. */
  ghost function SlotCommands(slot: int, sourceID: string, targetID: string, moves: seq<Command>): seq<Command> {
    [Importing(slot, sourceID), Migrating(slot, targetID)] + moves
      + [GivenAtSource(slot, targetID), GivenAtTarget(slot, targetID)]
  }

  /** All the commands for the slot, in order. */
  ghost predicate InFull(log: seq<Command>, slot: int, batch: nat, sourceID: string, targetID: string) {
    exists moves :: Batches(moves, slot, batch) && log == SlotCommands(slot, sourceID, targetID, moves)
  }

  /** The commands for the slot, in order, up to some point. */
  ghost predicate InOrder(log: seq<Command>, slot: int, batch: nat, sourceID: string, targetID: string) {
    exists moves :: Batches(moves, slot, batch) && log <= SlotCommands(slot, sourceID, targetID, moves)
  }

  /** The keys of the slot that are on both nodes. */
  ghost function OnBoth(slotOf: string -> int, source: Data, target: Data, slot: int): set<string> {
    set k | k in source && k in target && slotOf(k) == slot
  }

  /** Empty one slot batch by batch. A key of the slot that is on both nodes already stays there, and the
      slot cannot be emptied. */
  method DrainSlot(wire: Wire, slotOf: string -> int, source: RedisNode, target: RedisNode, slot: int, batch: nat,
                   ghost source0: Data, ghost target0: Data)
    returns (ok: bool, ghost moves: seq<Command>)
    requires source != target && batch > 0 && Conserved(source0, target0, source.data, target.data)
    requires slot in target.importing && slot in source.migrating
    modifies source`data, target`data, wire
    ensures wire.sent == old(wire.sent) + moves && Batches(moves, slot, batch)
    ensures wire.refused == old(wire.refused) + if ok then 0 else 1
    ensures Conserved(source0, target0, source.data, target.data)
    ensures forall s :: s != slot ==> SameKeys(slotOf, old(source.data), old(target.data), source.data, target.data, s)
    ensures OnBoth(slotOf, old(source.data), old(target.data), slot) <= OnBoth(slotOf, source.data, target.data, slot)
    ensures ok ==> InSlot(slotOf, source.data, slot) == {}
  {
    moves := [];
    while true
      invariant wire.sent == old(wire.sent) + moves && Batches(moves, slot, batch)
      invariant wire.refused == old(wire.refused)
      invariant Conserved(source0, target0, source.data, target.data)
      invariant forall s :: s != slot ==>
                  SameKeys(slotOf, old(source.data), old(target.data), source.data, target.data, s)
      invariant OnBoth(slotOf, old(source.data), old(target.data), slot) <= OnBoth(slotOf, source.data, target.data,
                slot)
      decreases source.data.Keys
    {
      var got, keys := source.GetKeysInSlot(wire, slotOf, slot, batch);
      if !got {
        return false, moves;
      }
      if keys == {} {
        return true, moves;
      }
      ghost var before, there := source.data, target.data;
      var sent, copied, moved := MigrateKeys(wire, slotOf, source, target, slot, keys);
      moves := moves + [Moving(slot, keys)];
      ConservedStep(source0, target0, before, there, copied, moved);
      forall s | s != slot ensures SameKeys(slotOf, old(source.data), old(target.data), source.data, target.data, s) {
        assert SameKeys(slotOf, old(source.data), old(target.data), before, there, s);
        BatchStaysInSlot(slotOf, before, there, copied, moved, slot, s);
      }
      if !sent {
        return false, moves;
      }
    }
  }

  lemma BatchStaysInSlot(slotOf: string -> int, source: Data, target: Data, copied: set<string>, moved: set<string>,
                         slot: int, s: int)
    requires moved <= copied <= InSlot(slotOf, source, slot) && s != slot
    ensures SameKeys(slotOf, source, target, source - moved, target + (map k | k in copied :: source[k]), s)
  {
    assert forall k :: k in copied ==> slotOf(k) == slot;
  }

  /** Neither node has gained or lost a key of the slot. */
  ghost predicate SameKeys(slotOf: string -> int, source0: Data, target0: Data, source: Data, target: Data, slot: int) {
    InSlot(slotOf, source, slot) == InSlot(slotOf, source0, slot)
      && InSlot(slotOf, target, slot) == InSlot(slotOf, target0, slot)
  }

  /** The slot has left the source: no keys, both nodes say it belongs to the target, and neither is receiving
      it or giving it away any more. */
  ghost predicate HandedOver(slotOf: string -> int, source: Node, target: Node, slot: int, nodeID: string) {
    && InSlot(slotOf, source.data, slot) == {}
    && slot in source.view && source.view[slot] == nodeID
    && slot in target.view && target.view[slot] == nodeID
    && slot !in source.importing && slot !in source.migrating && slot !in target.importing && slot !in target.migrating
  }

  /** Nothing about the slot has changed at the node. */
  ghost predicate Untouched(slotOf: string -> int, before: Node, after: Node, slot: int) {
    && InSlot(slotOf, after.data, slot) == InSlot(slotOf, before.data, slot)
    && SameAt(before.view, after.view, slot)
    && SameAt(before.importing, after.importing, slot) && SameAt(before.migrating, after.migrating, slot)
  }

  ghost predicate SameAt(before: map<int, string>, after: map<int, string>, slot: int) {
    (slot in after <==> slot in before) && (slot in after ==> after[slot] == before[slot])
  }

  /** Nothing has changed at either node except about one slot. */
  ghost predicate OnlyAt(slotOf: string -> int, source0: Node, target0: Node, source: Node, target: Node, slot: int) {
    forall s :: s != slot ==> Untouched(slotOf, source0, source, s) && Untouched(slotOf, target0, target, s)
  }

  /** Move one slot: announce it on both sides, drain it, then reassign it at the source and at the target. */
  method MigrateSlot(wire: Wire, slotOf: string -> int, source: RedisNode, target: RedisNode, slot: int,
                     sourceID: string, targetID: string, batch: nat, ghost source0: Data, ghost target0: Data)
    returns (ok: bool, ghost log: seq<Command>)
    requires source != target && source.side == Source && target.side == Target && batch > 0
    requires Conserved(source0, target0, source.data, target.data)
    modifies source, target, wire
    ensures Conserved(source0, target0, source.data, target.data)
    ensures OnlyAt(slotOf, old(source.Now()), old(target.Now()), source.Now(), target.Now(), slot)
    ensures OnBoth(slotOf, old(source.data), old(target.data), slot) <= OnBoth(slotOf, source.data, target.data, slot)
    ensures ok ==> HandedOver(slotOf, source.Now(), target.Now(), slot, targetID)
    ensures wire.sent == old(wire.sent) + log && wire.refused == old(wire.refused) + if ok then 0 else 1
    ensures InOrder(log, slot, batch, sourceID, targetID) && (ok ==> InFull(log, slot, batch, sourceID, targetID))
  {
    hide Conserved, Untouched, OnlyAt, SameKeys, SameAt, SameSlot, InOrder, InFull, Batches;
    ghost var source1, target1 := source.Now(), target.Now();
    ok, log := Announce(wire, source, target, slot, sourceID, targetID);
    OnlyAnnounced(slotOf, source1, target1, source.Now(), target.Now(), slot);
    NoBatches(slot, batch);
    Prefix(log, slot, batch, sourceID, targetID, []);
    if !ok { return; }
    ghost var source2, target2 := source.Now(), target.Now();
    ghost var moves;
    ok, moves := DrainSlot(wire, slotOf, source, target, slot, batch, source0, target0);
    OnlyDrained(slotOf, source1, target1, source2, target2, source.Now(), target.Now(), slot);
    log := log + moves;
    Prefix(log, slot, batch, sourceID, targetID, moves);
    if !ok { return; }
    ghost var source3, target3 := source.Now(), target.Now();
    ghost var given;
    ok, given := Give(wire, source, target, slot, targetID);
    OnlyGiven(slotOf, source1, target1, source3, target3, source.Now(), target.Now(), slot);
    log := log + given;
    Prefix(log, slot, batch, sourceID, targetID, moves);
  }

  /** Announce a slot, first where it goes and then where it comes from. */
  method Announce(wire: Wire, source: RedisNode, target: RedisNode, slot: int, sourceID: string, targetID: string)
    returns (ok: bool, ghost log: seq<Command>)
    requires source != target
    modifies source`migrating, target`importing, wire
    ensures wire.sent == old(wire.sent) + log && wire.refused == old(wire.refused) + if ok then 0 else 1
    ensures log != [] && log <= [Importing(slot, sourceID), Migrating(slot, targetID)]
    ensures ok ==> log == [Importing(slot, sourceID), Migrating(slot, targetID)]
    ensures ok ==> target.importing == old(target.importing)[slot := sourceID]
                   && source.migrating == old(source.migrating)[slot := targetID]
    ensures forall s :: s != slot ==>
              SameAt(old(target.importing), target.importing, s) && SameAt(old(source.migrating), source.migrating, s)
  {
    ok := target.SetSlotImporting(wire, slot, sourceID);
    log := [Importing(slot, sourceID)];
    if !ok { return; }
    ok := source.SetSlotMigrating(wire, slot, targetID);
    log := log + [Migrating(slot, targetID)];
  }

  /** Give a drained slot to the target, first at the source and then at the target. */
  method Give(wire: Wire, source: RedisNode, target: RedisNode, slot: int, targetID: string)
    returns (ok: bool, ghost log: seq<Command>)
    requires source != target && source.side == Source && target.side == Target
    modifies source`view, source`importing, source`migrating, target`view, target`importing, target`migrating, wire
    ensures wire.sent == old(wire.sent) + log && wire.refused == old(wire.refused) + if ok then 0 else 1
    ensures log != [] && log <= [GivenAtSource(slot, targetID), GivenAtTarget(slot, targetID)]
    ensures ok ==> log == [GivenAtSource(slot, targetID), GivenAtTarget(slot, targetID)]
    ensures ok ==> GivenTo(source.Now(), slot, targetID) && GivenTo(target.Now(), slot, targetID)
    ensures forall s :: s != slot ==>
              SameSlot(old(source.Now()), source.Now(), s) && SameSlot(old(target.Now()), target.Now(), s)
  {
    ok := source.SetSlotNode(wire, slot, targetID);
    log := [GivenAtSource(slot, targetID)];
    if !ok { return; }
    ok := target.SetSlotNode(wire, slot, targetID);
    log := log + [GivenAtTarget(slot, targetID)];
  }

  ghost predicate GivenTo(node: Node, slot: int, nodeID: string) {
    slot in node.view && node.view[slot] == nodeID && slot !in node.importing && slot !in node.migrating
  }

  /** The node's view of the slot is as before. */
  ghost predicate SameSlot(before: Node, after: Node, slot: int) {
    && SameAt(before.view, after.view, slot)
    && SameAt(before.importing, after.importing, slot) && SameAt(before.migrating, after.migrating, slot)
  }

  lemma NoBatches(slot: int, batch: nat)
    ensures Batches([], slot, batch)
  {
  }

  lemma Prefix(log: seq<Command>, slot: int, batch: nat, sourceID: string, targetID: string, moves: seq<Command>)
    requires Batches(moves, slot, batch)
    ensures log <= SlotCommands(slot, sourceID, targetID, moves) ==> InOrder(log, slot, batch, sourceID, targetID)
    ensures log == SlotCommands(slot, sourceID, targetID, moves) ==> InFull(log, slot, batch, sourceID, targetID)
  {
  }

  lemma OnlyAnnounced(slotOf: string -> int, source1: Node, target1: Node, source: Node, target: Node, slot: int)
    requires source == source1.(migrating := source.migrating) && target == target1.(importing := target.importing)
    requires forall s :: s != slot ==>
               SameAt(target1.importing, target.importing, s) && SameAt(source1.migrating, source.migrating, s)
    ensures OnlyAt(slotOf, source1, target1, source, target, slot)
  {
  }

  lemma OnlyDrained(slotOf: string -> int, source1: Node, target1: Node, source2: Node, target2: Node, source: Node,
                    target: Node, slot: int)
    requires source == source2.(data := source.data) && target == target2.(data := target.data)
    requires OnlyAt(slotOf, source1, target1, source2, target2, slot)
    requires forall s :: s != slot ==> SameKeys(slotOf, source2.data, target2.data, source.data, target.data, s)
    ensures OnlyAt(slotOf, source1, target1, source, target, slot)
  {
    hide InSlot;
    forall s | s != slot ensures Untouched(slotOf, source1, source, s) && Untouched(slotOf, target1, target, s) {
      assert SameKeys(slotOf, source2.data, target2.data, source.data, target.data, s);
      assert Untouched(slotOf, source1, source2, s) && Untouched(slotOf, target1, target2, s);
    }
  }

  lemma OnlyGiven(slotOf: string -> int, source1: Node, target1: Node, source3: Node, target3: Node, source: Node,
                  target: Node, slot: int)
    requires source.data == source3.data && target.data == target3.data
    requires forall s :: s != slot ==> SameSlot(source3, source, s) && SameSlot(target3, target, s)
    requires OnlyAt(slotOf, source1, target1, source3, target3, slot)
    ensures OnlyAt(slotOf, source1, target1, source, target, slot)
  {
    hide InSlot;
    forall s | s != slot ensures Untouched(slotOf, source1, source, s) && Untouched(slotOf, target1, target, s) {
      assert SameSlot(source3, source, s) && SameSlot(target3, target, s);
      assert Untouched(slotOf, source1, source3, s) && Untouched(slotOf, target1, target3, s);
    }
  }

  /** One after the other. */
  ghost function Flat(logs: seq<seq<Command>>): seq<Command> {
    if logs == [] then [] else Flat(logs[..|logs| - 1]) + logs[|logs| - 1]
  }

  /** All slots were moved with all their commands in order. */
  ghost predicate AllInFull(logs: seq<seq<Command>>, start: int, batch: nat, sourceID: string, targetID: string) {
    forall k :: 0 <= k < |logs| ==> InFull(logs[k], start + k, batch, sourceID, targetID)
  }

  /** The slots before the last log's were moved with all their commands in order, and the last one's are in order
      as far as they go. */
  ghost predicate SlotBySlot(logs: seq<seq<Command>>, start: int, batch: nat, sourceID: string, targetID: string) {
    logs != [] ==>
      var last := |logs| - 1;
      AllInFull(logs[..last], start, batch, sourceID, targetID)
        && InOrder(logs[last], start + last, batch, sourceID, targetID)
  }

  lemma NoLogs(start: int, batch: nat, sourceID: string, targetID: string)
    ensures Flat([]) == [] && AllInFull([], start, batch, sourceID, targetID)
    ensures SlotBySlot([], start, batch, sourceID, targetID)
  {
  }

  lemma OneMoreLog(logs: seq<seq<Command>>, log: seq<Command>, start: int, batch: nat, sourceID: string,
                   targetID: string)
    requires AllInFull(logs, start, batch, sourceID, targetID)
    requires InOrder(log, start + |logs|, batch, sourceID, targetID)
    ensures Flat(logs + [log]) == Flat(logs) + log && SlotBySlot(logs + [log], start, batch, sourceID, targetID)
    ensures InFull(log, start + |logs|, batch, sourceID, targetID) ==>
              AllInFull(logs + [log], start, batch, sourceID, targetID)
  {
    hide InOrder, InFull, Flat;
    FlatAppend(logs, log);
    var all := logs + [log];
    assert all[..|logs|] == logs && all[|logs|] == log;
    if InFull(log, start + |logs|, batch, sourceID, targetID) {
      forall k | 0 <= k < |all| ensures InFull(all[k], start + k, batch, sourceID, targetID) {
        assert k < |logs| ==> all[k] == logs[k];
      }
    }
  }

  lemma FlatAppend(logs: seq<seq<Command>>, log: seq<Command>)
    ensures Flat(logs + [log]) == Flat(logs) + log
  {
    assert (logs + [log])[..|logs|] == logs;
  }

  lemma FullIsInOrder(logs: seq<seq<Command>>, start: int, batch: nat, sourceID: string, targetID: string)
    requires AllInFull(logs, start, batch, sourceID, targetID)
    ensures SlotBySlot(logs, start, batch, sourceID, targetID)
  {
    if logs != [] {
      var log := logs[|logs| - 1];
      var moves :| Batches(moves, start + |logs| - 1, batch)
        && log == SlotCommands(start + |logs| - 1, sourceID, targetID, moves);
      assert InOrder(log, start + |logs| - 1, batch, sourceID, targetID);
    }
  }

  /** The slots from `start` to below `slot` have been handed over, with no key on both nodes to begin with;
      the others are untouched. */
  ghost predicate DoneBelow(slotOf: string -> int, source0: Node, target0: Node, source: Node, target: Node,
                            start: int, slot: int, nodeID: string) {
    && (forall s :: start <= s < slot ==>
          HandedOver(slotOf, source, target, s, nodeID) && OnBoth(slotOf, source0.data, target0.data, s) == {})
    && (forall s :: s < start || s >= slot ==>
          Untouched(slotOf, source0, source, s) && Untouched(slotOf, target0, target, s))
  }

  /** The slots before `stopped` are handed over, those after it and outside the range are untouched. */
  ghost predicate StoppedAt(slotOf: string -> int, source0: Node, target0: Node, source: Node, target: Node,
                            start: int, stopped: int, nodeID: string) {
    && (forall s :: start <= s < stopped ==> HandedOver(slotOf, source, target, s, nodeID))
    && (forall s :: s < start || s > stopped ==>
          Untouched(slotOf, source0, source, s) && Untouched(slotOf, target0, target, s))
  }

  predicate BadRequest(targetIP: string, targetID: string, sourceID: string, start: int, end: int) {
    targetIP == "" || targetID == "" || sourceID == "" || end < start
  }

  function BatchOf(batchSize: int): nat {
    if batchSize <= 0 then 64 else batchSize
  }

  /** Migrating a range conserves keys whatever fails: the two nodes together always hold the same keys and
      values. Success hands over the whole range, and no key of the range can then have been on both nodes to
      begin with: what a timeout leaves on both nodes keeps every later request from succeeding. After a
      failure the slots before the one that failed are handed over, later ones and those outside the range
      are untouched. The commands go slot by slot, each slot announced before its keys move and given to the
      target when it is empty, and a good request fails only because something was refused. */
  method HandleClusterMigrateRange(wire: Wire, slotOf: string -> int, source: RedisNode, target: RedisNode,
                                   targetIP: string, targetID: string, sourceID: string, start: int, end: int,
                                   batchSize: int)
    returns (ok: bool, ghost stopped: int, ghost logs: seq<seq<Command>>)
    requires source != target && source.side == Source && target.side == Target && Agree(source.data, target.data)
    modifies source, target, wire
    ensures Conserved(old(source.data), old(target.data), source.data, target.data)
    ensures BadRequest(targetIP, targetID, sourceID, start, end) ==>
              !ok && source.Now() == old(source.Now()) && target.Now() == old(target.Now()) && logs == []
    ensures ok ==> DoneBelow(slotOf, old(source.Now()), old(target.Now()), source.Now(), target.Now(), start, end + 1,
            targetID)
    ensures !ok && !BadRequest(targetIP, targetID, sourceID, start, end) ==>
              && start <= stopped <= end
              && StoppedAt(slotOf, old(source.Now()), old(target.Now()), source.Now(), target.Now(), start, stopped,
                targetID)
              && |logs| == stopped - start + 1
    ensures wire.sent == old(wire.sent) + Flat(logs) && SlotBySlot(logs, start, BatchOf(batchSize), sourceID, targetID)
    ensures ok ==> |logs| == end - start + 1 && AllInFull(logs, start, BatchOf(batchSize), sourceID, targetID)
    ensures wire.refused ==
            old(wire.refused) + if ok || BadRequest(targetIP, targetID, sourceID, start, end) then 0 else 1
  {
    hide Conserved, DoneBelow, StoppedAt, OnlyAt, Untouched, HandedOver, OnBoth, SlotBySlot, AllInFull, Flat;
    stopped, logs := start, [];
    NoLogs(start, BatchOf(batchSize), sourceID, targetID);
    ghost var source0, target0 := source.Now(), target.Now();
    NothingMoved(slotOf, source0, target0);
    if targetIP == "" || targetID == "" || sourceID == "" || end < start {
      return false, stopped, [];
    }
    var batch := BatchOf(batchSize);
    var slot := start;
    while slot <= end
      invariant start <= slot <= end + 1
      invariant Conserved(source0.data, target0.data, source.data, target.data)
      invariant DoneBelow(slotOf, source0, target0, source.Now(), target.Now(), start, slot, targetID)
      invariant |logs| == slot - start && AllInFull(logs, start, batch, sourceID, targetID)
      invariant wire.sent == old(wire.sent) + Flat(logs) && wire.refused == old(wire.refused)
    {
      ghost var source1, target1 := source.Now(), target.Now();
      ghost var log;
      ok, log := MigrateSlot(wire, slotOf, source, target, slot, sourceID, targetID, batch, source0.data, target0.data);
      OneMoreLog(logs, log, start, batch, sourceID, targetID);
      logs := logs + [log];
      OneMore(slotOf, source0, target0, source1, target1, source.Now(), target.Now(), start, slot, targetID);
      if !ok {
        return false, slot, logs;
      }
      slot := slot + 1;
    }
    FullIsInOrder(logs, start, batch, sourceID, targetID);
    ok := true;
  }

  lemma NothingMoved(slotOf: string -> int, source: Node, target: Node)
    requires Agree(source.data, target.data)
    ensures Conserved(source.data, target.data, source.data, target.data)
    ensures forall s, nodeID :: DoneBelow(slotOf, source, target, source, target, s, s, nodeID)
  {
  }

  lemma Stands(slotOf: string -> int, before: Node, between: Node, after: Node, s: int)
    requires Untouched(slotOf, between, after, s)
    ensures Untouched(slotOf, before, between, s) ==> Untouched(slotOf, before, after, s)
  {
  }

  lemma HandoverStands(slotOf: string -> int, source1: Node, target1: Node, source: Node, target: Node, s: int,
                       nodeID: string)
    requires Untouched(slotOf, source1, source, s) && Untouched(slotOf, target1, target, s)
    ensures HandedOver(slotOf, source1, target1, s, nodeID) ==> HandedOver(slotOf, source, target, s, nodeID)
  {
  }

  /** Both nodes have what they had of the slot, so the same keys are on both. */
  lemma SameOnBoth(slotOf: string -> int, source0: Node, target0: Node, source: Node, target: Node, s: int)
    requires Untouched(slotOf, source0, source, s) && Untouched(slotOf, target0, target, s)
    ensures OnBoth(slotOf, source.data, target.data, s) == OnBoth(slotOf, source0.data, target0.data, s)
  {
    forall k ensures k in OnBoth(slotOf, source.data, target.data, s) <==>
      k in OnBoth(slotOf, source0.data, target0.data, s) {
      assert k in InSlot(slotOf, source.data, s) <==> k in InSlot(slotOf, source0.data, s);
      assert k in InSlot(slotOf, target.data, s) <==> k in InSlot(slotOf, target0.data, s);
    }
  }

  lemma EmptyIsNotOnBoth(slotOf: string -> int, source: Node, target: Node, s: int)
    requires InSlot(slotOf, source.data, s) == {}
    ensures OnBoth(slotOf, source.data, target.data, s) == {}
  {
    assert OnBoth(slotOf, source.data, target.data, s) <= InSlot(slotOf, source.data, s);
  }

  /** Moving one more slot. */
  lemma OneMore(slotOf: string -> int, source0: Node, target0: Node, source1: Node, target1: Node, source: Node,
                target: Node,
                start: int, slot: int, nodeID: string)
    requires DoneBelow(slotOf, source0, target0, source1, target1, start, slot, nodeID) && start <= slot
    requires OnlyAt(slotOf, source1, target1, source, target, slot)
    requires OnBoth(slotOf, source1.data, target1.data, slot) <= OnBoth(slotOf, source.data, target.data, slot)
    ensures StoppedAt(slotOf, source0, target0, source, target, start, slot, nodeID)
    ensures HandedOver(slotOf, source, target, slot, nodeID) ==>
              DoneBelow(slotOf, source0, target0, source, target, start, slot + 1, nodeID)
  {
    if HandedOver(slotOf, source, target, slot, nodeID) {
      EmptyIsNotOnBoth(slotOf, source, target, slot);
      SameOnBoth(slotOf, source0, target0, source1, target1, slot);
    }
    hide Untouched, HandedOver, OnBoth;
    forall s | start <= s < slot ensures HandedOver(slotOf, source, target, s, nodeID) {
      HandoverStands(slotOf, source1, target1, source, target, s, nodeID);
    }
    forall s | s < start || s > slot ensures Untouched(slotOf, source0, source, s)
      && Untouched(slotOf, target0, target, s) {
      Stands(slotOf, source0, source1, source, s);
      Stands(slotOf, target0, target1, target, s);
    }
  }
}
