/** The endpoints of each device, best medium first (oem/nvidia/erot_time_manager.hpp and .cpp).

    A device's priority queue is a multiset: an endpoint that is discovered again is pushed again. */
module EndpointMap {
  import opened Common

  datatype Medium = PCIe | SPI | I3C | USB | SMBus

  function Priority(m: Medium): nat {
    match m
    case PCIe => 0
    case SPI => 1
    case I3C => 2
    case USB => 3
    case SMBus => 4
  }

  type UUID = string

  datatype EidInfo = EidInfo(eid: Byte, medium: Medium)

  /** The order of the priority queue, whose top is a greatest element. */
  predicate Less(a: EidInfo, b: EidInfo) {
    Priority(a.medium) > Priority(b.medium)
  }

  type InfoMap = map<UUID, multiset<EidInfo>>

  predicate IsTop(queue: multiset<EidInfo>, top: EidInfo) {
    top in queue && forall i :: i in queue ==> !Less(top, i)
  }

  lemma {:induction false} TopExists(queue: multiset<EidInfo>)
    requires queue != multiset{}
    ensures exists top :: IsTop(queue, top)
  {
    var i :| i in queue;
    var rest := queue - multiset{i};
    if rest == multiset{} {
      assert forall j :: j in queue ==> j == i || j in rest;
      assert IsTop(queue, i);
    } else {
      TopExists(rest);
      var top :| IsTop(rest, top);
      assert forall j :: j in queue ==> j == i || j in rest;
      assert IsTop(queue, if Less(top, i) then i else top);
    }
  }

  function Pushed(m: InfoMap, uuid: UUID, i: EidInfo): InfoMap {
    m[uuid := (if uuid in m then m[uuid] else multiset{}) + multiset{i}]
  }

  /** The endpoints that a sync targets: one top per device, in the order of the unordered map. */
  datatype Target = Target(uuid: UUID, info: EidInfo)

  predicate Targeted(targets: seq<Target>, uuid: UUID) {
    exists i :: 0 <= i < |targets| && targets[i].uuid == uuid
  }

  predicate AreTargets(m: InfoMap, targets: seq<Target>) {
    && (forall t :: t in targets ==> t.uuid in m && IsTop(m[t.uuid], t.info))
    && (forall i, j :: 0 <= i < j < |targets| ==> targets[i].uuid != targets[j].uuid)
    && (forall u :: u in m ==> Targeted(targets, u))
  }

  function EidsOfTargets(targets: seq<Target>): seq<Byte> {
    seq(|targets|, i requires 0 <= i < |targets| => targets[i].info.eid)
  }

  predicate Holds(m: InfoMap, uuid: UUID, eid: Byte) {
    uuid in m && exists i :: i in m[uuid] && i.eid == eid
  }

  /** The device that the search for an endpoint ends with: any that holds it, or none. */
  ghost predicate IsHolder(m: InfoMap, eid: Byte, holder: Option<UUID>) {
    match holder
    case Some(u) => Holds(m, u, eid)
    case None => forall u :: !Holds(m, u, eid)
  }

  /** The chosen medium may be used beside the other: SPI not beside PCIe, and so on to SMBus, which is used only
      beside itself. */
  predicate IsBestOf(chosen: Medium, other: Medium) {
    match chosen
    case PCIe => true
    case SPI => !other.PCIe?
    case I3C => !other.PCIe? && !other.SPI?
    case USB => other.USB? || other.SMBus?
    case SMBus => other.SMBus?
  }

  // ---------------------------------------------------------------- histories

  datatype Op = Push(uuid: UUID, info: EidInfo) | Erase(uuid: UUID)

  function Apply(m: InfoMap, op: Op): InfoMap {
    match op
    case Push(uuid, info) => Pushed(m, uuid, info)
    case Erase(uuid) => m - {uuid}
  }

  function MapOf(ops: seq<Op>): InfoMap
    decreases |ops|
  {
    if ops == [] then map[] else Apply(MapOf(ops[..|ops|-1]), ops[|ops|-1])
  }

  lemma MapOfAppend(ops: seq<Op>, op: Op)
    ensures MapOf(ops + [op]) == Apply(MapOf(ops), op)
  {
    assert (ops + [op])[..|ops|] == ops;
  }

  /** The pair was pushed for the device at this point of the history and the device not removed since. */
  ghost predicate PushedAt(ops: seq<Op>, j: int, uuid: UUID, info: EidInfo) {
    0 <= j < |ops| && ops[j] == Push(uuid, info) && forall k :: j < k < |ops| ==> ops[k] != Erase(uuid)
  }

  ghost predicate PushedSinceErase(ops: seq<Op>, uuid: UUID, info: EidInfo) {
    exists j :: PushedAt(ops, j, uuid, info)
  }

  lemma PushedSinceEraseExtends(ops: seq<Op>, op: Op, uuid: UUID, info: EidInfo)
    ensures PushedSinceErase(ops + [op], uuid, info) <==>
            op == Push(uuid, info) || (op != Erase(uuid) && PushedSinceErase(ops, uuid, info))
  {
    var longer := ops + [op];
    assert longer[|ops|] == op;
    if op == Push(uuid, info) {
      assert PushedAt(longer, |ops|, uuid, info);
    } else if j :| PushedAt(longer, j, uuid, info) {
      assert forall k :: j < k < |ops| ==> longer[k] == ops[k];
      assert PushedAt(ops, j, uuid, info);
    }
    if op != Erase(uuid) {
      if j :| PushedAt(ops, j, uuid, info) {
        assert PushedAt(longer, j, uuid, info);
      }
    }
  }

  /** A device's queue holds exactly the pairs pushed for it since its last removal, and is never empty. */
  lemma {:induction false} MapOfHistory(ops: seq<Op>, uuid: UUID, info: EidInfo)
    ensures uuid in MapOf(ops) ==> MapOf(ops)[uuid] != multiset{}
    ensures (uuid in MapOf(ops) && info in MapOf(ops)[uuid]) <==> PushedSinceErase(ops, uuid, info)
    decreases |ops|
  {
    if ops != [] {
      var before, op := ops[..|ops|-1], ops[|ops|-1];
      MapOfHistory(before, uuid, info);
      PushedSinceEraseExtends(before, op, uuid, info);
      assert ops == before + [op];
      if op.Push? && op.uuid == uuid {
        assert op.info in MapOf(ops)[uuid];
      }
    }
  }

  /** How often the pair has been pushed for the device since its last removal. */
  function PushCount(ops: seq<Op>, uuid: UUID, info: EidInfo): nat
    decreases |ops|
  {
    if ops == [] then 0 else
    var before, last := PushCount(ops[..|ops|-1], uuid, info), ops[|ops|-1];
    if last == Erase(uuid) then 0 else if last == Push(uuid, info) then before + 1 else before
  }

  /** A device's queue holds each pair as often as it was pushed since the last removal: duplicates are kept. */
  lemma {:induction false} MultiplicityOfHistory(ops: seq<Op>, uuid: UUID, info: EidInfo)
    ensures PushCount(ops, uuid, info) == if uuid in MapOf(ops) then MapOf(ops)[uuid][info] else 0
    decreases |ops|
  {
    if ops != [] {
      MultiplicityOfHistory(ops[..|ops|-1], uuid, info);
    }
  }

  ghost predicate Reachable(ops: seq<Op>, uuid: UUID) {
    exists info :: PushedSinceErase(ops, uuid, info)
  }

  lemma MapOfReachable(ops: seq<Op>, uuid: UUID)
    ensures uuid in MapOf(ops) <==> Reachable(ops, uuid)
  {
    if uuid in MapOf(ops) {
      MapOfHistory(ops, uuid, EidInfo(0, PCIe));
      var info :| info in MapOf(ops)[uuid];
      MapOfHistory(ops, uuid, info);
    } else if info :| PushedSinceErase(ops, uuid, info) {
      MapOfHistory(ops, uuid, info);
    }
  }

  /** Whatever was discovered and removed, a sync targets exactly one endpoint of each device for which one
      has been pushed since its last removal, and one whose medium comes first among all those pushed. */
  lemma BestMediumFanOut(ops: seq<Op>, targets: seq<Target>)
    requires AreTargets(MapOf(ops), targets)
    ensures |targets| == |MapOf(ops)|
    ensures forall i, j :: 0 <= i < j < |targets| ==> targets[i].uuid != targets[j].uuid
    ensures forall u :: Targeted(targets, u) <==> Reachable(ops, u)
    ensures forall t :: t in targets ==> PushedSinceErase(ops, t.uuid, t.info)
    ensures forall t, info :: t in targets && PushedSinceErase(ops, t.uuid, info) ==>
              IsBestOf(t.info.medium, info.medium)
  {
    var m := MapOf(ops);
    forall u
      ensures Targeted(targets, u) <==> Reachable(ops, u)
    {
      MapOfReachable(ops, u);
      if i :| 0 <= i < |targets| && targets[i].uuid == u {
        assert targets[i] in targets;
      }
    }
    forall t | t in targets
      ensures PushedSinceErase(ops, t.uuid, t.info)
    {
      MapOfHistory(ops, t.uuid, t.info);
    }
    forall t, info | t in targets && PushedSinceErase(ops, t.uuid, info)
      ensures IsBestOf(t.info.medium, info.medium)
    {
      MapOfHistory(ops, t.uuid, info);
      assert !Less(t.info, info);
    }
    forall i | 0 <= i < |targets|
      ensures targets[i].uuid in m.Keys
    {
      assert targets[i] in targets;
    }
    TargetCount(m.Keys, targets);
  }

  lemma {:induction false} TargetCount(keys: set<UUID>, targets: seq<Target>)
    requires forall i :: 0 <= i < |targets| ==> targets[i].uuid in keys
    requires forall i, j :: 0 <= i < j < |targets| ==> targets[i].uuid != targets[j].uuid
    requires forall u :: u in keys ==> Targeted(targets, u)
    ensures |targets| == |keys|
    decreases |targets|
  {
    if targets == [] {
      assert forall u :: u in keys ==> Targeted(targets, u);
      assert keys == {};
    } else {
      var n := |targets| - 1;
      var rest := keys - {targets[n].uuid};
      forall u | u in rest
        ensures Targeted(targets[..n], u)
      {
        var i :| 0 <= i < |targets| && targets[i].uuid == u;
        assert targets[..n][i].uuid == u;
      }
      TargetCount(rest, targets[..n]);
    }
  }
}
