/** Instance identifiers: one 32-slot bitset per endpoint (oem/nvidia/instance_id.hpp).

    The specification views all bitsets together as the set of slots in use. */
module InstanceIds {
  import opened Common

  const MAX_INSTANCE_IDS: nat := 32

  type Id = n: int | 0 <= n < 32

  /** One bit of one endpoint's bitset. */
  datatype Slot = Slot(eid: Byte, id: Id)

  ghost predicate Full(used: set<Slot>, eid: Byte) {
    forall i: Id :: Slot(eid, i) in used
  }

  /** The lowest free identifier at or above `from`. */
  ghost function LowestFree(used: set<Slot>, eid: Byte, from: nat): (r: Option<Id>)
    requires from <= MAX_INSTANCE_IDS
    ensures r.None? <==> forall i: Id :: from <= i ==> Slot(eid, i) in used
    ensures r.Some? ==> from <= r.value && Slot(eid, r.value) !in used
    ensures r.Some? ==> forall i: Id :: from <= i < r.value ==> Slot(eid, i) in used
    decreases MAX_INSTANCE_IDS - from
  {
    if from == MAX_INSTANCE_IDS then None
    else if Slot(eid, from) !in used then Some(from)
    else LowestFree(used, eid, from + 1)
  }

  ghost predicate AreBits(bits: map<Byte, seq<bool>>) {
    forall e :: e in bits ==> |bits[e]| == MAX_INSTANCE_IDS
  }

  /** The slots of the bits that are set. */
  ghost function UsedOf(bits: map<Byte, seq<bool>>): set<Slot>
    requires AreBits(bits)
  {
    set e, i: Id | e in bits && 0 <= i < 32 && bits[e][i] :: Slot(e, i)
  }

  lemma UsedAfterSet(bits: map<Byte, seq<bool>>, eid: Byte, i: Id, bit: bool)
    requires AreBits(bits) && eid in bits
    ensures var after := bits[eid := bits[eid][i := bit]];
            && AreBits(after)
            && UsedOf(after) == if bit then UsedOf(bits) + {Slot(eid, i)} else UsedOf(bits) - {Slot(eid, i)}
  {
  }

  /** The lowest clear bit of an endpoint's bitset is its lowest free identifier. */
  lemma LowestFreeOfBits(used: set<Slot>, eid: Byte, bits: seq<bool>, r: Option<Id>)
    requires |bits| == MAX_INSTANCE_IDS && forall i: Id :: Slot(eid, i) in used <==> bits[i]
    requires r.Some? ==> !bits[r.value]
    requires forall i: Id :: (r.Some? ==> i < r.value) ==> bits[i]
    ensures r == LowestFree(used, eid, 0)
  {
    var lowest := LowestFree(used, eid, 0);
    if r.Some? {
      assert Slot(eid, r.value) !in used;
    }
    if lowest.Some? {
      assert !bits[lowest.value];
    }
  }

  /** The bitset of one endpoint. */
  class InstanceId {
    var id: seq<bool>

    ghost predicate Valid()
      reads this
    {
      |id| == MAX_INSTANCE_IDS
    }

    constructor ()
      ensures Valid() && id == seq(MAX_INSTANCE_IDS, _ => false)
    {
      id := seq(MAX_INSTANCE_IDS, _ => false);
    }

    /** Takes the lowest clear bit; None stands for the exception thrown when all are set. */
    method Next() returns (r: Option<Id>)
      requires Valid()
      modifies this
      ensures Valid()
      ensures r.None? ==> id == old(id) && forall i :: 0 <= i < MAX_INSTANCE_IDS ==> id[i]
      ensures r.Some? ==> !old(id)[r.value] && id == old(id)[r.value := true]
      ensures r.Some? ==> forall i :: 0 <= i < r.value ==> old(id)[i]
    {
      var idx := 0;
      while idx < |id| && id[idx]
        invariant 0 <= idx <= |id|
        invariant forall i :: 0 <= i < idx ==> id[i]
      {
        idx := idx + 1;
      }
      if idx == |id| {
        return None;
      }
      id := id[idx := true];
      return Some(idx);
    }

    method MarkFree(instanceId: Id)
      requires Valid()
      modifies this
      ensures Valid() && id == old(id)[instanceId := false]
    {
      id := id[instanceId := false];
    }
  }

  /** The bitsets of all endpoints, created on first use. */
  class InstanceIdMgr {
    var ids: map<Byte, InstanceId>

    ghost predicate Valid()
      reads this, ids.Values
    {
      && (forall e :: e in ids ==> ids[e].Valid())
      && (forall e, f :: e in ids && f in ids && ids[e] == ids[f] ==> e == f)
    }

    /** The bits that are set, over all endpoints. */
    ghost function Used(): set<Slot>
      requires Valid()
      reads this, ids.Values
    {
      set e, i: Id | e in ids && 0 <= i < 32 && ids[e].id[i] :: Slot(e, i)
    }

    ghost function Bits(): (bits: map<Byte, seq<bool>>)
      requires Valid()
      reads this, ids.Values
      ensures AreBits(bits)
    {
      map e | e in ids :: ids[e].id
    }

    lemma UsedFromBits()
      requires Valid()
      ensures Used() == UsedOf(Bits())
    {
    }

    constructor ()
      ensures Valid() && Used() == {} && ids == map[]
    {
      ids := map[];
    }

    /** Creates the endpoint's bitset if it has none. */
    method Ensure(eid: Byte)
      requires Valid()
      modifies this
      ensures Valid() && eid in ids && Used() == old(Used())
      ensures fresh(ids.Values - old(ids.Values))
      ensures forall e :: e in old(ids) ==> e in ids && ids[e] == old(ids[e])
    {
      if eid !in ids {
        var bits := new InstanceId();
        ids := ids[eid := bits];
        assert ids.Values <= old(ids.Values) + {bits};
        assert forall e :: e in ids && e != eid ==> e in old(ids) && ids[e] in old(ids).Values;
      }
    }

    /** Takes the lowest clear bit of a bitset that is there. */
    method Take(eid: Byte) returns (r: Option<Id>)
      requires Valid() && eid in ids
      modifies ids[eid]
      ensures Valid() && r == LowestFree(UsedOf(old(Bits())), eid, 0)
      ensures Bits() == if r.Some? then old(Bits())[eid := old(Bits())[eid][r.value := true]] else old(Bits())
    {
      ghost var before := Bits();
      assert forall e :: e in ids && e != eid ==> ids[e] != ids[eid];
      r := ids[eid].Next();
      LowestFreeOfBits(UsedOf(before), eid, before[eid], r);
    }

    method GetInstanceId(eid: Byte) returns (r: Option<Id>)
      requires Valid()
      modifies this, ids.Values
      ensures Valid() && fresh(ids.Values - old(ids.Values))
      ensures r == LowestFree(old(Used()), eid, 0)
      ensures Used() == if r.Some? then old(Used()) + {Slot(eid, r.value)} else old(Used())
    {
      Ensure(eid);
      ghost var before := Bits();
      UsedFromBits();
      r := Take(eid);
      UsedFromBits();
      if r.Some? {
        UsedAfterSet(before, eid, r.value, true);
      }
    }

    method MarkFree(eid: Byte, instanceId: Id)
      requires Valid()
      modifies this, ids.Values
      ensures Valid() && fresh(ids.Values - old(ids.Values))
      ensures Used() == old(Used()) - {Slot(eid, instanceId)}
    {
      Ensure(eid);
      ghost var before := Bits();
      UsedFromBits();
      assert forall e :: e in ids && e != eid ==> ids[e] != ids[eid];
      ids[eid].MarkFree(instanceId);
      UsedFromBits();
      assert Bits() == before[eid := before[eid][instanceId := false]];
      UsedAfterSet(before, eid, instanceId, false);
    }
  }
}
