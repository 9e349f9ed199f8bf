/** The sync driver (oem/nvidia/erot_time_manager.cpp): one coroutine at a time that sets the time on the
    endpoints of a list, the queue of discovered batches, and the rate limit.

    A coroutine is its program counter: the list it works on, copied by value, the index of the endpoint it
    is at, and whether it waits for a response. */
module SyncDriver {
  import opened Common
  import opened EndpointMap

  const NANOS_PER_SECOND: int := 1_000_000_000
  const SUCCESS: Byte := 0
  const ERR_GENERAL: Byte := 1
  const ERR_INVALID_LENGTH: Byte := 3
  const ERR_UNSUPPORTED_CMD: Byte := 5

  datatype Info = Info(eid: Byte, uuid: UUID, medium: Medium)

  type Batch = seq<Info>

  datatype Report = Report(eid: Byte, code: Byte)

  /** One execution of setTimeOnErots. The last three fields are its history: the endpoints attempted, the
      results obtained, and the errors reported. */
  datatype Pass = Pass(eids: seq<Byte>, idx: nat, started: nat,
                       attempted: seq<Byte>, codes: seq<Byte>, reported: seq<Report>)

  datatype DonePass = DonePass(pass: Pass, ended: nat)

  /** A sync after a time change, or a task that works through the queue of batches; without a pass it is at
      the head of its loop. */
  datatype Coroutine = Coroutine(discovery: bool, pass: Option<Pass>)

  /** The coroutine handle. A running coroutine is `sync` until it is first suspended: then the function that
      created it has not returned. */
  datatype Handle =
    | Null
    | Completed
    | Suspended(co: Coroutine, ticket: nat)
    | Running(co: Coroutine, sync: bool)

  /** `ops`, `enqueued`, `finished`, `launches`, `passes` and `unfinished`, the number of coroutines created
      and not yet finished, are history. */
  datatype Driver = Driver(
    interval: int,
    infoMap: InfoMap,
    queue: seq<Batch>,
    handle: Handle,
    syncLast: int,
    ops: seq<Op>,
    enqueued: seq<Batch>,
    finished: seq<Batch>,
    launches: seq<int>,
    passes: seq<DonePass>,
    unfinished: int)

  function NewDriver(interval: int): Driver {
    Driver(interval, map[], [], Null, 0, [], [], [], [], [], 0)
  }

  predicate InProgress(d: Driver) {
    d.handle.Suspended? || d.handle.Running?
  }

  function NewPass(eids: seq<Byte>, now: nat): Pass {
    Pass(eids, 0, now, [], [], [])
  }

  function EidsOf(infos: seq<Info>): seq<Byte> {
    seq(|infos|, i requires 0 <= i < |infos| => infos[i].eid)
  }

  // ---------------------------------------------------------------- time changes

  /** The cast to seconds truncates towards zero. */
  function WholeSeconds(nanos: int): int {
    if nanos >= 0 then nanos / NANOS_PER_SECOND else -(-nanos / NANOS_PER_SECOND)
  }

  predicate Due(d: Driver, now: int) {
    WholeSeconds(now - d.syncLast) >= d.interval
  }

  predicate Launches(d: Driver, now: int) {
    Due(d, now) && !InProgress(d)
  }

  /** A sync of an empty list is over at once. */
  function Launched(d: Driver, now: nat, eids: seq<Byte>): Driver {
    var co := Coroutine(false, Some(NewPass(eids, now)));
    d.(handle := if eids == [] then Null else Running(co, true),
       unfinished := d.unfinished + if eids == [] then 0 else 1,
       syncLast := now, launches := d.launches + [now])
  }

  // ---------------------------------------------------------------- discovery

  function PushedAll(d: Driver, infos: seq<Info>): Driver
    decreases |infos|
  {
    if infos == [] then d else
    var before := PushedAll(d, infos[..|infos|-1]);
    var last := infos[|infos|-1];
    before.(infoMap := Pushed(before.infoMap, last.uuid, EidInfo(last.eid, last.medium)),
            ops := before.ops + [Push(last.uuid, EidInfo(last.eid, last.medium))])
  }

  function Enqueued(d: Driver, infos: seq<Info>): Driver {
    var pushed := PushedAll(d, infos);
    pushed.(queue := pushed.queue + [infos], enqueued := pushed.enqueued + [infos])
  }

  /** The task first asks for the time; when that fails it is over at once and the queue stays. */
  function TaskStarted(d: Driver, got: bool): Driver {
    if InProgress(d) then d
    else if got then d.(handle := Running(Coroutine(true, None), true), unfinished := d.unfinished + 1)
    else d.(handle := Null)
  }

  // ---------------------------------------------------------------- the coroutine

  function Finished(d: Driver): Driver
    requires d.handle.Running?
  {
    d.(handle := if d.handle.sync then Null else Completed, unfinished := d.unfinished - 1)
  }

  function Popped(d: Driver): Driver
    requires d.queue != []
  {
    d.(queue := d.queue[1..], finished := d.finished + [d.queue[0]])
  }

  predicate AtLoopHead(d: Driver) {
    d.handle.Running? && d.handle.co.discovery && d.handle.co.pass.None?
  }

  /** The endpoints of the batch that the task turns to; None when it ends. */
  function NextEids(d: Driver): Option<seq<Byte>> {
    if d.queue == [] then None else Some(EidsOf(d.queue[0]))
  }

  function LoopHeadPassed(d: Driver, now: nat): Driver
    requires AtLoopHead(d)
  {
    match NextEids(d)
    case None => Finished(d)
    case Some(eids) =>
      if eids == [] then Popped(d)
      else d.(handle := Running(Coroutine(true, Some(NewPass(eids, now))), d.handle.sync))
  }

  predicate InPass(d: Driver) {
    InProgress(d) && d.handle.co.pass.Some?
  }

  predicate AtAttempt(d: Driver) {
    d.handle.Running? && InPass(d) && d.handle.co.pass.value.idx < |d.handle.co.pass.value.eids|
  }

  function ThisEid(d: Driver): Byte
    requires AtAttempt(d)
  {
    var p := d.handle.co.pass.value;
    p.eids[p.idx]
  }

  predicate AtPassEnd(d: Driver) {
    d.handle.Running? && InPass(d) && d.handle.co.pass.value.idx == |d.handle.co.pass.value.eids|
  }

  function Attempted(d: Driver): Driver
    requires AtAttempt(d)
  {
    var p := d.handle.co.pass.value;
    d.(handle := Running(d.handle.co.(pass := Some(p.(attempted := p.attempted + [p.eids[p.idx]]))), d.handle.sync))
  }

  function Waiting(d: Driver, ticket: nat): Driver
    requires d.handle.Running?
  {
    d.(handle := Suspended(d.handle.co, ticket))
  }

  function Noted(p: Pass, code: Byte): Pass
    requires p.idx < |p.eids|
  {
    p.(idx := p.idx + 1, codes := p.codes + [code],
       reported := p.reported + if code != SUCCESS then [Report(p.eids[p.idx], code)] else [])
  }

  predicate HasCurrent(d: Driver) {
    InPass(d) && d.handle.co.pass.value.idx < |d.handle.co.pass.value.eids|
  }

  /** The result of the current endpoint is in: an error is reported, and an unsupported command removes the
      device that the search for the endpoint ended with. */
  function Recorded(d: Driver, code: Byte, holder: Option<UUID>): Driver
    requires HasCurrent(d)
  {
    var co := d.handle.co.(pass := Some(Noted(d.handle.co.pass.value, code)));
    var erases := code == ERR_UNSUPPORTED_CMD && holder.Some?;
    d.(handle := Running(co, d.handle.Running? && d.handle.sync),
       infoMap := if erases then d.infoMap - {holder.value} else d.infoMap,
       ops := if erases then d.ops + [Erase(holder.value)] else d.ops)
  }

  /** After the last endpoint: a task takes its batch off the queue and goes on, a sync is over. */
  function PassEnded(d: Driver, now: nat): Driver
    requires AtPassEnd(d)
  {
    var noted := d.(passes := d.passes + [DonePass(d.handle.co.pass.value, now)]);
    if !d.handle.co.discovery then Finished(noted)
    else if d.queue == [] then Finished(noted)
    else Popped(noted).(handle := Running(Coroutine(true, None), d.handle.sync))
  }

  // ---------------------------------------------------------------- the object

  class ErotTimeManager {
    const interval: int
    var mctpInfoMap: InfoMap
    var queuedMctpInfos: seq<Batch>
    var setErotTimeHandle: Handle
    var erotTimeSyncLast: int
    ghost var ops: seq<Op>
    ghost var enqueued: seq<Batch>
    ghost var finished: seq<Batch>
    ghost var launches: seq<int>
    ghost var passes: seq<DonePass>
    ghost var unfinished: int

    ghost function Value(): Driver
      reads this
    {
      Driver(interval, mctpInfoMap, queuedMctpInfos, setErotTimeHandle, erotTimeSyncLast,
             ops, enqueued, finished, launches, passes, unfinished)
    }

    /** No queue of the map is empty. */
    ghost predicate Valid()
      reads this
    {
      forall u :: u in mctpInfoMap ==> mctpInfoMap[u] != multiset{}
    }

    constructor (interval: int)
      ensures Valid() && Value() == NewDriver(interval)
    {
      this.interval := interval;
      mctpInfoMap, queuedMctpInfos, setErotTimeHandle, erotTimeSyncLast := map[], [], Null, 0;
      ops, enqueued, finished, launches, passes, unfinished := [], [], [], [], [], 0;
    }

    /** One target per device, in an order of the map's own. */
    method CollectTargets() returns (targets: seq<Target>)
      requires Valid()
      ensures AreTargets(mctpInfoMap, targets)
    {
      targets := [];
      var todo := mctpInfoMap.Keys;
      while todo != {}
        invariant todo <= mctpInfoMap.Keys
        invariant forall i :: 0 <= i < |targets| ==> targets[i].uuid in mctpInfoMap && targets[i].uuid !in todo
        invariant forall i :: 0 <= i < |targets| ==> IsTop(mctpInfoMap[targets[i].uuid], targets[i].info)
        invariant forall i, j :: 0 <= i < j < |targets| ==> targets[i].uuid != targets[j].uuid
        invariant forall u :: u in mctpInfoMap && u !in todo ==> Targeted(targets, u)
        decreases todo
      {
        var u :| u in todo;
        TopExists(mctpInfoMap[u]);
        var top :| top in mctpInfoMap[u] && IsTop(mctpInfoMap[u], top);
        ghost var before := targets;
        targets := targets + [Target(u, top)];
        todo := todo - {u};
        assert targets[|before|].uuid == u;
        forall v | v in mctpInfoMap && v !in todo
          ensures Targeted(targets, v)
        {
          if v != u {
            var i :| 0 <= i < |before| && before[i].uuid == v;
            assert targets[i].uuid == v;
          }
        }
      }
    }

    /** The clock has been set. Returns the endpoints of the sync that this launches, if it launches one. */
    method HandleTimeChange(now: nat) returns (eids: Option<seq<Byte>>, ghost targets: seq<Target>)
      requires Valid()
      modifies this
      ensures Valid() && (eids.Some? <==> Launches(old(Value()), now))
      ensures eids.None? ==> Value() == old(Value())
      ensures eids.Some? ==> AreTargets(old(mctpInfoMap), targets) && eids.value == EidsOfTargets(targets)
                             && Value() == Launched(old(Value()), now, eids.value)
    {
      if WholeSeconds(now - erotTimeSyncLast) < interval {
        return None, [];
      }
      if setErotTimeHandle.Suspended? || setErotTimeHandle.Running? {
        return None, [];
      }
      var collected := CollectTargets();
      targets := collected;
      var list := [];
      for i := 0 to |collected|
        invariant |list| == i && forall j :: 0 <= j < i ==> list[j] == collected[j].info.eid
      {
        list := list + [collected[i].info.eid];
      }
      assert list == EidsOfTargets(collected);
      if list == [] {
        setErotTimeHandle := Null;
      } else {
        setErotTimeHandle := Running(Coroutine(false, Some(NewPass(list, now))), true);
        unfinished := unfinished + 1;
      }
      erotTimeSyncLast, launches := now, launches + [now];
      return Some(list), targets;
    }

    /** An endpoint that its device holds already is pushed again: the search for it skips nothing. */
    method PushInfo(info: Info)
      requires Valid()
      modifies this`mctpInfoMap, this`ops
      ensures Valid() && mctpInfoMap == Pushed(old(mctpInfoMap), info.uuid, EidInfo(info.eid, info.medium))
      ensures ops == old(ops) + [Push(info.uuid, EidInfo(info.eid, info.medium))]
    {
      var pushed := EidInfo(info.eid, info.medium);
      var queue := multiset{};
      if info.uuid in mctpInfoMap {
        queue := mctpInfoMap[info.uuid];
      }
      queue := queue + multiset{pushed};
      assert pushed in queue;
      mctpInfoMap := mctpInfoMap[info.uuid := queue];
      ops := ops + [Push(info.uuid, pushed)];
    }

    /** Endpoints have been discovered. `got` says whether the time can be obtained, if it comes to that. */
    method HandleMctpEndpoints(infos: seq<Info>, got: bool)
      requires Valid()
      modifies this
      ensures Valid() && Value() == TaskStarted(Enqueued(old(Value()), infos), got)
    {
      for i := 0 to |infos|
        invariant Valid() && Value() == PushedAll(old(Value()), infos[..i])
      {
        assert infos[..i + 1][..i] == infos[..i];
        PushInfo(infos[i]);
      }
      assert infos[..|infos|] == infos;
      queuedMctpInfos := queuedMctpInfos + [infos];
      enqueued := enqueued + [infos];
      assert Value() == Enqueued(old(Value()), infos);
      if setErotTimeHandle.Suspended? || setErotTimeHandle.Running? {
        return;
      }
      if got {
        setErotTimeHandle := Running(Coroutine(true, None), true);
        unfinished := unfinished + 1;
      } else {
        setErotTimeHandle := Null;
      }
    }

    /** The head of the task's loop: turns to the first batch of the queue, or ends the task. */
    method NextBatch(now: nat) returns (eids: Option<seq<Byte>>)
      requires Valid() && AtLoopHead(Value())
      modifies this
      ensures Valid() && eids == NextEids(old(Value())) && Value() == LoopHeadPassed(old(Value()), now)
    {
      if queuedMctpInfos == [] {
        setErotTimeHandle := if setErotTimeHandle.sync then Null else Completed;
        unfinished := unfinished - 1;
        return None;
      }
      var infos := queuedMctpInfos[0];
      var list := [];
      for i := 0 to |infos|
        invariant |list| == i && forall j :: 0 <= j < i ==> list[j] == infos[j].eid
      {
        list := list + [infos[i].eid];
      }
      assert list == EidsOf(infos);
      if list == [] {
        finished := finished + [infos];
        queuedMctpInfos := queuedMctpInfos[1..];
      } else {
        setErotTimeHandle := Running(Coroutine(true, Some(NewPass(list, now))), setErotTimeHandle.sync);
      }
      return Some(list);
    }

    /** The loop turns to its current endpoint. */
    method BeginAttempt() returns (eid: Byte)
      requires Valid() && AtAttempt(Value())
      modifies this`setErotTimeHandle
      ensures Valid() && eid == ThisEid(old(Value())) && Value() == Attempted(old(Value()))
    {
      var co := setErotTimeHandle.co;
      var p := co.pass.value;
      eid := p.eids[p.idx];
      setErotTimeHandle := Running(co.(pass := Some(p.(attempted := p.attempted + [eid]))), setErotTimeHandle.sync);
    }

    /** The request is registered under this ticket: the coroutine waits for its response handler to be called. */
    method Suspend(ticket: nat)
      requires Valid() && setErotTimeHandle.Running?
      modifies this`setErotTimeHandle
      ensures Valid() && Value() == Waiting(old(Value()), ticket)
    {
      setErotTimeHandle := Suspended(setErotTimeHandle.co, ticket);
    }

    /** Looks for a device that holds the endpoint, in an order of the map's own. */
    method FindHolder(eid: Byte) returns (holder: Option<UUID>)
      ensures IsHolder(mctpInfoMap, eid, holder)
    {
      var todo := mctpInfoMap.Keys;
      while todo != {}
        invariant todo <= mctpInfoMap.Keys
        invariant forall u :: u in mctpInfoMap && u !in todo ==> !Holds(mctpInfoMap, u, eid)
        decreases todo
      {
        var u :| u in todo;
        if Holds(mctpInfoMap, u, eid) {
          return Some(u);
        }
        todo := todo - {u};
      }
      return None;
    }

    /** The result of the current endpoint is in. */
    method RecordResult(code: Byte) returns (ghost holder: Option<UUID>)
      requires Valid() && HasCurrent(Value())
      modifies this
      ensures Valid() && Value() == Recorded(old(Value()), code, holder)
      ensures var p := old(setErotTimeHandle.co.pass.value); IsHolder(old(mctpInfoMap), p.eids[p.idx], holder)
    {
      var p := setErotTimeHandle.co.pass.value;
      var found := FindHolder(p.eids[p.idx]);
      holder := found;
      setErotTimeHandle := Running(setErotTimeHandle.co.(pass := Some(Noted(p, code))),
                                   setErotTimeHandle.Running? && setErotTimeHandle.sync);
      if code == ERR_UNSUPPORTED_CMD && found.Some? {
        mctpInfoMap := mctpInfoMap - {found.value};
        ops := ops + [Erase(found.value)];
      }
    }

    /** The loop over the endpoints is done. */
    method EndPass(now: nat)
      requires Valid() && AtPassEnd(Value())
      modifies this
      ensures Valid() && Value() == PassEnded(old(Value()), now)
    {
      var co, sync := setErotTimeHandle.co, setErotTimeHandle.sync;
      passes := passes + [DonePass(co.pass.value, now)];
      if co.discovery && queuedMctpInfos != [] {
        finished := finished + [queuedMctpInfos[0]];
        queuedMctpInfos := queuedMctpInfos[1..];
        setErotTimeHandle := Running(Coroutine(true, None), sync);
      } else {
        setErotTimeHandle := if sync then Null else Completed;
        unfinished := unfinished - 1;
      }
    }
  }
}
