/** Every endpoint that the service activates has been registered with the socket handler before, with the
    data of its first discovery (oem/nvidia/mctp_endpoint_discovery.cpp, socket_handler.hpp). */
module DiscoveredEndpoints {
  import opened Common
  import opened EndpointMap
  import opened SyncDriver
  import opened TimeSyncSystem
  import D = DriverTheorems
  import E = RequestEngine
  import S = Sockets

  function FirstIn(found: seq<Found>, eid: Byte): Option<S.Endpoint>
    decreases |found|
  {
    if found == [] then None else
    var before := FirstIn(found[..|found|-1], eid);
    var last := found[|found|-1];
    if before.Some? then before else if last.info.eid == eid then Some(last.endpoint) else None
  }

  /** The socket data with which the endpoint was discovered first. */
  function FirstDiscovery(events: seq<Event>, eid: Byte): Option<S.Endpoint>
    decreases |events|
  {
    if events == [] then None else
    var before := FirstDiscovery(events[..|events|-1], eid);
    var last := events[|events|-1];
    if before.Some? then before else if last.Discovery? then FirstIn(last.found, eid) else None
  }

  function Lookup(sock: S.Sockets, eid: Byte): Option<S.Endpoint> {
    if eid in sock.endpoints then Some(sock.endpoints[eid]) else None
  }

  lemma {:induction false} RegisterAllLookup(sock: S.Sockets, found: seq<Found>, eid: Byte)
    ensures Lookup(RegisterAll(sock, found), eid) ==
            if eid in sock.endpoints then Lookup(sock, eid) else FirstIn(found, eid)
    ensures (exists i :: 0 <= i < |found| && found[i].info.eid == eid) ==> eid in RegisterAll(sock, found).endpoints
    decreases |found|
  {
    if found != [] {
      RegisterAllLookup(sock, found[..|found|-1], eid);
      assert forall i :: 0 <= i < |found| - 1 ==> found[..|found|-1][i] == found[i];
    }
  }

  ghost predicate MapRegistered(m: InfoMap, sock: S.Sockets) {
    forall u: UUID, i: EidInfo :: u in m && i in m[u] ==> i.eid in sock.endpoints
  }

  /** Every endpoint of the map and of the queue is registered. */
  ghost predicate AllRegistered(d: Driver, sock: S.Sockets) {
    && MapRegistered(d.infoMap, sock)
    && (forall b, i :: 0 <= b < |d.queue| && 0 <= i < |d.queue[b]| ==> d.queue[b][i].eid in sock.endpoints)
  }

  lemma {:induction false} PushedAllRegistered(d: Driver, infos: seq<Info>, sock: S.Sockets)
    requires MapRegistered(d.infoMap, sock) && forall i :: 0 <= i < |infos| ==> infos[i].eid in sock.endpoints
    ensures MapRegistered(PushedAll(d, infos).infoMap, sock)
    decreases |infos|
  {
    if infos != [] {
      var last := infos[|infos|-1];
      PushedAllRegistered(d, infos[..|infos|-1], sock);
      var before, m := PushedAll(d, infos[..|infos|-1]).infoMap, PushedAll(d, infos).infoMap;
      forall u: UUID, i: EidInfo | u in m && i in m[u]
        ensures i.eid in sock.endpoints
      {
        assert (u in before && i in before[u]) || i == EidInfo(last.eid, last.medium);
      }
    }
  }

  lemma DiscoveryRegisters(s: System, found: seq<Found>, got: bool)
    requires AllRegistered(s.driver, s.sock)
    ensures AllRegistered(TaskStarted(Enqueued(s.driver, InfosOf(found)), got), RegisterAll(s.sock, found))
  {
    var infos, sock := InfosOf(found), RegisterAll(s.sock, found);
    forall e: Byte
      ensures e in s.sock.endpoints ==> e in sock.endpoints
      ensures (exists i :: 0 <= i < |found| && found[i].info.eid == e) ==> e in sock.endpoints
    {
      RegisterAllLookup(s.sock, found, e);
    }
    forall i | 0 <= i < |infos|
      ensures infos[i].eid in sock.endpoints
    {
      assert found[i].info.eid == infos[i].eid;
    }
    PushedAllRegistered(s.driver, infos, sock);
    D.PushedAllFrame(s.driver, infos);
  }

  lemma TargetsRegistered(s: System, targets: seq<Target>)
    requires AllRegistered(s.driver, s.sock) && AreTargets(s.driver.infoMap, targets)
    ensures forall e :: e in EidsOfTargets(targets) ==> e in s.sock.endpoints
  {
    forall i | 0 <= i < |targets|
      ensures targets[i].info.eid in s.sock.endpoints
    {
      assert targets[i] in targets;
    }
  }

  /** What the step activates is registered. */
  ghost predicate ActivatesRegistered(s: System, e: Event) {
    && (e.TimeChange? ==> forall eid :: eid in EidsOfTargets(e.targets) ==> eid in s.sock.endpoints)
    && (e.LoopHead? && NextEids(s.driver).Some? ==>
         forall eid :: eid in NextEids(s.driver).value ==> eid in s.sock.endpoints)
  }

  lemma StepActivatesRegistered(s: System, e: Event)
    requires AllRegistered(s.driver, s.sock) && Enabled(s, e)
    ensures ActivatesRegistered(s, e)
  {
    if e.TimeChange? {
      TargetsRegistered(s, e.targets);
    }
  }

  lemma ActivationAddsNothing(sock: S.Sockets, eids: seq<Byte>, results: seq<int>)
    requires |results| == |eids| && forall e :: e in eids ==> e in sock.endpoints
    ensures S.Activated(sock, eids, results).endpoints == sock.endpoints
  {
    S.ActivationAddsDefaults(sock, eids, results);
  }

  lemma StepKeepsEndpoints(s: System, e: Event)
    requires AllRegistered(s.driver, s.sock) && Enabled(s, e) && !e.Discovery?
    ensures Next(s, e).sock.endpoints == s.sock.endpoints
  {
    StepActivatesRegistered(s, e);
    if e.TimeChange? {
      ActivationAddsNothing(s.sock, EidsOfTargets(e.targets), e.results);
    } else if e.LoopHead? && NextEids(s.driver).Some? {
      ActivationAddsNothing(s.sock, NextEids(s.driver).value, e.results);
    }
  }

  lemma StepKeepsRegistered(s: System, e: Event)
    requires AllRegistered(s.driver, s.sock) && Enabled(s, e)
    ensures AllRegistered(Next(s, e).driver, Next(s, e).sock)
  {
    if e.Discovery? {
      DiscoveryRegisters(s, e.found, e.got);
    } else {
      StepKeepsEndpoints(s, e);
      var d, d' := s.driver, Next(s, e).driver;
      assert d'.queue == d.queue || (d.queue != [] && d'.queue == d.queue[1..]);
    }
  }

  /** In every run, every endpoint known to the socket handler has the data of its first discovery, and every
      endpoint that a step activates is known to it already. */
  lemma {:induction false} RegisteredBeforeActivated(config: E.Config, interval: int, mode: S.Mode, events: seq<Event>)
    requires IsRun(Started(config, interval, mode), events)
    ensures var s := After(Started(config, interval, mode), events);
            && AllRegistered(s.driver, s.sock)
            && (forall eid: Byte :: Lookup(s.sock, eid) == FirstDiscovery(events, eid))
            && (forall e :: Enabled(s, e) ==> ActivatesRegistered(s, e))
    decreases |events|
  {
    var s' := After(Started(config, interval, mode), events);
    if events != [] {
      var before, last := events[..|events|-1], events[|events|-1];
      RegisteredBeforeActivated(config, interval, mode, before);
      var s := After(Started(config, interval, mode), before);
      StepKeepsRegistered(s, last);
      forall eid: Byte
        ensures Lookup(s'.sock, eid) == FirstDiscovery(events, eid)
      {
        if last.Discovery? {
          RegisterAllLookup(s.sock, last.found, eid);
        } else {
          StepKeepsEndpoints(s, last);
        }
      }
    }
    forall e | Enabled(s', e)
      ensures ActivatesRegistered(s', e)
    {
      StepActivatesRegistered(s', e);
    }
  }
}
