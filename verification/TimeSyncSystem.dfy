/** The whole service: the sync driver above the request engine and the sockets.

    A coroutine runs in steps between its suspensions; while it runs, the event loop dispatches nothing. It is
    resumed inside the response handler that the engine calls, so its next request is registered there. */
module TimeSyncSystem {
  import opened Common
  import opened InstanceIds
  import opened EndpointMap
  import opened SyncDriver
  import E = RequestEngine
  import S = Sockets
  import Wire

  datatype System = System(engine: E.State, sock: S.Sockets, driver: Driver)

  function Started(config: E.Config, interval: int, mode: S.Mode): System {
    System(E.Init(config), S.NoSockets(mode), NewDriver(interval))
  }

  /** A discovered endpoint with the data of its socket. */
  datatype Found = Found(info: Info, endpoint: S.Endpoint)

  function InfosOf(found: seq<Found>): seq<Info> {
    seq(|found|, i requires 0 <= i < |found| => found[i].info)
  }

  /** The events that start in the loop, the steps of the running coroutine, and the engine's own events.
      `results` are what opening sockets yields, `holder` where the search for a failed endpoint ends. */
  datatype Event =
    | TimeChange(targets: seq<Target>, results: seq<int>)
    | Discovery(found: seq<Found>, got: bool)
    | LoopHead(results: seq<int>)
    | Attempt(pick: Option<E.Key>, outcome: E.Outcome, holder: Option<UUID>)
    | AttemptWithoutId
    | EndOfPass
    | Response(key: E.Key, reply: E.Reply, holder: Option<UUID>)
    | Expire(ticket: nat, holder: Option<UUID>)
    | Engine(event: E.Event)

  /** The result of a request that was answered. */
  function ResultCode(reply: E.Reply): Byte {
    if reply.length == 0 then ERR_GENERAL else if reply.length != 1 then ERR_INVALID_LENGTH else reply.first
  }

  /** The event loop can dispatch. */
  predicate AtRest(s: System) {
    s.engine.context.Idle? && !s.driver.handle.Running?
  }

  predicate Resumes(s: System, ticket: nat) {
    s.driver.handle.Suspended? && s.driver.handle.ticket == ticket && HasCurrent(s.driver)
  }

  function RegisterAll(sock: S.Sockets, found: seq<Found>): S.Sockets
    decreases |found|
  {
    if found == [] then sock else
    S.Registered(RegisterAll(sock, found[..|found|-1]), found[|found|-1].info.eid, found[|found|-1].endpoint)
  }

  /** What the event is for the engine, if anything. */
  function EngineEvent(s: System, e: Event): Option<E.Event> {
    match e
    case Attempt(pick, o, _) =>
      if AtAttempt(s.driver) then
        var eid := ThisEid(s.driver);
        Some(E.Register(eid, Wire.NVIDIA_MSG_TYPE, Wire.ADD_EXT_TIMESTAMP, S.FdOf(s.sock, eid), pick, o))
      else None
    case Response(key, reply, _) => Some(E.BeginResponse(key, reply))
    case Expire(ticket, _) => Some(E.BeginExpire(ticket))
    case Engine(event) => Some(event)
    case _ => None
  }

  ghost predicate SocketsOpenFresh(s: System, eids: seq<Byte>, results: seq<int>) {
    |results| == |eids| && S.FreshResults(s.sock, eids, results)
  }

  ghost predicate Enabled(s: System, e: Event) {
    && (EngineEvent(s, e).Some? ==> E.Enabled(s.engine, EngineEvent(s, e).value))
    && match e
       case TimeChange(targets, results) =>
         AtRest(s) && AreTargets(s.driver.infoMap, targets) && SocketsOpenFresh(s, EidsOfTargets(targets), results)
       case Discovery(_, _) => AtRest(s)
       case LoopHead(results) =>
         AtLoopHead(s.driver) && (NextEids(s.driver).Some? ==> SocketsOpenFresh(s, NextEids(s.driver).value, results))
       case Attempt(_, _, holder) => AtAttempt(s.driver) && IsHolder(s.driver.infoMap, ThisEid(s.driver), holder)
       case AttemptWithoutId => AtAttempt(s.driver) && Full(s.engine.used, ThisEid(s.driver))
       case EndOfPass => AtPassEnd(s.driver)
       case Response(_, _, holder) => AtRest(s) && IsHolderOfCurrent(s, holder)
       case Expire(_, holder) => AtRest(s) && IsHolderOfCurrent(s, holder)
       case Engine(event) =>
         && !s.driver.handle.Running?
         && !event.Register? && !event.BeginResponse? && !event.BeginExpire?
  }

  ghost predicate IsHolderOfCurrent(s: System, holder: Option<UUID>) {
    HasCurrent(s.driver) ==>
      IsHolder(s.driver.infoMap, s.driver.handle.co.pass.value.eids[s.driver.handle.co.pass.value.idx], holder)
  }

  ghost function EngineNext(s: System, e: Event): E.State
    requires Enabled(s, e)
  {
    if EngineEvent(s, e).Some? then E.Next(s.engine, EngineEvent(s, e).value) else s.engine
  }

  function SockNext(s: System, e: Event): S.Sockets {
    match e
    case TimeChange(targets, results) =>
      if Launches(s.driver, s.engine.now) && |results| == |targets|
      then S.Activated(s.sock, EidsOfTargets(targets), results) else s.sock
    case Discovery(found, _) => RegisterAll(s.sock, found)
    case LoopHead(results) =>
      var eids := NextEids(s.driver);
      if eids.Some? && |results| == |eids.value| then S.Activated(s.sock, eids.value, results) else s.sock
    case Attempt(_, _, _) => if AtAttempt(s.driver) then S.LookedUp(s.sock, ThisEid(s.driver)) else s.sock
    case EndOfPass => S.Deactivated(s.sock)
    case _ => s.sock
  }

  /** The code that registerRequest returns to the coroutine, which keeps it in an unsigned byte. */
  ghost function AttemptCode(s: System, e: Event): Byte
    requires e.Attempt? && Enabled(s, e)
  {
    E.RunRc(E.Registered(s.engine, EngineEvent(s, e).value), e.pick, e.outcome) % 256
  }

  ghost function DriverNext(s: System, e: Event): Driver
    requires Enabled(s, e)
  {
    match e
    case TimeChange(targets, _) =>
      if Launches(s.driver, s.engine.now) then Launched(s.driver, s.engine.now, EidsOfTargets(targets)) else s.driver
    case Discovery(found, got) => TaskStarted(Enqueued(s.driver, InfosOf(found)), got)
    case LoopHead(_) => LoopHeadPassed(s.driver, s.engine.now)
    case Attempt(_, _, holder) =>
      var attempted := Attempted(s.driver);
      if AttemptCode(s, e) == SUCCESS then Waiting(attempted, |s.engine.history|)
      else Recorded(attempted, AttemptCode(s, e), holder)
    case AttemptWithoutId => Recorded(Attempted(s.driver), SUCCESS, None)
    case EndOfPass => PassEnded(s.driver, s.engine.now)
    case Response(key, reply, holder) =>
      if Resumes(s, s.engine.handlers[key].ticket) then Recorded(s.driver, ResultCode(reply), holder) else s.driver
    case Expire(ticket, holder) =>
      if Resumes(s, ticket) then Recorded(s.driver, ERR_GENERAL, holder) else s.driver
    case Engine(_) => s.driver
  }

  ghost function Next(s: System, e: Event): System
    requires Enabled(s, e)
  {
    System(EngineNext(s, e), SockNext(s, e), DriverNext(s, e))
  }

  ghost function After(s: System, events: seq<Event>): System
    decreases |events|
  {
    if events == [] then s else
    var before := After(s, events[..|events|-1]);
    if Enabled(before, events[|events|-1]) then Next(before, events[|events|-1]) else before
  }

  ghost predicate IsRun(s: System, events: seq<Event>)
    decreases |events|
  {
    events == [] ||
    (IsRun(s, events[..|events|-1]) && Enabled(After(s, events[..|events|-1]), events[|events|-1]))
  }
}
