/** A punctual good run of the service from its start to rest: what the results on such runs assume is met by a
    run in which an endpoint is discovered, does not answer, and is reported. */
module SystemScenario {
  import opened Common
  import opened InstanceIds
  import opened EndpointMap
  import opened SyncDriver
  import opened TimeSyncSystem
  import opened SystemTheorems
  import opened PassTiming
  import opened OpenSockets
  import E = RequestEngine
  import G = EngineGoodRuns
  import S = Sockets
  import Wire

  /** Some punctual good run of the service in which the sockets open leads from its start to this state. */
  ghost predicate Reaches(config: E.Config, interval: int, mode: S.Mode, at: System) {
    exists events :: Leads(Started(config, interval, mode), events, at)
  }

  ghost predicate Leads(s: System, events: seq<Event>, at: System) {
    IsPunctualRun(s, events) && IsOpenRun(s, events) && After(s, events) == at
  }

  lemma OneMore(config: E.Config, interval: int, mode: S.Mode, at: System, e: Event)
    requires Reaches(config, interval, mode, at) && Enabled(at, e)
    requires GoodEvent(at, e) && Punctual(at, e) && SocketsOpen(at, e)
    ensures Reaches(config, interval, mode, Next(at, e))
  {
    var s := Started(config, interval, mode);
    var events :| Leads(s, events, at);
    PunctualRunExtends(s, events, e);
    assert (events + [e])[..|events|] == events;
    assert Leads(s, events + [e], Next(at, e));
  }

  /** The engine alone takes a step. */
  lemma EngineMoves(config: E.Config, interval: int, mode: S.Mode, at: System, ev: E.Event)
    requires Reaches(config, interval, mode, at) && !at.driver.handle.Running?
    requires ev.EndExpire? || ev.RemoveEntry? || ev.Advance?
    requires E.Enabled(at.engine, ev) && G.GoodEvent(at.engine, ev) && Punctual(at, Engine(ev))
    ensures Reaches(config, interval, mode, at.(engine := E.Next(at.engine, ev)))
  {
    OneMore(config, interval, mode, at, Engine(ev));
  }

  /** The driver knows only this endpoint, and its batch is the only one. */
  ghost predicate KnowsOnly(d: Driver, info: Info) {
    && d.infoMap == map[info.uuid := multiset{EidInfo(info.eid, info.medium)}]
    && d.queue == [[info]] && d.passes == []
  }

  lemma PushedOne(d: Driver, info: Info)
    requires d.infoMap == map[] && d.queue == [] && d.passes == []
    ensures KnowsOnly(Enqueued(d, [info]), info) && Enqueued(d, [info]).handle == d.handle
  {
    assert [info][..0] == [] && PushedAll(d, []) == d;
    var i := EidInfo(info.eid, info.medium);
    assert PushedAll(d, [info]).infoMap == Pushed(d.infoMap, info.uuid, i);
    assert multiset{} + multiset{i} == multiset{i};
  }

  /** An endpoint is discovered while nothing else is known. */
  lemma Discovered(config: E.Config, interval: int, mode: S.Mode, info: Info, endpoint: S.Endpoint) returns (at: System)
    ensures Reaches(config, interval, mode, at) && at.engine == E.Init(config)
    ensures at.driver.handle == Running(Coroutine(true, None), true) && KnowsOnly(at.driver, info)
    ensures at.sock.open == map[] && at.sock.kernelFd == None
  {
    var s := Started(config, interval, mode);
    var found := [Found(info, endpoint)];
    assert InfosOf(found) == [info];
    PushedOne(s.driver, info);
    assert found[..0] == [] && RegisterAll(s.sock, []) == s.sock;
    assert Reaches(config, interval, mode, s) by {
      assert Leads(s, [], s);
    }
    OneMore(config, interval, mode, s, Discovery(found, true));
    at := Next(s, Discovery(found, true));
  }

  lemma OneFreshResult(sock: S.Sockets, eid: Byte, fd: int)
    requires sock.open == map[]
    ensures S.FreshResults(sock, [eid], [fd])
  {
    assert [eid][..0] == [] && [fd][..0] == [];
    assert S.Activated(sock, [], []) == sock && S.FreshResults(sock, [], []);
  }

  /** The task turns to it, and its socket opens. */
  lemma TurnedTo(config: E.Config, interval: int, mode: S.Mode, s: System, info: Info, fd: nat) returns (at: System)
    requires Reaches(config, interval, mode, s) && s.engine == E.Init(config)
    requires s.driver.handle == Running(Coroutine(true, None), true) && KnowsOnly(s.driver, info)
    requires s.sock.open == map[] && s.sock.kernelFd == None
    ensures Reaches(config, interval, mode, at) && at.engine == E.Init(config) && KnowsOnly(at.driver, info)
    ensures at.driver.handle == Running(Coroutine(true, Some(NewPass([info.eid], 0))), true)
  {
    assert EidsOf([info]) == [info.eid] && NextEids(s.driver) == Some([info.eid]);
    OneFreshResult(s.sock, info.eid, fd);
    OneMore(config, interval, mode, s, LoopHead([fd]));
    at := Next(s, LoopHead([fd]));
  }

  /** The only entry of the table is the first registration's, and its identifier is the only one in use. */
  ghost predicate OnlyEntry(en: E.State, k: E.Key) {
    && en.handlers.Keys == {k} && en.handlers[k].ticket == 0 && en.used == {E.SlotOf(k)} && en.removal == {}
    && |en.history| == 1
  }

  lemma FirstRegistration(en: E.State, config: E.Config, ev: E.Event, k: E.Key)
    requires en == E.Init(config)
    requires ev.Register? && G.Succeeds(ev.outcome)
    requires ev.pick == Some(k) && k == E.Key(ev.eid, 0, ev.msgType, ev.command)
    ensures E.Enabled(en, ev) && E.RunRc(E.Registered(en, ev), ev.pick, ev.outcome) == 0
    ensures var en' := E.Next(en, ev);
            OnlyEntry(en', k) && en'.armed == map[0 := E.Expiry(k, config.expiry)] && en'.now == 0 && en'.context.Idle?
  {
    assert Slot(ev.eid, 0) !in en.used;
    assert E.NextKey(en, ev.eid, ev.msgType, ev.command) == k;
    assert k in E.Candidates(E.Registered(en, ev), ev.eid);
  }

  lemma HoldsIt(d: Driver, info: Info)
    requires d.infoMap == map[info.uuid := multiset{EidInfo(info.eid, info.medium)}]
    ensures IsHolder(d.infoMap, info.eid, Some(info.uuid))
  {
    assert EidInfo(info.eid, info.medium) in d.infoMap[info.uuid];
  }

  /** Its request is sent, and the task waits. */
  lemma RequestSent(config: E.Config, interval: int, mode: S.Mode, s: System, info: Info, k: E.Key) returns (at: System)
    requires Reaches(config, interval, mode, s) && s.engine == E.Init(config) && KnowsOnly(s.driver, info)
    requires s.driver.handle == Running(Coroutine(true, Some(NewPass([info.eid], 0))), true)
    requires k == E.Key(info.eid, 0, Wire.NVIDIA_MSG_TYPE, Wire.ADD_EXT_TIMESTAMP)
    ensures Reaches(config, interval, mode, at) && KnowsOnly(at.driver, info) && OnlyEntry(at.engine, k)
    ensures at.driver.handle == Suspended(Coroutine(true, Some(NewPass([info.eid], 0).(attempted := [info.eid]))), 0)
    ensures at.engine.armed == map[0 := E.Expiry(k, config.expiry)] && at.engine.now == 0 && at.engine.context.Idle?
  {
    var e := Attempt(Some(k), E.GOOD_OUTCOME, Some(info.uuid));
    FirstRegistration(s.engine, config, EngineEvent(s, e).value, k);
    HoldsIt(s.driver, info);
    assert Attempted(s.driver).handle.co.pass.value.attempted == [info.eid];
    OneMore(config, interval, mode, s, e);
    at := Next(s, e);
  }

  /** Time passes until the request expires. */
  lemma TimePassed(config: E.Config, interval: int, mode: S.Mode, s: System, k: E.Key) returns (at: System)
    requires Reaches(config, interval, mode, s) && OnlyEntry(s.engine, k) && s.driver.handle.Suspended?
    requires s.engine.armed == map[0 := E.Expiry(k, config.expiry)] && s.engine.now == 0 && s.engine.context.Idle?
    ensures Reaches(config, interval, mode, at) && at == s.(engine := s.engine.(now := config.expiry))
  {
    EngineMoves(config, interval, mode, s, E.Advance(config.expiry));
    at := s.(engine := s.engine.(now := config.expiry));
  }

  lemma OnlyEntryExpires(en: E.State, k: E.Key)
    requires OnlyEntry(en, k) && 0 in en.armed && en.armed[0] == E.Expiry(k, en.now) && en.context.Idle?
    ensures E.Enabled(en, E.BeginExpire(0)) && G.GoodEvent(en, E.BeginExpire(0))
    ensures var en' := E.Next(en, E.BeginExpire(0));
            OnlyEntry(en', k) && en'.context == E.Expiring(k) && en'.now == en.now
  {
  }

  /** The callback of the expiry resumes the task with an error. */
  lemma TimedOut(config: E.Config, interval: int, mode: S.Mode, s: System, info: Info, k: E.Key) returns (at: System)
    requires Reaches(config, interval, mode, s) && KnowsOnly(s.driver, info) && OnlyEntry(s.engine, k)
    requires s.driver.handle == Suspended(Coroutine(true, Some(NewPass([info.eid], 0).(attempted := [info.eid]))), 0)
    requires s.engine.context.Idle? && s.engine.now == config.expiry
    requires 0 in s.engine.armed && s.engine.armed[0] == E.Expiry(k, s.engine.now)
    ensures Reaches(config, interval, mode, at) && AtPassEnd(at.driver) && at.driver.handle.co.discovery
    ensures at.driver.handle.co.pass.value.reported == [Report(info.eid, ERR_GENERAL)]
    ensures at.driver.queue == [[info]] && at.driver.passes == []
    ensures OnlyEntry(at.engine, k) && at.engine.context == E.Expiring(k) && at.engine.now == config.expiry
  {
    HoldsIt(s.driver, info);
    OnlyEntryExpires(s.engine, k);
    OneMore(config, interval, mode, s, Expire(0, Some(info.uuid)));
    at := Next(s, Expire(0, Some(info.uuid)));
  }

  /** The pass and the task end, inside the callback. */
  lemma TaskOver(config: E.Config, interval: int, mode: S.Mode, s: System, info: Info) returns (at: System)
    requires Reaches(config, interval, mode, s) && AtPassEnd(s.driver) && s.driver.handle.co.discovery
    requires s.driver.queue == [[info]] && s.driver.passes == []
    ensures Reaches(config, interval, mode, at) && at.engine == s.engine
    ensures !InProgress(at.driver) && at.driver.queue == []
    ensures at.driver.passes == [DonePass(s.driver.handle.co.pass.value, s.engine.now)]
  {
    OneMore(config, interval, mode, s, EndOfPass);
    var t := Next(s, EndOfPass);
    assert NextEids(t.driver) == None;
    OneMore(config, interval, mode, t, LoopHead([]));
    at := Next(t, LoopHead([]));
  }

  lemma RemovalEmpties(en: E.State, k: E.Key)
    requires en.handlers.Keys == {k} && en.used == {E.SlotOf(k)} && en.removal == {k} && en.context.Idle?
    ensures E.Enabled(en, E.RemoveEntry(k, None, E.GOOD_OUTCOME))
    ensures E.Removed(en, k).handlers == map[] && E.Removed(en, k).used == {}
  {
    assert E.Removed(en, k).handlers.Keys == {};
    assert E.Candidates(E.Removed(en, k), k.eid) == {};
  }

  /** The callback returns and the expired entry is removed. */
  lemma CleanedUp(config: E.Config, interval: int, mode: S.Mode, s: System, k: E.Key) returns (at: System)
    requires Reaches(config, interval, mode, s) && !InProgress(s.driver)
    requires OnlyEntry(s.engine, k) && s.engine.context == E.Expiring(k)
    ensures Reaches(config, interval, mode, at) && at.driver == s.driver
    ensures at.engine.context.Idle? && at.engine.handlers == map[] && at.engine.used == {}
  {
    EngineMoves(config, interval, mode, s, E.EndExpire);
    at := s.(engine := E.Next(s.engine, E.EndExpire));
    RemovalEmpties(at.engine, k);
    EngineMoves(config, interval, mode, at, E.RemoveEntry(k, None, E.GOOD_OUTCOME));
    at := at.(engine := E.Removed(at.engine, k));
  }

  /** What the results on punctual good runs assume can be met, whatever the configuration: some such run
      discovers an endpoint that never answers, reports it when its request expires, after exactly the time
      that the bound on a pass allows, and comes to rest with nothing left in the table or the queue. */
  lemma SilentEndpointIsReported(config: E.Config, interval: int, mode: S.Mode, info: Info, endpoint: S.Endpoint,
                                 fd: nat)
    ensures exists at :: Reaches(config, interval, mode, at) && AtRest(at) && at.driver.queue == []
              && at.engine.handlers == map[] && at.engine.used == {}
              && |at.driver.passes| == 1 && at.driver.passes[0].ended == config.expiry
              && at.driver.passes[0].pass.reported == [Report(info.eid, ERR_GENERAL)]
  {
    var k := E.Key(info.eid, 0, Wire.NVIDIA_MSG_TYPE, Wire.ADD_EXT_TIMESTAMP);
    var at := Discovered(config, interval, mode, info, endpoint);
    at := TurnedTo(config, interval, mode, at, info, fd);
    at := RequestSent(config, interval, mode, at, info, k);
    at := TimePassed(config, interval, mode, at, k);
    at := TimedOut(config, interval, mode, at, info, k);
    at := TaskOver(config, interval, mode, at, info);
    at := CleanedUp(config, interval, mode, at, k);
    assert Reaches(config, interval, mode, at);
  }
}
