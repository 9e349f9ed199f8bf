/** The good runs of the whole service, in either mode and whatever the sockets do: sends and timer starts
    succeed, and responses respect the window between an expiry and its removal. At most one request is live in
    the whole system, the one that the suspended coroutine waits for. */
module SystemTheorems {
  import opened Common
  import opened SyncDriver
  import opened TimeSyncSystem
  import D = DriverTheorems
  import E = RequestEngine
  import G = EngineGoodRuns
  import S = Sockets

  // ---------------------------------------------------------------- runs of the service are runs of the engine

  /** The events of the run that concern the engine, in order. */
  ghost function EngineEvents(s: System, events: seq<Event>): seq<E.Event>
    decreases |events|
  {
    if events == [] then [] else
    var before := events[..|events|-1];
    var last := EngineEvent(After(s, before), events[|events|-1]);
    EngineEvents(s, before) + if last.Some? then [last.value] else []
  }

  /** What the engine does in a run of the service is a run of the engine: its results hold here too. */
  lemma {:induction false} EngineRefined(s: System, events: seq<Event>)
    requires IsRun(s, events)
    ensures E.IsRun(s.engine, EngineEvents(s, events))
    ensures E.After(s.engine, EngineEvents(s, events)) == After(s, events).engine
    decreases |events|
  {
    if events != [] {
      var before := events[..|events|-1];
      var last := EngineEvent(After(s, before), events[|events|-1]);
      EngineRefined(s, before);
      if last.Some? {
        E.RunExtends(s.engine, EngineEvents(s, before), last.value);
      } else {
        assert EngineEvents(s, before) + [] == EngineEvents(s, before);
      }
    }
  }

  // ---------------------------------------------------------------- good runs

  ghost predicate GoodEvent(s: System, e: Event) {
    EngineEvent(s, e).Some? ==> G.GoodEvent(s.engine, EngineEvent(s, e).value)
  }

  ghost predicate IsGoodRun(s: System, events: seq<Event>)
    decreases |events|
  {
    events == [] ||
    var before, last := events[..|events|-1], events[|events|-1];
    IsGoodRun(s, before) && Enabled(After(s, before), last) && GoodEvent(After(s, before), last)
  }

  lemma {:induction false} GoodRunIsRun(s: System, events: seq<Event>)
    requires IsGoodRun(s, events)
    ensures IsRun(s, events)
    decreases |events|
  {
    if events != [] {
      GoodRunIsRun(s, events[..|events|-1]);
    }
  }

  /** The only live request is the one that the suspended coroutine waits for, to its current endpoint. */
  ghost predicate Linked(s: System) {
    var h, en := s.driver.handle, s.engine;
    && (forall t :: 0 <= t < |en.history| && G.Waits(en, t) ==> h.Suspended? && h.ticket == t)
    && (h.Suspended? ==>
         && h.ticket < |en.history| && G.Waits(en, h.ticket) && HasCurrent(s.driver)
         && en.history[h.ticket].key.eid == h.co.pass.value.eids[h.co.pass.value.idx])
    && (h.Running? ==> (h.sync <==> en.context.Idle?))
  }

  ghost predicate Good(s: System) {
    G.Good(s.engine) && D.HandleOk(s.driver) && Linked(s)
  }

  lemma StartIsGood(config: E.Config, interval: int, mode: S.Mode)
    ensures Good(Started(config, interval, mode)) && D.DriverOk(Started(config, interval, mode).driver, 0)
  {
  }

  // ---------------------------------------------------------------- how the engine's live requests change

  /** The same requests are live, with the same descriptors. */
  ghost predicate SameLive(en: E.State, en': E.State) {
    && en'.history == en.history
    && (forall t :: 0 <= t < |en.history| ==> (G.Waits(en', t) <==> G.Waits(en, t)))
    && (forall t :: 0 <= t < |en.history| && G.Waits(en, t) ==>
         en'.handlers[en.history[t].key].fd == en.handlers[en.history[t].key].fd)
  }

  lemma RunSameLive(en: E.State, pick: Option<E.Key>, o: E.Outcome)
    requires pick.Some? ==> pick.value in en.handlers
    ensures SameLive(en, E.RunRegistered(en, pick, o))
  {
  }

  lemma RemoveSameLive(en: E.State, k: E.Key)
    requires G.Marked(en) && en.context.Idle? && k in en.removal
    ensures SameLive(en, E.Removed(en, k))
  {
    assert G.Pending(en, k);
  }

  /** A good engine event other than a registration or a handler call leaves the live requests as they are. */
  lemma QuietEngineStep(en: E.State, ev: E.Event)
    requires G.Good(en) && E.Enabled(en, ev)
    requires !ev.Register? && !ev.BeginResponse? && !ev.BeginExpire?
    ensures SameLive(en, E.Next(en, ev))
  {
    match ev {
      case EndResponse(pick, o) => RunSameLive(en, pick, o);
      case Foreign(k, pick, o) => RunSameLive(E.Freed(en, k), pick, o);
      case RemoveEntry(k, pick, o) =>
        RemoveSameLive(en, k);
        RunSameLive(E.Removed(en, k), pick, o);
      case RetryTick(_) =>
      case EndExpire =>
      case Advance(_) =>
    }
  }

  /** One live request has been added, to this endpoint and with this descriptor. */
  ghost predicate AddsLive(en: E.State, en': E.State, eid: Byte, fd: int) {
    var n := |en.history|;
    && |en'.history| == n + 1 && en'.history[n].key.eid == eid && G.Waits(en', n)
    && en'.handlers[en'.history[n].key].fd == fd
    && (forall t :: 0 <= t < n ==> en'.history[t] == en.history[t] && (G.Waits(en', t) <==> G.Waits(en, t)))
    && (forall t :: 0 <= t < n && G.Waits(en, t) ==>
         en'.handlers[en.history[t].key].fd == en.handlers[en.history[t].key].fd)
  }

  lemma EmplaceAddsLive(en: E.State, k: E.Key, fd: int)
    requires k !in en.handlers
    ensures AddsLive(en, E.Emplace(en, k, fd), k.eid, fd)
  {
  }

  lemma RunKeepsAdded(en: E.State, added: E.State, eid: Byte, fd: int, pick: Option<E.Key>, o: E.Outcome)
    requires AddsLive(en, added, eid, fd) && (pick.Some? ==> pick.value in added.handlers)
    ensures AddsLive(en, E.RunRegistered(added, pick, o), eid, fd)
  {
    RunSameLive(added, pick, o);
    SameLiveKeepsAdded(en, added, E.RunRegistered(added, pick, o), eid, fd);
  }

  lemma SameLiveKeepsAdded(en: E.State, added: E.State, en': E.State, eid: Byte, fd: int)
    requires AddsLive(en, added, eid, fd) && SameLive(added, en')
    ensures AddsLive(en, en', eid, fd)
  {
    forall t | 0 <= t < |en.history|
      ensures en'.history[t] == en.history[t] && (G.Waits(en', t) <==> G.Waits(en, t))
    {
      assert G.Waits(added, t) <==> G.Waits(en, t);
    }
  }

  /** A registration adds one live request, to its endpoint and with its descriptor. */
  lemma RegisterStep(en: E.State, ev: E.Event)
    requires G.Good(en) && E.Enabled(en, ev) && ev.Register?
    ensures AddsLive(en, E.Next(en, ev), ev.eid, ev.fd)
  {
    G.NextKeyIsFree(en, ev.eid, ev.msgType, ev.command);
    EmplaceAddsLive(en, E.NextKey(en, ev.eid, ev.msgType, ev.command), ev.fd);
    RunKeepsAdded(en, E.Registered(en, ev), ev.eid, ev.fd, ev.pick, ev.outcome);
  }

  /** A handler call ends the life of its request and of no other. */
  lemma CallStep(en: E.State, ev: E.Event)
    requires G.Good(en) && E.Enabled(en, ev) && G.GoodEvent(en, ev) && (ev.BeginResponse? || ev.BeginExpire?)
    ensures var en' := E.Next(en, ev);
            var t0 := if ev.BeginResponse? then en.handlers[ev.key].ticket else ev.ticket;
            && |en'.history| == |en.history| && t0 < |en.history| && G.Waits(en, t0) && !en'.context.Idle?
            && (forall t :: 0 <= t < |en.history| ==>
                 en'.history[t].key == en.history[t].key && (G.Waits(en', t) <==> t != t0 && G.Waits(en, t)))
            && (forall t :: 0 <= t < |en.history| && t != t0 && G.Waits(en, t) ==>
                 en'.handlers[en.history[t].key].fd == en.handlers[en.history[t].key].fd)
  {
  }

  // ---------------------------------------------------------------- preservation

  lemma AttemptSucceeds(s: System, e: Event)
    requires Good(s) && Enabled(s, e) && GoodEvent(s, e) && e.Attempt?
    ensures AttemptCode(s, e) == SUCCESS
  {
  }

  lemma DiscoveryKeeps(s: System, e: Event)
    requires Good(s) && Enabled(s, e) && e.Discovery?
    ensures Linked(Next(s, e))
  {
    D.PushedAllFrame(s.driver, InfosOf(e.found));
  }

  lemma AttemptKeeps(s: System, e: Event)
    requires Good(s) && Enabled(s, e) && GoodEvent(s, e) && e.Attempt?
    ensures Linked(Next(s, e))
  {
    RegisterStep(s.engine, EngineEvent(s, e).value);
    AttemptSucceeds(s, e);
  }

  /** The handler that a good event calls is that of the live request, which is then over. */
  lemma CallEndsLive(s: System, e: Event)
    requires Good(s) && Enabled(s, e) && GoodEvent(s, e) && (e.Response? || e.Expire?)
    ensures Resumes(s, if e.Response? then s.engine.handlers[e.key].ticket else e.ticket)
    ensures !EngineNext(s, e).context.Idle?
    ensures forall t :: 0 <= t < |EngineNext(s, e).history| ==> !G.Waits(EngineNext(s, e), t)
  {
    CallStep(s.engine, EngineEvent(s, e).value);
  }

  /** When the handler of the live request is called, the coroutine resumes at its next endpoint. */
  lemma CallKeeps(s: System, e: Event)
    requires Good(s) && Enabled(s, e) && GoodEvent(s, e) && (e.Response? || e.Expire?)
    ensures Linked(Next(s, e))
  {
    CallEndsLive(s, e);
    assert Next(s, e).driver.handle.Running? && !Next(s, e).driver.handle.sync;
  }

  lemma SameLiveKeeps(s: System, en: E.State)
    requires Linked(s) && SameLive(s.engine, en) && !s.driver.handle.Running?
    ensures Linked(s.(engine := en))
  {
  }

  lemma StepIsGood(s: System, e: Event)
    requires Good(s) && D.DriverOk(s.driver, s.engine.now) && Enabled(s, e) && GoodEvent(s, e)
    ensures Good(Next(s, e)) && D.DriverOk(Next(s, e).driver, Next(s, e).engine.now)
  {
    if EngineEvent(s, e).Some? {
      G.StepIsGood(s.engine, EngineEvent(s, e).value);
    }
    D.StepIsOk(s, e);
    match e {
      case Attempt(_, _, _) => AttemptKeeps(s, e);
      case TimeChange(_, _) =>
      case Discovery(_, _) => DiscoveryKeeps(s, e);
      case LoopHead(_) =>
      case AttemptWithoutId =>
      case EndOfPass =>
      case Response(_, _, _) => CallKeeps(s, e);
      case Expire(_, _) => CallKeeps(s, e);
      case Engine(event) =>
        QuietEngineStep(s.engine, event);
        SameLiveKeeps(s, EngineNext(s, e));
    }
  }

  lemma {:induction false} RunIsGood(config: E.Config, interval: int, mode: S.Mode, events: seq<Event>)
    requires IsGoodRun(Started(config, interval, mode), events)
    ensures var s := After(Started(config, interval, mode), events);
            Good(s) && D.DriverOk(s.driver, s.engine.now)
    decreases |events|
  {
    if events == [] {
      StartIsGood(config, interval, mode);
    } else {
      var before := events[..|events|-1];
      RunIsGood(config, interval, mode, before);
      StepIsGood(After(Started(config, interval, mode), before), events[|events|-1]);
    }
  }

  // ---------------------------------------------------------------- single flight

  /** In every state of every good run at most one entry of the table, over all endpoints, is neither completed
      nor waiting for its removal, and it is the request that the suspended coroutine waits for. */
  lemma SingleFlight(config: E.Config, interval: int, mode: S.Mode, events: seq<Event>)
    requires IsGoodRun(Started(config, interval, mode), events)
    ensures var s := After(Started(config, interval, mode), events);
            && (forall k, l | k in s.engine.handlers && l in s.engine.handlers ::
                 !s.engine.handlers[k].done && !s.engine.handlers[l].done ==> k == l)
            && (forall k :: k in s.engine.handlers && !s.engine.handlers[k].done ==>
                 s.driver.handle.Suspended? && s.driver.handle.ticket == s.engine.handlers[k].ticket)
            && (s.driver.handle.Suspended? ==> exists k :: k in s.engine.handlers && !s.engine.handlers[k].done)
  {
    RunIsGood(config, interval, mode, events);
    var s := After(Started(config, interval, mode), events);
    forall k | k in s.engine.handlers && !s.engine.handlers[k].done
      ensures s.driver.handle.Suspended? && s.driver.handle.ticket == s.engine.handlers[k].ticket
      ensures s.engine.history[s.engine.handlers[k].ticket].key == k
    {
      assert G.Waits(s.engine, s.engine.handlers[k].ticket);
    }
  }

  /** Between events with no removal pending the live request is running: its expiry timer is armed. */
  lemma LiveIsArmed(s: System)
    requires Good(s) && s.engine.context.Idle? && s.engine.removal == {} && s.driver.handle.Suspended?
    ensures s.driver.handle.ticket in s.engine.armed
  {
    var en, t := s.engine, s.driver.handle.ticket;
    var k := en.history[t].key;
    assert G.HasLive(en, k.eid) && !G.HasPending(en, k.eid);
    assert G.Conserves(en, k.eid);
    var l :| l in E.Candidates(en, k.eid) && E.Running(en, l);
    var u := en.handlers[l].ticket;
    assert !G.Pending(en, l) && en.history[u].key == l && G.Waits(en, u);
  }
}
