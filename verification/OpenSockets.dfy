/** What the sends of the service's good runs go to, in daemon mode and in the kernel, whatever the sockets do:
    nothing live is sent on a closed socket when, besides, the sockets open. */
module OpenSockets {
  import opened Common
  import opened EndpointMap
  import opened SyncDriver
  import opened TimeSyncSystem
  import opened SystemTheorems
  import D = DriverTheorems
  import E = RequestEngine
  import G = EngineGoodRuns
  import S = Sockets

  // ---------------------------------------------------------------- the invariant

  /** Every socket that the step has to open opens. */
  ghost predicate SocketsOpen(s: System, e: Event) {
    e.TimeChange? || e.LoopHead? ==> forall i :: 0 <= i < |e.results| ==> S.InitFd(s.sock, e.results[i]) >= 0
  }

  ghost predicate IsOpenRun(s: System, events: seq<Event>)
    decreases |events|
  {
    events == [] ||
    var before, last := events[..|events|-1], events[|events|-1];
    IsOpenRun(s, before) && Enabled(After(s, before), last) && GoodEvent(After(s, before), last)
    && SocketsOpen(After(s, before), last)
  }

  lemma {:induction false} OpenRunIsGood(s: System, events: seq<Event>)
    requires IsOpenRun(s, events)
    ensures IsGoodRun(s, events)
    decreases |events|
  {
    if events != [] {
      OpenRunIsGood(s, events[..|events|-1]);
    }
  }

  ghost predicate SocksAgree(sock: S.Sockets) {
    if sock.mode.Daemon? then S.Agrees(sock) else S.KernelAgrees(sock)
  }

  /** Outside a pass no endpoint has a descriptor; the live request has that registered for its endpoint, which
      is 0 unless the activation reached the endpoint. */
  ghost predicate Wired(s: System) {
    && SocksAgree(s.sock) && S.UnreachedAreZero(s.sock)
    && (!InPass(s.driver) ==> s.sock.open == map[] && s.sock.live == {})
    && LiveHaveSockets(s.engine, s.sock)
  }

  ghost predicate LiveHaveSockets(en: E.State, sock: S.Sockets) {
    forall t :: 0 <= t < |en.history| && G.Waits(en, t) ==>
      var k := en.history[t].key;
      k.eid in sock.eidToFd && en.handlers[k].fd == sock.eidToFd[k.eid]
  }

  lemma AddedHasSocket(en: E.State, en': E.State, sock: S.Sockets, eid: Byte, fd: int)
    requires AddsLive(en, en', eid, fd) && eid in sock.eidToFd && sock.eidToFd[eid] == fd
    requires forall t :: 0 <= t < |en.history| ==> !G.Waits(en, t)
    ensures LiveHaveSockets(en', sock)
  {
  }

  /** During a pass every one of its endpoints has been reached. */
  ghost predicate AllReached(s: System) {
    InPass(s.driver) ==> forall i :: 0 <= i < |s.driver.handle.co.pass.value.eids| ==>
      s.driver.handle.co.pass.value.eids[i] in s.sock.live
  }

  lemma {:induction false} RegisterAllFrame(sock: S.Sockets, found: seq<Found>)
    requires SocksAgree(sock)
    ensures var t := RegisterAll(sock, found);
            SocksAgree(t) && t == sock.(endpoints := t.endpoints)
    decreases |found|
  {
    if found != [] {
      RegisterAllFrame(sock, found[..|found|-1]);
    }
  }

  lemma ActivationWires(sock: S.Sockets, eids: seq<Byte>, results: seq<int>)
    requires SocksAgree(sock) && S.UnreachedAreZero(sock) && |results| == |eids| && S.FreshResults(sock, eids, results)
    ensures var t := S.Activated(sock, eids, results);
            SocksAgree(t) && S.UnreachedAreZero(t) && (eids == [] ==> t == sock)
  {
    if sock.mode.Daemon? {
      S.ActivateAgrees(sock, eids, results);
    } else {
      S.KernelActivation(sock, eids, results);
    }
    S.ActivationKeepsZeros(sock, eids, results);
  }

  lemma TimeChangeWires(s: System, e: Event)
    requires Good(s) && Wired(s) && Enabled(s, e) && e.TimeChange?
    ensures Wired(Next(s, e))
  {
    ActivationWires(s.sock, EidsOfTargets(e.targets), e.results);
  }

  lemma DiscoveryWires(s: System, e: Event)
    requires Good(s) && Wired(s) && Enabled(s, e) && e.Discovery?
    ensures Wired(Next(s, e))
  {
    D.PushedAllFrame(s.driver, InfosOf(e.found));
    RegisterAllFrame(s.sock, e.found);
  }

  lemma LoopHeadWires(s: System, e: Event)
    requires Good(s) && Wired(s) && Enabled(s, e) && e.LoopHead?
    ensures Wired(Next(s, e))
  {
    if NextEids(s.driver).Some? {
      ActivationWires(s.sock, NextEids(s.driver).value, e.results);
    }
  }

  lemma LookUpWires(sock: S.Sockets, eid: Byte)
    requires SocksAgree(sock) && S.UnreachedAreZero(sock)
    ensures var t := S.LookedUp(sock, eid);
            && SocksAgree(t) && S.UnreachedAreZero(t) && t.open == sock.open && t.live == sock.live
            && eid in t.eidToFd && t.eidToFd[eid] == S.FdOf(sock, eid)
  {
  }

  lemma AttemptWires(s: System, e: Event)
    requires Good(s) && Wired(s) && Enabled(s, e) && GoodEvent(s, e) && e.Attempt?
    ensures Wired(Next(s, e))
  {
    RegisterStep(s.engine, EngineEvent(s, e).value);
    AttemptSucceeds(s, e);
    LookUpWires(s.sock, ThisEid(s.driver));
    var eid := ThisEid(s.driver);
    AddedHasSocket(s.engine, EngineNext(s, e), S.LookedUp(s.sock, eid), eid, S.FdOf(s.sock, eid));
  }

  lemma CallWires(s: System, e: Event)
    requires Good(s) && Wired(s) && Enabled(s, e) && GoodEvent(s, e) && (e.Response? || e.Expire?)
    ensures Wired(Next(s, e))
  {
    CallEndsLive(s, e);
  }

  lemma SameLiveWires(s: System, en: E.State)
    requires Wired(s) && SameLive(s.engine, en)
    ensures Wired(s.(engine := en))
  {
  }

  /** While a coroutine runs no request is live. */
  lemma EndOfPassWires(s: System)
    requires Good(s) && Wired(s) && AtPassEnd(s.driver)
    ensures Wired(Next(s, EndOfPass))
  {
    assert forall t :: 0 <= t < |s.engine.history| ==> !G.Waits(s.engine, t);
  }

  lemma StepWires(s: System, e: Event)
    requires Good(s) && Wired(s) && Enabled(s, e) && GoodEvent(s, e)
    ensures Wired(Next(s, e))
  {
    match e {
      case Attempt(_, _, _) => AttemptWires(s, e);
      case TimeChange(_, _) => TimeChangeWires(s, e);
      case Discovery(_, _) => DiscoveryWires(s, e);
      case LoopHead(_) => LoopHeadWires(s, e);
      case AttemptWithoutId =>
      case EndOfPass => EndOfPassWires(s);
      case Response(_, _, _) => CallWires(s, e);
      case Expire(_, _) => CallWires(s, e);
      case Engine(event) =>
        QuietEngineStep(s.engine, event);
        SameLiveWires(s, EngineNext(s, e));
    }
  }

  lemma {:induction false} RunIsWired(config: E.Config, interval: int, mode: S.Mode, events: seq<Event>)
    requires IsGoodRun(Started(config, interval, mode), events)
    ensures var s := After(Started(config, interval, mode), events);
            Good(s) && D.DriverOk(s.driver, s.engine.now) && Wired(s) && s.sock.mode == mode
    decreases |events|
  {
    RunIsGood(config, interval, mode, events);
    if events != [] {
      var before, last := events[..|events|-1], events[|events|-1];
      RunIsWired(config, interval, mode, before);
      StepWires(After(Started(config, interval, mode), before), last);
      ModeStays(After(Started(config, interval, mode), before), last);
    }
  }

  // ---------------------------------------------------------------- what the activation of a pass reaches

  /** The endpoints of the pass that the step begins, and what opening their sockets yields. */
  function Begins(s: System, e: Event): Option<(seq<Byte>, seq<int>)> {
    match e
    case TimeChange(targets, results) =>
      if Launches(s.driver, s.engine.now) then Some((EidsOfTargets(targets), results)) else None
    case LoopHead(results) =>
      if NextEids(s.driver).Some? then Some((NextEids(s.driver).value, results)) else None
    case _ => None
  }

  /** During a pass exactly those endpoints are live that the activation at its beginning reached. */
  lemma LiveIsReached(s: System, e: Event)
    requires Good(s) && Wired(s) && Enabled(s, e)
    ensures InPass(s.driver) && InPass(Next(s, e).driver) ==> Next(s, e).sock.live == s.sock.live
    ensures !InPass(s.driver) && InPass(Next(s, e).driver) ==>
              && Begins(s, e).Some?
              && var (eids, results) := Begins(s, e).value;
                 && |results| == |eids| && Next(s, e).driver.handle.co.pass.value.eids == eids
                 && forall eid :: eid in Next(s, e).sock.live <==>
                      exists i :: 0 <= i < |eids| && eids[i] == eid && S.Reaches(s.sock, eids, results, i)
  {
    if e.Discovery? {
      D.PushedAllFrame(s.driver, InfosOf(e.found));
      RegisterAllFrame(s.sock, e.found);
    }
    if !InPass(s.driver) && Begins(s, e).Some? {
      var (eids, results) := Begins(s, e).value;
      forall eid: Byte
        ensures eid in S.Activated(s.sock, eids, results).live <==>
                exists i :: 0 <= i < |eids| && eids[i] == eid && S.Reaches(s.sock, eids, results, i)
      {
        S.ReachedExactly(s.sock, eids, results, eid);
      }
    }
  }

  lemma StepReaches(s: System, e: Event)
    requires Good(s) && Wired(s) && AllReached(s) && Enabled(s, e) && GoodEvent(s, e) && SocketsOpen(s, e)
    ensures AllReached(Next(s, e))
  {
    if Begins(s, e).Some? {
      S.ActivateReaches(s.sock, Begins(s, e).value.0, Begins(s, e).value.1);
    } else {
      LiveIsReached(s, e);
      SamePassEndpoints(s, e);
    }
  }

  lemma SamePassEndpoints(s: System, e: Event)
    requires Good(s) && Enabled(s, e) && GoodEvent(s, e) && Begins(s, e).None?
    ensures InPass(Next(s, e).driver) ==>
              InPass(s.driver) && Next(s, e).driver.handle.co.pass.value.eids == s.driver.handle.co.pass.value.eids
  {
    if e.Discovery? {
      D.PushedAllFrame(s.driver, InfosOf(e.found));
    }
  }

  lemma {:induction false} OpenRunReaches(config: E.Config, interval: int, mode: S.Mode, events: seq<Event>)
    requires IsOpenRun(Started(config, interval, mode), events)
    ensures AllReached(After(Started(config, interval, mode), events))
    decreases |events|
  {
    if events != [] {
      var before, last := events[..|events|-1], events[|events|-1];
      OpenRunReaches(config, interval, mode, before);
      OpenRunIsGood(Started(config, interval, mode), before);
      RunIsWired(config, interval, mode, before);
      StepReaches(After(Started(config, interval, mode), before), last);
    }
  }

  // ---------------------------------------------------------------- the mode

  lemma {:induction false} ActivationMode(sock: S.Sockets, eids: seq<Byte>, results: seq<int>)
    requires |results| == |eids|
    ensures S.Activated(sock, eids, results).mode == sock.mode
    decreases |eids|
  {
    if eids != [] {
      ActivationMode(sock, eids[..|eids|-1], results[..|eids|-1]);
    }
  }

  lemma ModeStays(s: System, e: Event)
    requires Enabled(s, e) && SocksAgree(s.sock)
    ensures Next(s, e).sock.mode == s.sock.mode
  {
    if e.TimeChange? {
      ActivationMode(s.sock, EidsOfTargets(e.targets), e.results);
    } else if e.LoopHead? && NextEids(s.driver).Some? {
      ActivationMode(s.sock, NextEids(s.driver).value, e.results);
    } else if e.Discovery? {
      RegisterAllFrame(s.sock, e.found);
    }
  }

  // ---------------------------------------------------------------- sends

  /** What the step sends for a live request it sends from its entry in the table. */
  ghost predicate SentFromTable(en: E.State, en': E.State) {
    forall i | |en.sent| <= i < |en'.sent| && en'.sent[i].live ::
      var send := en'.sent[i];
      && send.key in en'.handlers && !en'.handlers[send.key].done
      && en'.handlers[send.key].ticket == send.ticket && en'.handlers[send.key].fd == send.fd
  }

  lemma RunSends(en: E.State, pick: Option<E.Key>, o: E.Outcome)
    requires pick.Some? ==> pick.value in en.handlers
    ensures SentFromTable(en, E.RunRegistered(en, pick, o))
  {
  }

  lemma StepSends(en: E.State, ev: E.Event)
    requires E.Enabled(en, ev)
    ensures SentFromTable(en, E.Next(en, ev))
  {
    match ev {
      case Register(_, _, _, _, pick, o) => RunSends(E.Registered(en, ev), pick, o);
      case EndResponse(pick, o) => RunSends(en, pick, o);
      case Foreign(k, pick, o) => RunSends(E.Freed(en, k), pick, o);
      case RemoveEntry(k, pick, o) => RunSends(E.Removed(en, k), pick, o);
      case _ =>
    }
  }

  /** The send goes to the current endpoint of a pass, with the descriptor registered for it. */
  ghost predicate SentToCurrent(s: System, send: E.Send) {
    && HasCurrent(s.driver)
    && send.key.eid == s.driver.handle.co.pass.value.eids[s.driver.handle.co.pass.value.idx]
    && send.key.eid in s.sock.eidToFd && s.sock.eidToFd[send.key.eid] == send.fd
  }

  /** So it does, and the descriptor is in daemon mode that of the open socket cached for the endpoint's path, in
      the kernel that of the single socket. */
  ghost predicate SentOnOpenSocket(s: System, send: E.Send) {
    && SentToCurrent(s, send)
    && match s.sock.mode
       case Daemon =>
         && send.key.eid in s.sock.endpoints && s.sock.endpoints[send.key.eid].path in s.sock.cache
         && send.fd == s.sock.cache[s.sock.endpoints[send.key.eid].path]
         && send.fd in s.sock.open && s.sock.open[send.fd] == s.sock.endpoints[send.key.eid].path
       case InKernel => s.sock.kernelFd == Some(send.fd) && send.fd >= 0
  }

  /** In every good run, whatever the sockets do, what a live request sends, first send or retry, goes during a
      pass to its current endpoint: on the open socket of this endpoint if the activation of the pass reached
      it, and on descriptor 0 if not. */
  lemma SendsOnSocketOrZero(config: E.Config, interval: int, mode: S.Mode, events: seq<Event>, e: Event, i: nat)
    requires IsGoodRun(Started(config, interval, mode), events)
    requires var s := After(Started(config, interval, mode), events);
             && Enabled(s, e) && GoodEvent(s, e)
             && |s.engine.sent| <= i < |Next(s, e).engine.sent| && Next(s, e).engine.sent[i].live
    ensures var s' := Next(After(Started(config, interval, mode), events), e);
            var send := s'.engine.sent[i];
            && SentToCurrent(s', send) && s'.sock.mode == mode
            && (send.key.eid in s'.sock.live ==> SentOnOpenSocket(s', send))
            && (send.key.eid !in s'.sock.live ==> send.fd == 0)
  {
    var s := After(Started(config, interval, mode), events);
    RunIsWired(config, interval, mode, events);
    StepIsGood(s, e);
    StepWires(s, e);
    ModeStays(s, e);
    StepSends(s.engine, EngineEvent(s, e).value);
    CurrentSendIsWired(Next(s, e), Next(s, e).engine.sent[i]);
  }

  /** In every good run in which the sockets open, whatever a live request sends, first send or retry, goes
      during a pass, to its current endpoint, on an open socket of this endpoint. */
  lemma NoSendOnClosedSocket(config: E.Config, interval: int, mode: S.Mode, events: seq<Event>, e: Event, i: nat)
    requires IsOpenRun(Started(config, interval, mode), events)
    requires var s := After(Started(config, interval, mode), events);
             && Enabled(s, e) && GoodEvent(s, e) && SocketsOpen(s, e)
             && |s.engine.sent| <= i < |Next(s, e).engine.sent| && Next(s, e).engine.sent[i].live
    ensures var s' := Next(After(Started(config, interval, mode), events), e);
            SentOnOpenSocket(s', s'.engine.sent[i]) && s'.sock.mode == mode
  {
    var s := After(Started(config, interval, mode), events);
    OpenRunIsGood(Started(config, interval, mode), events);
    RunIsWired(config, interval, mode, events);
    OpenRunReaches(config, interval, mode, events);
    StepReaches(s, e);
    SendsOnSocketOrZero(config, interval, mode, events, e, i);
  }

  lemma CurrentSendIsWired(s: System, send: E.Send)
    requires Good(s) && Wired(s) && send.key in s.engine.handlers && !s.engine.handlers[send.key].done
    requires s.engine.handlers[send.key].ticket == send.ticket && s.engine.handlers[send.key].fd == send.fd
    ensures SentToCurrent(s, send)
    ensures send.key.eid in s.sock.live ==> SentOnOpenSocket(s, send)
    ensures send.key.eid !in s.sock.live ==> send.fd == 0
  {
    assert s.engine.history[send.ticket].key == send.key && G.Waits(s.engine, send.ticket);
  }
}
