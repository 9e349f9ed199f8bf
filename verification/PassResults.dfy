/** What becomes of an attempt, in every run of the service: how a failed start, an answer, an expiry and an
    exhausted set of identifiers are recorded and reported, and what they do to the devices. */
module PassResults {
  import opened Common
  import opened EndpointMap
  import opened SyncDriver
  import opened TimeSyncSystem
  import D = DriverTheorems
  import E = RequestEngine
  import EngineExactly
  import S = Sockets

  /** The current endpoint has this result, and the coroutine runs on with the next: an error is reported, and
      success is 0. */
  ghost predicate HasResult(d: Driver, d': Driver, code: Byte, sync: bool) {
    && HasCurrent(d) && d'.handle.Running? && InPass(d') && d'.handle.sync == sync
    && d'.handle.co.discovery == d.handle.co.discovery
    && d'.queue == d.queue && d'.finished == d.finished && d'.passes == d.passes
    && var p, p' := d.handle.co.pass.value, d'.handle.co.pass.value;
       && p'.eids == p.eids && p'.started == p.started && p'.idx == p.idx + 1 && p'.codes == p.codes + [code]
       && p'.reported == (if code == 0 then p.reported else p.reported + [Report(p.eids[p.idx], code)])
  }

  /** The devices stay, except that one that holds the current endpoint goes if it is to go. */
  ghost predicate DevicesAfter(d: Driver, d': Driver, goes: bool)
    requires HasCurrent(d)
  {
    if goes && exists u :: Holds(d.infoMap, u, D.CurrentEid(d))
    then exists u :: Holds(d.infoMap, u, D.CurrentEid(d)) && d'.infoMap == d.infoMap - {u}
    else d'.infoMap == d.infoMap
  }

  lemma RecordedResult(d: Driver, code: Byte, holder: Option<UUID>)
    requires HasCurrent(d) && IsHolder(d.infoMap, D.CurrentEid(d), holder)
    ensures HasResult(d, Recorded(d, code, holder), code, d.handle.Running? && d.handle.sync)
    ensures DevicesAfter(d, Recorded(d, code, holder), code == 5)
  {
    if holder.Some? {
      assert Holds(d.infoMap, holder.value, D.CurrentEid(d));
    }
  }

  /** What an attempt that did not start returns: the code of the failed send, -1 for the retry timer of a request
      with retries, 1 for the expiry timer. */
  function FailureOf(o: E.Outcome, retries: nat): int {
    if o.sendRc != 0 then o.sendRc else if retries > 0 && !o.retryArms then -1 else 1
  }

  function WithAttempt(d: Driver): Pass
    requires HasCurrent(d)
  {
    var p := d.handle.co.pass.value;
    p.(attempted := p.attempted + [p.eids[p.idx]])
  }

  ghost predicate WaitsFor(d: Driver, d': Driver, ticket: nat)
    requires HasCurrent(d)
  {
    d'.handle == Suspended(d.handle.co.(pass := Some(WithAttempt(d))), ticket) && d'.infoMap == d.infoMap
  }

  /** A request to set the timestamp of the current endpoint has been registered. */
  ghost predicate TimestampRegistered(d: Driver, en: E.State, en': E.State)
    requires HasCurrent(d)
  {
    var n := |en.history|;
    && |en'.history| == n + 1 && en'.history[n].key.eid == D.CurrentEid(d)
    && en'.history[n].key.msgType == 1 && en'.history[n].key.command == 0x13
  }

  ghost predicate AttemptDone(s: System, pick: Option<E.Key>, o: E.Outcome, s': System) {
    var d, d' := s.driver, s'.driver;
    && d.handle.Running? && HasCurrent(d) && TimestampRegistered(d, s.engine, s'.engine)
    && (pick.Some? ==> pick.value in s'.engine.handlers)
    && if pick.None? || E.Running(s'.engine, pick.value) then WaitsFor(d, d', |s.engine.history|) else
         var code := FailureOf(o, s'.engine.handlers[pick.value].request.numRetries) % 256;
         if code == 0 then WaitsFor(d, d', |s.engine.history|)
         else HasResult(d, d', code, d.handle.sync) && DevicesAfter(d, d', code == 5)
              && d'.handle.co.pass.value.attempted == WithAttempt(d).attempted
  }

  /** In every run an attempt registers a request to set the timestamp of the current endpoint. If the scan starts
      nothing, or starts what it picks, the coroutine waits for this request. Otherwise the code of the failure
      is, modulo 256, the endpoint's result, and only if that is 0 does the coroutine wait all the same. */
  lemma AttemptExactly(config: E.Config, interval: int, mode: S.Mode, events: seq<Event>,
                       pick: Option<E.Key>, o: E.Outcome, holder: Option<UUID>)
    requires IsRun(Started(config, interval, mode), events)
    requires Enabled(After(Started(config, interval, mode), events), Attempt(pick, o, holder))
    ensures var s := After(Started(config, interval, mode), events);
            AttemptDone(s, pick, o, Next(s, Attempt(pick, o, holder)))
  {
    AttemptResult(After(Started(config, interval, mode), events), Attempt(pick, o, holder));
  }

  lemma AttemptResult(s: System, e: Event)
    requires Enabled(s, e) && e.Attempt?
    ensures AttemptDone(s, e.pick, e.outcome, Next(s, e))
  {
    RegistrationResult(s.engine, EngineEvent(s, e).value);
    if AttemptCode(s, e) != 0 {
      FailedAttempt(s.driver, AttemptCode(s, e), e.holder);
    }
  }

  lemma RegistrationResult(en: E.State, ev: E.Event)
    requires E.Enabled(en, ev) && ev.Register?
    ensures var en', n := E.Next(en, ev), |en.history|;
            && |en'.history| == n + 1 && en'.history[n].key.eid == ev.eid
            && en'.history[n].key.msgType == ev.msgType && en'.history[n].key.command == ev.command
            && (ev.pick.Some? ==> ev.pick.value in en'.handlers)
            && E.RunRc(E.Registered(en, ev), ev.pick, ev.outcome) ==
               if ev.pick.None? || E.Running(en', ev.pick.value) then 0
               else FailureOf(ev.outcome, en'.handlers[ev.pick.value].request.numRetries)
  {
    EngineExactly.ScanCode(E.Registered(en, ev), ev.eid, ev.pick, ev.outcome);
  }

  lemma FailedAttempt(d: Driver, code: Byte, holder: Option<UUID>)
    requires AtAttempt(d) && IsHolder(d.infoMap, D.CurrentEid(d), holder)
    ensures var d' := Recorded(Attempted(d), code, holder);
            && HasResult(d, d', code, d.handle.sync) && DevicesAfter(d, d', code == 5)
            && d'.handle.co.pass.value.attempted == WithAttempt(d).attempted
  {
    var a := Attempted(d);
    assert D.CurrentEid(a) == D.CurrentEid(d) && a.infoMap == d.infoMap;
    RecordedResult(a, code, holder);
  }

  /** In every run an answer to the request that the coroutine waits for gives the endpoint a result: the payload
      if it is one byte, 3 if it is longer, 1 if there is none. So success is recorded if and only if the payload
      is the one byte 0, and a device goes if and only if it is the one byte 5 and some device holds the endpoint.
      Any other answer leaves the driver as it is. */
  lemma AnswerExactly(config: E.Config, interval: int, mode: S.Mode, events: seq<Event>,
                      key: E.Key, reply: E.Reply, holder: Option<UUID>)
    requires IsRun(Started(config, interval, mode), events)
    requires Enabled(After(Started(config, interval, mode), events), Response(key, reply, holder))
    ensures var s := After(Started(config, interval, mode), events);
            var d, d' := s.driver, Next(s, Response(key, reply, holder)).driver;
            if d.handle.Suspended? && s.engine.handlers[key].ticket == d.handle.ticket then
              && HasResult(d, d', if reply.length == 1 then reply.first else if reply.length == 0 then 1 else 3, false)
              && DevicesAfter(d, d', reply.length == 1 && reply.first == 5)
            else d' == d
  {
    D.RunIsOk(config, interval, mode, events);
    var d := After(Started(config, interval, mode), events).driver;
    if d.handle.Suspended? {
      RecordedResult(d, ResultCode(reply), holder);
    }
  }

  /** In every run the expiry of the request that the coroutine waits for gives the endpoint the result 1; any other
      leaves the driver as it is. */
  lemma ExpiryExactly(config: E.Config, interval: int, mode: S.Mode, events: seq<Event>,
                      ticket: nat, holder: Option<UUID>)
    requires IsRun(Started(config, interval, mode), events)
    requires Enabled(After(Started(config, interval, mode), events), Expire(ticket, holder))
    ensures var s := After(Started(config, interval, mode), events);
            var d, d' := s.driver, Next(s, Expire(ticket, holder)).driver;
            if d.handle.Suspended? && ticket == d.handle.ticket
            then HasResult(d, d', 1, false) && d'.infoMap == d.infoMap
            else d' == d
  {
    D.RunIsOk(config, interval, mode, events);
    var d := After(Started(config, interval, mode), events).driver;
    if d.handle.Suspended? {
      RecordedResult(d, ERR_GENERAL, holder);
    }
  }

  /** In every run an endpoint without a free identifier is passed over with result 0 and no report. */
  lemma ExhaustionExactly(config: E.Config, interval: int, mode: S.Mode, events: seq<Event>)
    requires IsRun(Started(config, interval, mode), events)
    requires Enabled(After(Started(config, interval, mode), events), AttemptWithoutId)
    ensures var s := After(Started(config, interval, mode), events);
            var s' := Next(s, AttemptWithoutId);
            && HasResult(s.driver, s'.driver, 0, s.driver.handle.sync) && s'.driver.infoMap == s.driver.infoMap
            && s'.engine == s.engine
  {
    D.RunIsOk(config, interval, mode, events);
  }

  /** In every run a pass begins at its first endpoint, with nothing attempted, at the time of its first step. */
  lemma PassBeginsNow(config: E.Config, interval: int, mode: S.Mode, events: seq<Event>, e: Event)
    requires IsRun(Started(config, interval, mode), events)
    requires Enabled(After(Started(config, interval, mode), events), e)
    ensures var s := After(Started(config, interval, mode), events); var d' := Next(s, e).driver;
            !InPass(s.driver) && InPass(d') ==>
              d'.handle.co.pass.value == Pass(d'.handle.co.pass.value.eids, 0, s.engine.now, [], [], [])
  {
    var s := After(Started(config, interval, mode), events);
    if e.Discovery? {
      D.PushedAllFrame(s.driver, InfosOf(e.found));
    }
  }
}
