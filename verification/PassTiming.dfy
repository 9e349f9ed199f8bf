/** The time that a pass takes in the good runs of the service whose timers are punctual: it ends, and in time. */
module PassTiming {
  import opened Common
  import opened SyncDriver
  import opened TimeSyncSystem
  import opened SystemTheorems
  import D = DriverTheorems
  import E = RequestEngine
  import EngineSafety
  import G = EngineGoodRuns
  import S = Sockets

  // ---------------------------------------------------------------- the bound

  /** A timer fires on time, and a deferred removal runs before time passes. */
  ghost predicate Punctual(s: System, e: Event) {
    e.Engine? && e.event.Advance? ==>
      s.engine.removal == {} &&
      forall t :: t in s.engine.armed ==> s.engine.now + e.event.delta <= s.engine.armed[t].deadline
  }

  ghost predicate IsPunctualRun(s: System, events: seq<Event>)
    decreases |events|
  {
    events == [] ||
    var before, last := events[..|events|-1], events[|events|-1];
    IsPunctualRun(s, before) && Enabled(After(s, before), last) && GoodEvent(After(s, before), last)
    && Punctual(After(s, before), last)
  }

  /** A punctual run is extended at its end. */
  lemma PunctualRunExtends(s: System, events: seq<Event>, e: Event)
    requires IsPunctualRun(s, events) && Enabled(After(s, events), e) && GoodEvent(After(s, events), e)
    requires Punctual(After(s, events), e)
    ensures IsPunctualRun(s, events + [e]) && After(s, events + [e]) == Next(After(s, events), e)
  {
    assert (events + [e])[..|events|] == events;
  }

  lemma {:induction false} PunctualRunIsGood(s: System, events: seq<Event>)
    requires IsPunctualRun(s, events)
    ensures IsGoodRun(s, events)
    decreases |events|
  {
    if events != [] {
      PunctualRunIsGood(s, events[..|events|-1]);
    }
  }

  /** When the requests before the current endpoint must be over. */
  function Budget(p: Pass, expiry: nat): nat {
    p.started + p.idx * expiry
  }

  ghost predicate Timely(s: System) {
    var en, expiry := s.engine, s.engine.config.expiry;
    && (forall t :: t in en.armed ==> en.now <= en.armed[t].deadline <= en.now + expiry)
    && (InPass(s.driver) ==>
         var p := s.driver.handle.co.pass.value;
         if s.driver.handle.Suspended? && s.driver.handle.ticket in en.armed
         then en.armed[s.driver.handle.ticket].deadline <= Budget(p, expiry) + expiry
         else en.now <= Budget(p, expiry))
    && forall q :: q in s.driver.passes ==> q.ended <= q.pass.started + |q.pass.eids| * expiry
  }

  /** Timers that keep running keep their deadline, and new ones get the full interval. */
  ghost predicate DeadlinesKept(en: E.State, en': E.State) {
    && en'.config == en.config && en'.now == en.now
    && forall t :: t in en'.armed ==>
         if t in en.armed then en'.armed[t] == en.armed[t] else en'.armed[t].deadline == en.now + en.config.expiry
  }

  lemma RunKeepsDeadlines(en: E.State, eid: Byte, pick: Option<E.Key>, o: E.Outcome)
    requires E.Picks(en, eid, pick)
    ensures var en' := E.RunRegistered(en, pick, o);
            DeadlinesKept(en, en') && forall t :: t in en.armed ==> t in en'.armed
  {
  }

  lemma StepKeepsDeadlines(en: E.State, ev: E.Event)
    requires EngineSafety.Safe(en) && E.Enabled(en, ev)
    ensures !ev.Advance? ==> DeadlinesKept(en, E.Next(en, ev))
  {
    match ev {
      case Register(eid, _, _, _, pick, o) => RunKeepsDeadlines(E.Registered(en, ev), eid, pick, o);
      case EndResponse(pick, o) => RunKeepsDeadlines(en, en.context.eid, pick, o);
      case Foreign(k, pick, o) => RunKeepsDeadlines(E.Freed(en, k), k.eid, pick, o);
      case RemoveEntry(k, pick, o) =>
        RunKeepsDeadlines(E.Removed(en, k), k.eid, pick, o);
        if pick.Some? && k in en.handlers {
          assert en.handlers[pick.value].ticket != en.handlers[k].ticket;
        }
      case _ =>
    }
  }

  /** An event other than a handler call stops the timer of no live request. */
  lemma LiveTimersRunOn(en: E.State, ev: E.Event, t: nat)
    requires EngineSafety.Safe(en) && G.Marked(en) && E.Enabled(en, ev) && !ev.BeginResponse? && !ev.BeginExpire?
    requires t < |en.history| && G.Waits(en, t) && t in en.armed
    ensures t in E.Next(en, ev).armed
  {
    match ev {
      case Register(eid, _, _, _, pick, o) => RunKeepsDeadlines(E.Registered(en, ev), eid, pick, o);
      case EndResponse(pick, o) => RunKeepsDeadlines(en, en.context.eid, pick, o);
      case Foreign(k, pick, o) => RunKeepsDeadlines(E.Freed(en, k), k.eid, pick, o);
      case RemoveEntry(k, pick, o) =>
        assert G.Pending(en, k) && en.history[t].key != k;
        RunKeepsDeadlines(E.Removed(en, k), k.eid, pick, o);
      case RetryTick(_) =>
      case EndExpire =>
      case Advance(_) =>
    }
  }

  /** When the current endpoint's request is over, the budget grows by one interval. */
  lemma BudgetGrows(p: Pass, expiry: nat, code: Byte)
    requires p.idx < |p.eids|
    ensures Budget(Noted(p, code), expiry) == Budget(p, expiry) + expiry
    ensures Noted(p, code).idx == |p.eids| ==> Budget(Noted(p, code), expiry) == p.started + |p.eids| * expiry
  {
  }

  lemma CallIsTimely(s: System, e: Event)
    requires Good(s) && Timely(s) && Enabled(s, e) && GoodEvent(s, e) && (e.Response? || e.Expire?)
    ensures Timely(Next(s, e))
  {
    var ev := EngineEvent(s, e).value;
    StepKeepsDeadlines(s.engine, ev);
    CallStep(s.engine, ev);
    var t := if e.Response? then s.engine.handlers[e.key].ticket else e.ticket;
    assert Resumes(s, t);
    var code := if e.Response? then ResultCode(e.reply) else ERR_GENERAL;
    BudgetGrows(s.driver.handle.co.pass.value, s.engine.config.expiry, code);
  }

  lemma AttemptIsTimely(s: System, e: Event)
    requires Good(s) && Timely(s) && Enabled(s, e) && GoodEvent(s, e) && (e.Attempt? || e.AttemptWithoutId?)
    ensures Timely(Next(s, e))
  {
    if e.Attempt? {
      var ev := EngineEvent(s, e).value;
      StepKeepsDeadlines(s.engine, ev);
      AttemptSucceeds(s, e);
      assert |s.engine.history| !in s.engine.armed;
    } else {
      BudgetGrows(Attempted(s.driver).handle.co.pass.value, s.engine.config.expiry, SUCCESS);
    }
  }

  lemma EngineIsTimely(s: System, e: Event)
    requires Good(s) && Timely(s) && Enabled(s, e) && GoodEvent(s, e) && e.Engine? && Punctual(s, e)
    ensures Timely(Next(s, e))
  {
    StepKeepsDeadlines(s.engine, e.event);
    if s.driver.handle.Suspended? {
      if s.driver.handle.ticket in s.engine.armed {
        LiveTimersRunOn(s.engine, e.event, s.driver.handle.ticket);
      } else if e.event.Advance? {
        LiveIsArmed(s);
      }
    }
  }

  lemma StepIsTimely(s: System, e: Event)
    requires Good(s) && Timely(s) && Enabled(s, e) && GoodEvent(s, e) && Punctual(s, e)
    ensures Timely(Next(s, e))
  {
    match e {
      case Attempt(_, _, _) => AttemptIsTimely(s, e);
      case AttemptWithoutId => AttemptIsTimely(s, e);
      case Response(_, _, _) => CallIsTimely(s, e);
      case Expire(_, _) => CallIsTimely(s, e);
      case Engine(_) => EngineIsTimely(s, e);
      case Discovery(found, _) => D.PushedAllFrame(s.driver, InfosOf(found));
      case _ =>
    }
  }

  lemma {:induction false} RunIsTimely(config: E.Config, interval: int, mode: S.Mode, events: seq<Event>)
    requires IsPunctualRun(Started(config, interval, mode), events)
    ensures Timely(After(Started(config, interval, mode), events))
    ensures After(Started(config, interval, mode), events).engine.config == config
    decreases |events|
  {
    if events != [] {
      var before, last := events[..|events|-1], events[|events|-1];
      RunIsTimely(config, interval, mode, before);
      PunctualRunIsGood(Started(config, interval, mode), before);
      RunIsGood(config, interval, mode, before);
      var s := After(Started(config, interval, mode), before);
      StepIsTimely(s, last);
      if EngineEvent(s, last).Some? {
        StepKeepsDeadlines(s.engine, EngineEvent(s, last).value);
      }
    }
  }

  /** In every good run with punctual timers, a pass over n endpoints is not in progress later than n expiry
      intervals after its start, and every finished pass has ended by then. */
  lemma PassTimeBound(config: E.Config, interval: int, mode: S.Mode, events: seq<Event>)
    requires IsPunctualRun(Started(config, interval, mode), events)
    ensures var s := After(Started(config, interval, mode), events);
            && (InPass(s.driver) ==> var p := s.driver.handle.co.pass.value;
                 s.engine.now <= p.started + |p.eids| * config.expiry)
            && (forall q :: q in s.driver.passes ==> q.ended <= q.pass.started + |q.pass.eids| * config.expiry)
  {
    RunIsTimely(config, interval, mode, events);
    PunctualRunIsGood(Started(config, interval, mode), events);
    RunIsGood(config, interval, mode, events);
    var s := After(Started(config, interval, mode), events);
    if InPass(s.driver) {
      BudgetBound(s.driver.handle.co.pass.value, config.expiry);
    }
  }

  lemma BudgetBound(p: Pass, expiry: nat)
    requires p.idx <= |p.eids|
    ensures Budget(p, expiry) <= p.started + |p.eids| * expiry
    ensures p.idx < |p.eids| ==> Budget(p, expiry) + expiry <= p.started + |p.eids| * expiry
  {
    var left := |p.eids| - p.idx;
    assert |p.eids| * expiry == p.idx * expiry + left * expiry;
    if left > 0 {
      assert left * expiry == expiry + (left - 1) * expiry;
    }
  }
}
