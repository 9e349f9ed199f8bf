/** A pass comes to its end: in no state of a punctual good run is it stuck, every move in it brings its end
    nearer, and so it ends within its bound whatever the environment chooses, as long as moves go on. */
module PassProgress {
  import opened Common
  import opened InstanceIds
  import opened EndpointMap
  import opened SyncDriver
  import opened TimeSyncSystem
  import opened SystemTheorems
  import opened PassTiming
  import D = DriverTheorems
  import E = RequestEngine
  import G = EngineGoodRuns
  import S = Sockets
  import Wire

  /** What holds in every state of a punctual good run. */
  ghost predicate Steady(s: System) {
    Good(s) && D.DriverOk(s.driver, s.engine.now) && Timely(s)
  }

  ghost predicate CanStep(s: System, e: Event) {
    Enabled(s, e) && GoodEvent(s, e) && Punctual(s, e)
  }

  /** The event is no news from outside, no retry and no response from elsewhere; if time passes, it does. */
  predicate Productive(e: Event) {
    && !e.TimeChange? && !e.Discovery?
    && (e.Engine? ==> !e.event.RetryTick? && !e.event.Foreign? && (e.event.Advance? ==> e.event.delta > 0))
  }

  ghost predicate Moves(s: System, e: Event) {
    CanStep(s, e) && Productive(e)
  }

  lemma StepKeepsSteady(s: System, e: Event)
    requires Steady(s) && CanStep(s, e)
    ensures Steady(Next(s, e))
  {
    StepIsGood(s, e);
    StepIsTimely(s, e);
  }

  // ---------------------------------------------------------------- how near the end of the pass is

  ghost function EndpointsLeft(s: System): nat {
    if HasCurrent(s.driver) then |s.driver.handle.co.pass.value.eids| - s.driver.handle.co.pass.value.idx else 0
  }

  ghost function StepsBefore(s: System): nat {
    if s.driver.handle.Running? then 2 else if s.engine.context.Idle? then 0 else 1
  }

  /** How long the request to the current endpoint can take, a whole interval if its timer does not run yet. */
  ghost function TimeLeft(s: System): nat {
    if s.driver.handle.Suspended? && s.driver.handle.ticket in s.engine.armed then
      var deadline := s.engine.armed[s.driver.handle.ticket].deadline;
      if deadline > s.engine.now then deadline - s.engine.now else 0
    else s.engine.config.expiry
  }

  /** How long the pass can take. */
  ghost function TimeDue(s: System): nat {
    if EndpointsLeft(s) == 0 then 0 else (EndpointsLeft(s) - 1) * s.engine.config.expiry + TimeLeft(s)
  }

  /** The order is lexicographic: endpoints, whether the coroutine runs or a callback is open, removals, time. */
  ghost predicate Nearer(s': System, s: System) {
    || EndpointsLeft(s') < EndpointsLeft(s)
    || (EndpointsLeft(s') == EndpointsLeft(s)
        && (|| StepsBefore(s') < StepsBefore(s)
            || (StepsBefore(s') == StepsBefore(s)
                && (|| |s'.engine.removal| < |s.engine.removal|
                    || (|s'.engine.removal| == |s.engine.removal| && TimeLeft(s') < TimeLeft(s))))))
  }

  ghost predicate NoFarther(s': System, s: System) {
    || Nearer(s', s)
    || (EndpointsLeft(s') == EndpointsLeft(s) && StepsBefore(s') == StepsBefore(s)
        && |s'.engine.removal| == |s.engine.removal| && TimeLeft(s') == TimeLeft(s))
  }

  /** The same pass goes on, and within the same time. */
  ghost predicate GoesOn(s: System, s': System) {
    && InPass(s.driver) && InPass(s'.driver) && s'.driver.passes == s.driver.passes
    && s'.driver.handle.co.pass.value.eids == s.driver.handle.co.pass.value.eids
    && s'.driver.handle.co.pass.value.started == s.driver.handle.co.pass.value.started
    && s'.engine.config == s.engine.config
    && s'.engine.now + TimeDue(s') <= s.engine.now + TimeDue(s)
  }

  /** The pass of the first state has been finished, within the time that it could take, which is no more than
      one expiry interval for each endpoint of the list, or of what was left of it. */
  ghost predicate PassOver(s: System, s': System) {
    && InPass(s.driver) && |s'.driver.passes| == |s.driver.passes| + 1 && s.driver.passes <= s'.driver.passes
    && var p, q, expiry := s.driver.handle.co.pass.value, s'.driver.passes[|s.driver.passes|], s.engine.config.expiry;
       && q.pass.eids == p.eids && q.pass.started == p.started
       && q.ended <= p.started + |p.eids| * expiry
       && q.ended <= s.engine.now + TimeDue(s) <= s.engine.now + EndpointsLeft(s) * expiry
  }

  // ---------------------------------------------------------------- what every step does

  /** The pass goes on with one endpoint less. */
  lemma NextEndpointNears(s: System, s': System)
    requires EndpointsLeft(s) > 0 && EndpointsLeft(s') == EndpointsLeft(s) - 1
    requires s'.engine.config == s.engine.config && s'.engine.now == s.engine.now
    requires TimeLeft(s') == s.engine.config.expiry
    ensures Nearer(s', s) && s'.engine.now + TimeDue(s') <= s.engine.now + TimeDue(s)
  {
    if EndpointsLeft(s') > 0 {
      var expiry := s.engine.config.expiry;
      assert (EndpointsLeft(s) - 1) * expiry == (EndpointsLeft(s') - 1) * expiry + expiry;
    }
  }

  lemma AttemptNears(s: System, e: Event)
    requires Steady(s) && CanStep(s, e) && e.Attempt?
    ensures GoesOn(s, Next(s, e)) && Nearer(Next(s, e), s)
  {
    AttemptSucceeds(s, e);
    StepKeepsDeadlines(s.engine, EngineEvent(s, e).value);
    assert |s.engine.history| !in s.engine.armed;
    assert EndpointsLeft(Next(s, e)) == EndpointsLeft(s);
  }

  lemma AttemptWithoutIdNears(s: System)
    requires Steady(s) && CanStep(s, AttemptWithoutId)
    ensures GoesOn(s, Next(s, AttemptWithoutId)) && Nearer(Next(s, AttemptWithoutId), s)
  {
    NextEndpointNears(s, Next(s, AttemptWithoutId));
  }

  /** A call of the awaited request's handler takes the pass to its next endpoint. */
  lemma CallTakesEndpoint(s: System, e: Event)
    requires Steady(s) && InPass(s.driver) && CanStep(s, e) && (e.Response? || e.Expire?)
    ensures var d, d' := s.driver, Next(s, e).driver;
            && d'.handle.Running? && InPass(d') && HasCurrent(d) && d'.passes == d.passes
            && d'.handle.co.pass.value.eids == d.handle.co.pass.value.eids
            && d'.handle.co.pass.value.started == d.handle.co.pass.value.started
            && d'.handle.co.pass.value.idx == d.handle.co.pass.value.idx + 1
    ensures Next(s, e).engine.config == s.engine.config && Next(s, e).engine.now == s.engine.now
  {
    CallEndsLive(s, e);
    StepKeepsDeadlines(s.engine, EngineEvent(s, e).value);
  }

  lemma CallNears(s: System, e: Event)
    requires Steady(s) && InPass(s.driver) && CanStep(s, e) && (e.Response? || e.Expire?)
    ensures GoesOn(s, Next(s, e)) && Nearer(Next(s, e), s)
  {
    CallTakesEndpoint(s, e);
    NextEndpointNears(s, Next(s, e));
  }

  lemma DiscoveryStays(s: System, e: Event)
    requires Steady(s) && InPass(s.driver) && CanStep(s, e) && e.Discovery?
    ensures GoesOn(s, Next(s, e)) && NoFarther(Next(s, e), s)
  {
    D.PushedAllFrame(s.driver, InfosOf(e.found));
    assert Next(s, e).driver.handle == s.driver.handle;
  }

  lemma TimeChangeStays(s: System, e: Event)
    requires Steady(s) && InPass(s.driver) && CanStep(s, e) && e.TimeChange?
    ensures GoesOn(s, Next(s, e)) && NoFarther(Next(s, e), s)
  {
    assert Next(s, e).driver == s.driver;
  }

  /** An event of the engine alone that takes no time does not prolong the live request. */
  lemma EngineKeepsTime(s: System, e: Event)
    requires Steady(s) && InPass(s.driver) && CanStep(s, e) && e.Engine? && !e.event.Advance?
    ensures s.driver.handle.Suspended? && TimeLeft(Next(s, e)) <= TimeLeft(s)
  {
    StepKeepsDeadlines(s.engine, e.event);
    var t := s.driver.handle.ticket;
    if t in s.engine.armed {
      LiveTimersRunOn(s.engine, e.event, t);
    }
  }

  lemma EngineStepNears(s: System, e: Event)
    requires Steady(s) && InPass(s.driver) && CanStep(s, e) && e.Engine? && !e.event.Advance?
    ensures GoesOn(s, Next(s, e)) && NoFarther(Next(s, e), s)
    ensures Productive(e) ==> Nearer(Next(s, e), s)
  {
    EngineKeepsTime(s, e);
    StepKeepsDeadlines(s.engine, e.event);
    assert EndpointsLeft(Next(s, e)) == EndpointsLeft(s);
    if e.event.RemoveEntry? {
      assert Next(s, e).engine.removal == s.engine.removal - {e.event.key};
    }
  }

  lemma AdvanceNears(s: System, e: Event)
    requires Steady(s) && InPass(s.driver) && CanStep(s, e) && e.Engine? && e.event.Advance?
    ensures GoesOn(s, Next(s, e)) && NoFarther(Next(s, e), s)
    ensures Productive(e) ==> Nearer(Next(s, e), s)
  {
    LiveIsArmed(s);
    assert EndpointsLeft(Next(s, e)) == EndpointsLeft(s);
  }

  /** Every step of a punctual good run in mid-pass ends the pass or leaves it going on, no farther from its end,
      and nearer to it if the step is a move. */
  lemma EveryStepNears(s: System, e: Event)
    requires Steady(s) && InPass(s.driver) && CanStep(s, e)
    ensures e == EndOfPass || (GoesOn(s, Next(s, e)) && NoFarther(Next(s, e), s))
    ensures e == EndOfPass || (Productive(e) ==> Nearer(Next(s, e), s))
  {
    match e {
      case Attempt(_, _, _) => AttemptNears(s, e);
      case AttemptWithoutId => AttemptWithoutIdNears(s);
      case Response(_, _, _) => CallNears(s, e);
      case Expire(_, _) => CallNears(s, e);
      case TimeChange(_, _) => TimeChangeStays(s, e);
      case Discovery(_, _) => DiscoveryStays(s, e);
      case Engine(event) =>
        if event.Advance? {
          AdvanceNears(s, e);
        } else {
          EngineStepNears(s, e);
        }
      case LoopHead(_) =>
      case EndOfPass =>
    }
  }

  lemma TimeDueBound(s: System)
    requires Steady(s)
    ensures TimeDue(s) <= EndpointsLeft(s) * s.engine.config.expiry
  {
    var n, expiry := EndpointsLeft(s), s.engine.config.expiry;
    if n > 0 {
      assert n * expiry == (n - 1) * expiry + expiry;
    }
  }

  /** The end of a pass that went on from `s` to `at`. */
  lemma EndOfPassIsOver(s: System, at: System)
    requires Steady(s) && Steady(at) && GoesOn(s, at) && CanStep(at, EndOfPass)
    ensures PassOver(s, Next(at, EndOfPass))
  {
    TimeDueBound(s);
    StepKeepsSteady(at, EndOfPass);
    var s' := Next(at, EndOfPass);
    assert s'.driver.passes[|s.driver.passes|] in s'.driver.passes;
  }

  /** What is over later is over, if the pass went on until then. */
  lemma PassOverLater(s: System, at: System, s': System)
    requires Steady(s) && GoesOn(s, at) && PassOver(at, s')
    ensures PassOver(s, s')
  {
    TimeDueBound(s);
  }

  // ---------------------------------------------------------------- a move is always possible

  lemma SomePick(en: E.State, eid: Byte) returns (pick: Option<E.Key>)
    ensures E.Picks(en, eid, pick)
  {
    if E.Busy(en, eid) || E.Candidates(en, eid) == {} {
      pick := None;
    } else {
      var k :| k in E.Candidates(en, eid);
      pick := Some(k);
    }
  }

  lemma SomeHolder(m: InfoMap, eid: Byte) returns (holder: Option<UUID>)
    ensures IsHolder(m, eid, holder)
  {
    if u :| Holds(m, u, eid) {
      holder := Some(u);
    } else {
      holder := None;
    }
  }

  lemma CanAttempt(s: System) returns (e: Event)
    requires Steady(s) && AtAttempt(s.driver)
    ensures Moves(s, e)
  {
    var eid := ThisEid(s.driver);
    if Full(s.engine.used, eid) {
      e := AttemptWithoutId;
    } else {
      var holder := SomeHolder(s.driver.infoMap, eid);
      var fd := S.FdOf(s.sock, eid);
      var ev := E.Register(eid, Wire.NVIDIA_MSG_TYPE, Wire.ADD_EXT_TIMESTAMP, fd, None, E.GOOD_OUTCOME);
      var pick := SomePick(E.Registered(s.engine, ev), eid);
      e := Attempt(pick, E.GOOD_OUTCOME, holder);
      assert E.Registered(s.engine, EngineEvent(s, e).value) == E.Registered(s.engine, ev);
    }
  }

  /** The callback of the engine can return. */
  lemma CanReturn(s: System) returns (e: Event)
    requires Steady(s) && InPass(s.driver) && s.driver.handle.Suspended? && !s.engine.context.Idle?
    ensures Moves(s, e)
  {
    if s.engine.context.Expiring? {
      e := Engine(E.EndExpire);
    } else {
      var pick := SomePick(s.engine, s.engine.context.eid);
      e := Engine(E.EndResponse(pick, E.GOOD_OUTCOME));
    }
  }

  lemma CanRemove(s: System) returns (e: Event)
    requires Steady(s) && InPass(s.driver) && s.driver.handle.Suspended? && s.engine.context.Idle?
    requires s.engine.removal != {}
    ensures Moves(s, e)
  {
    var k :| k in s.engine.removal;
    var pick := SomePick(E.Removed(s.engine, k), k.eid);
    e := Engine(E.RemoveEntry(k, pick, E.GOOD_OUTCOME));
  }

  /** With no removal pending, the only running timer is that of the request that the coroutine waits for. */
  lemma OnlyTimer(s: System)
    requires Good(s) && s.engine.context.Idle? && s.engine.removal == {} && s.driver.handle.Suspended?
    ensures s.engine.armed.Keys == {s.driver.handle.ticket}
  {
    LiveIsArmed(s);
    forall t | t in s.engine.armed
      ensures t == s.driver.handle.ticket
    {
      assert !G.Pending(s.engine, s.engine.armed[t].key);
      assert G.Waits(s.engine, t);
    }
  }

  /** Time can pass until the request expires. */
  lemma CanExpire(s: System) returns (e: Event)
    requires Steady(s) && InPass(s.driver) && s.driver.handle.Suspended? && s.engine.context.Idle?
    requires s.engine.removal == {}
    ensures Moves(s, e)
  {
    OnlyTimer(s);
    var t := s.driver.handle.ticket;
    assert t in s.engine.armed.Keys;
    if s.engine.armed[t].deadline > s.engine.now {
      e := Engine(E.Advance(s.engine.armed[t].deadline - s.engine.now));
      assert forall u :: u in s.engine.armed ==> u in s.engine.armed.Keys;
    } else {
      var p := s.driver.handle.co.pass.value;
      var holder := SomeHolder(s.driver.infoMap, p.eids[p.idx]);
      e := Expire(t, holder);
    }
  }

  lemma PassMoves(s: System) returns (e: Event)
    requires Steady(s) && InPass(s.driver)
    ensures Moves(s, e)
  {
    if s.driver.handle.Running? {
      if AtAttempt(s.driver) {
        e := CanAttempt(s);
      } else {
        e := EndOfPass;
      }
    } else if !s.engine.context.Idle? {
      e := CanReturn(s);
    } else if s.engine.removal != {} {
      e := CanRemove(s);
    } else {
      e := CanExpire(s);
    }
  }

  lemma PunctualRunIsSteady(config: E.Config, interval: int, mode: S.Mode, events: seq<Event>)
    requires IsPunctualRun(Started(config, interval, mode), events)
    ensures Steady(After(Started(config, interval, mode), events))
    ensures After(Started(config, interval, mode), events).engine.config == config
  {
    RunIsTimely(config, interval, mode, events);
    PunctualRunIsGood(Started(config, interval, mode), events);
    RunIsGood(config, interval, mode, events);
  }

  /** In no state of a punctual good run is a pass stuck: some move can be taken. */
  lemma PassIsNeverStuck(config: E.Config, interval: int, mode: S.Mode, events: seq<Event>)
    requires IsPunctualRun(Started(config, interval, mode), events)
    requires InPass(After(Started(config, interval, mode), events).driver)
    ensures exists e :: Moves(After(Started(config, interval, mode), events), e)
  {
    PunctualRunIsSteady(config, interval, mode, events);
    var e := PassMoves(After(Started(config, interval, mode), events));
  }

  // ---------------------------------------------------------------- endless runs

  /** Two sequences without end: the states of a run and its events. */
  ghost predicate StepAt(states: nat -> System, events: nat -> Event, i: nat) {
    CanStep(states(i), events(i)) && states(i + 1) == Next(states(i), events(i))
  }

  ghost predicate IsEndlessRun(states: nat -> System, events: nat -> Event) {
    forall i: nat :: StepAt(states, events, i)
  }

  /** While there is a pass, moves do not cease for ever: other events may come between, any number of them. */
  ghost predicate IsFair(states: nat -> System, events: nat -> Event) {
    forall i: nat :: InPass(states(i).driver) ==> MovesAfter(events, i)
  }

  ghost predicate MovesAfter(events: nat -> Event, i: nat) {
    exists j: nat :: i <= j && Productive(events(j))
  }

  /** The pass in progress at n goes on until step m ends it. */
  ghost predicate EndsAt(states: nat -> System, events: nat -> Event, n: nat, m: nat) {
    n <= m && events(m) == EndOfPass && PassOver(states(n), states(m + 1))
  }

  ghost predicate IsEnded(states: nat -> System, events: nat -> Event, n: nat) {
    exists m :: EndsAt(states, events, n, m)
  }

  /** The pass has gone on, no farther from its end. */
  ghost predicate StillOn(s: System, s': System) {
    Steady(s') && GoesOn(s, s') && NoFarther(s', s)
  }

  lemma GoesOnFurther(s: System, at: System, s': System)
    requires GoesOn(s, at) && GoesOn(at, s')
    ensures GoesOn(s, s')
  {
  }

  lemma NearerStill(s: System, at: System, s': System)
    requires NoFarther(at, s) && NoFarther(s', at)
    ensures NoFarther(s', s) && (Nearer(s', at) ==> Nearer(s', s))
  {
  }

  lemma StillOnStep(s: System, at: System, e: Event)
    requires StillOn(s, at) && CanStep(at, e) && e != EndOfPass
    ensures StillOn(s, Next(at, e)) && (Productive(e) ==> Nearer(Next(at, e), s))
  {
    EveryStepNears(at, e);
    StepKeepsSteady(at, e);
    GoesOnFurther(s, at, Next(at, e));
    NearerStill(s, at, Next(at, e));
  }

  /** A step from a state in which the pass is still on ends it or leaves it on. */
  lemma StillOnOrOver(s: System, at: System, e: Event)
    requires Steady(s) && StillOn(s, at) && CanStep(at, e)
    ensures (e == EndOfPass && PassOver(s, Next(at, e))) || StillOn(s, Next(at, e))
    ensures Productive(e) ==> (e == EndOfPass && PassOver(s, Next(at, e))) || Nearer(Next(at, e), s)
  {
    if e == EndOfPass {
      EndOfPassIsOver(s, at);
    } else {
      StillOnStep(s, at, e);
    }
  }

  lemma CarriedOn(states: nat -> System, events: nat -> Event, n: nat, j: nat)
    requires IsEndlessRun(states, events) && Steady(states(n)) && n <= j && StillOn(states(n), states(j))
    ensures IsEnded(states, events, n) || StillOn(states(n), states(j + 1))
    ensures Productive(events(j)) ==> IsEnded(states, events, n) || Nearer(states(j + 1), states(n))
  {
    assert StepAt(states, events, j);
    StillOnOrOver(states(n), states(j), events(j));
    assert events(j) == EndOfPass && PassOver(states(n), states(j + 1)) ==> EndsAt(states, events, n, j);
  }

  lemma StillOnAtOnce(s: System)
    requires Steady(s) && InPass(s.driver)
    ensures StillOn(s, s)
  {
  }

  /** The pass in progress at n is ended, or has gone on until j. */
  ghost predicate EndedOrOn(states: nat -> System, events: nat -> Event, n: nat, j: nat) {
    IsEnded(states, events, n) || StillOn(states(n), states(j))
  }

  lemma EndedOrOnStep(states: nat -> System, events: nat -> Event, n: nat, j: nat)
    requires IsEndlessRun(states, events) && Steady(states(n)) && n <= j && EndedOrOn(states, events, n, j)
    ensures EndedOrOn(states, events, n, j + 1)
  {
    if !IsEnded(states, events, n) {
      CarriedOn(states, events, n, j);
    }
  }

  lemma EndedOrOnAtOnce(states: nat -> System, events: nat -> Event, n: nat)
    requires Steady(states(n)) && InPass(states(n).driver)
    ensures EndedOrOn(states, events, n, n)
  {
    StillOnAtOnce(states(n));
  }

  predicate StepsTo(p: nat -> bool, i: nat) {
    p(i) ==> p(i + 1)
  }

  lemma {:induction false} Stepwise(p: nat -> bool, n: nat, j: nat)
    requires p(n) && n <= j && forall i: nat :: n <= i ==> StepsTo(p, i)
    ensures p(j)
    decreases j
  {
    if n < j {
      Stepwise(p, n, j - 1);
      assert StepsTo(p, j - 1);
    }
  }

  lemma Carried(states: nat -> System, events: nat -> Event, n: nat, j: nat)
    requires IsEndlessRun(states, events) && Steady(states(n)) && InPass(states(n).driver) && n <= j
    ensures EndedOrOn(states, events, n, j)
  {
    ghost var p := (i: nat) => EndedOrOn(states, events, n, i);
    EndedOrOnAtOnce(states, events, n);
    forall i: nat | n <= i
      ensures StepsTo(p, i)
    {
      if p(i) {
        EndedOrOnStep(states, events, n, i);
      }
    }
    Stepwise(p, n, j);
  }

  /** What ends the pass later ends it. */
  lemma EndedLater(states: nat -> System, events: nat -> Event, n: nat, j: nat)
    requires n <= j && Steady(states(n)) && StillOn(states(n), states(j)) && IsEnded(states, events, j)
    ensures IsEnded(states, events, n)
  {
    var m: nat :| EndsAt(states, events, j, m);
    assert PassOver(states(j), states(m + 1));
    PassOverLater(states(n), states(j), states(m + 1));
    assert EndsAt(states, events, n, m);
  }

  lemma NextMove(states: nat -> System, events: nat -> Event, n: nat) returns (i: nat)
    requires IsFair(states, events) && InPass(states(n).driver)
    ensures n <= i && Productive(events(i))
  {
    assert MovesAfter(events, n);
    i :| n <= i && Productive(events(i));
  }

  /** The pass is ended, or it is still on later and nearer to its end. */
  lemma NearsAgain(states: nat -> System, events: nat -> Event, n: nat) returns (j: nat)
    requires IsEndlessRun(states, events) && IsFair(states, events)
    requires Steady(states(n)) && InPass(states(n).driver)
    ensures IsEnded(states, events, n) || (n < j && StillOn(states(n), states(j)) && Nearer(states(j), states(n)))
  {
    var i := NextMove(states, events, n);
    j := i + 1;
    Carried(states, events, n, i);
    if !IsEnded(states, events, n) {
      CarriedOn(states, events, n, i);
    }
  }

  /** By induction on how near the end is. */
  lemma {:induction false} PassIsEnded(states: nat -> System, events: nat -> Event, n: nat,
                                       left: nat, before: nat, removals: nat, time: nat)
    requires IsEndlessRun(states, events) && IsFair(states, events)
    requires Steady(states(n)) && InPass(states(n).driver)
    requires left == EndpointsLeft(states(n)) && before == StepsBefore(states(n))
    requires removals == |states(n).engine.removal| && time == TimeLeft(states(n))
    ensures IsEnded(states, events, n)
    decreases left, before, removals, time
  {
    var j := NearsAgain(states, events, n);
    if !IsEnded(states, events, n) {
      var s := states(j);
      PassIsEnded(states, events, j, EndpointsLeft(s), StepsBefore(s), |s.engine.removal|, TimeLeft(s));
      EndedLater(states, events, n, j);
    }
  }

  lemma FirstIsSteady(config: E.Config, interval: int, mode: S.Mode)
    ensures Steady(Started(config, interval, mode))
  {
    StartIsGood(config, interval, mode);
  }

  lemma {:induction false} EndlessRunIsSteady(config: E.Config, interval: int, mode: S.Mode,
                                              states: nat -> System, events: nat -> Event, n: nat)
    requires states(0) == Started(config, interval, mode) && IsEndlessRun(states, events)
    ensures Steady(states(n))
  {
    if n == 0 {
      FirstIsSteady(config, interval, mode);
    } else {
      EndlessRunIsSteady(config, interval, mode, states, events, n - 1);
      assert StepAt(states, events, n - 1);
      StepKeepsSteady(states(n - 1), events(n - 1));
    }
  }

  /** In every punctual good run without end, whatever the environment chooses, every pass is finished within its
      bound, as long as moves do not cease while there is a pass. */
  lemma EveryPassEnds(config: E.Config, interval: int, mode: S.Mode,
                      states: nat -> System, events: nat -> Event, n: nat)
    requires states(0) == Started(config, interval, mode) && IsEndlessRun(states, events) && IsFair(states, events)
    requires InPass(states(n).driver)
    ensures exists m :: EndsAt(states, events, n, m)
  {
    EndlessRunIsSteady(config, interval, mode, states, events, n);
    var s := states(n);
    PassIsEnded(states, events, n, EndpointsLeft(s), StepsBefore(s), |s.engine.removal|, TimeLeft(s));
    assert IsEnded(states, events, n);
  }
}
