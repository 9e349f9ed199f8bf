/** The main results on the good runs of the request engine: exactly-once completion, identifier accounting,
    work conservation and draining. */
module EngineTheorems {
  import opened Common
  import opened InstanceIds
  import opened RequestEngine
  import opened EngineSafety
  import opened EngineGoodRuns

  // ---------------------------------------------------------------- good runs

  /** In every state of every good run a registered request's handler has been called once, with a response
      to its own key or with the empty response, unless its entry waits in the table: then not yet. */
  lemma ExactlyOnceCompletion(config: Config, events: seq<Event>)
    requires IsGoodRun(Init(config), events)
    ensures AllCalledOnce(After(Init(config), events))
  {
    InitIsGood(config);
    RunIsGood(Init(config), events);
  }

  /** In every state of every good run the identifiers in use are exactly those of the table, each endpoint
      has at most 32 entries, and the next registration does not meet its key in the table. */
  lemma IdAccounting(config: Config, events: seq<Event>)
    requires IsGoodRun(Init(config), events)
    ensures var s := After(Init(config), events);
            && Accounted(s)
            && (forall eid: Byte :: |Candidates(s, eid)| <= MAX_INSTANCE_IDS)
            && (forall eid: Byte, msgType: Byte, command: Byte :: !Full(s.used, eid) ==>
                 NextKey(s, eid, msgType, command) !in s.handlers)
  {
    InitIsGood(config);
    RunIsGood(Init(config), events);
    var s := After(Init(config), events);
    forall eid: Byte
      ensures |Candidates(s, eid)| <= MAX_INSTANCE_IDS
    {
      AtMost32(Candidates(s, eid), eid, MAX_INSTANCE_IDS);
    }
    forall eid: Byte, msgType: Byte, command: Byte | !Full(s.used, eid)
      ensures NextKey(s, eid, msgType, command) !in s.handlers
    {
      NextKeyIsFree(s, eid, msgType, command);
    }
  }

  /** Keys of one endpoint with distinct identifiers below a bound are no more than the bound. */
  lemma {:induction false} AtMost32(keys: set<Key>, eid: Byte, bound: nat)
    requires forall k :: k in keys ==> k.eid == eid && k.instanceId < bound
    requires forall k, l :: k in keys && l in keys && SlotOf(k) == SlotOf(l) ==> k == l
    ensures |keys| <= bound
  {
    if bound == 0 {
      assert forall k :: k !in keys;
      assert keys == {};
    } else if k :| k in keys && k.instanceId == bound - 1 {
      forall l | l in keys - {k}
        ensures l.instanceId < bound - 1
      {
        assert SlotOf(l) != SlotOf(k);
      }
      AtMost32(keys - {k}, eid, bound - 1);
    } else {
      AtMost32(keys, eid, bound - 1);
    }
  }

  /** In every state of every good run a pending removal names an entry of the table, and between events an
      endpoint with a live request and no pending removal has a running one. */
  lemma WorkConservation(config: Config, events: seq<Event>)
    requires IsGoodRun(Init(config), events)
    ensures var s := After(Init(config), events);
            && s.removal <= s.handlers.Keys
            && (s.context.Idle? ==> forall eid: Byte :: Conserves(s, eid))
  {
    InitIsGood(config);
    RunIsGood(Init(config), events);
    var s := After(Init(config), events);
    forall k | k in s.removal
      ensures k in s.handlers
    {
      assert Pending(s, k);
    }
  }

  // ---------------------------------------------------------------- draining

  /** The event finishes a request of the endpoint: it is answered, or erased after its expiry. */
  predicate Finishes(e: Event, eid: Byte) {
    (e.BeginResponse? || e.RemoveEntry?) && e.key.eid == eid
  }

  ghost function Rounds(events: seq<Event>, eid: Byte): nat
    decreases |events|
  {
    if events == [] then 0
    else Rounds(events[..|events|-1], eid) + if Finishes(events[|events|-1], eid) then 1 else 0
  }

  lemma RunKeepsCandidates(s: State, pick: Option<Key>, o: Outcome, eid: Byte)
    requires pick.Some? ==> pick.value in s.handlers
    ensures Candidates(RunRegistered(s, pick, o), eid) == Candidates(s, eid)
  {
    assert RunRegistered(s, pick, o).handlers.Keys == s.handlers.Keys;
  }

  lemma StepCandidates(s: State, e: Event, eid: Byte)
    requires Enabled(s, e) && !e.Register? && (e.RemoveEntry? ==> e.key in s.handlers)
    ensures Candidates(Next(s, e), eid) == Candidates(s, eid) - if Finishes(e, eid) then {e.key} else {}
    ensures Finishes(e, eid) ==> e.key in Candidates(s, eid)
  {
    match e {
      case BeginResponse(k, _) =>
      case EndResponse(pick, o) => RunKeepsCandidates(s, pick, o, eid);
      case Foreign(k, pick, o) => RunKeepsCandidates(Freed(s, k), pick, o, eid);
      case RemoveEntry(k, pick, o) => RunKeepsCandidates(Removed(s, k), pick, o, eid);
      case RetryTick(_) => assert Next(s, e).handlers.Keys == s.handlers.Keys;
      case BeginExpire(_) => assert Next(s, e).handlers.Keys == s.handlers.Keys;
      case EndExpire =>
      case Advance(_) =>
    }
  }

  lemma {:induction false} RunCounts(s: State, events: seq<Event>, eid: Byte)
    requires Good(s) && IsGoodRun(s, events) && forall e :: e in events ==> !e.Register?
    ensures |Candidates(After(s, events), eid)| + Rounds(events, eid) == |Candidates(s, eid)|
    decreases |events|
  {
    if events != [] {
      var before := events[..|events|-1];
      RunCounts(s, before, eid);
      RunIsGood(s, before);
      var last := events[|events|-1];
      assert last.RemoveEntry? ==> Pending(After(s, before), last.key);
      StepCandidates(After(s, before), last, eid);
    }
  }

  /** Without further registrations, n requests of an endpoint are finished by exactly n rounds, whatever
      entries the scans pick and whatever other endpoints do: then none is left and each handler was called. */
  lemma Drain(s: State, events: seq<Event>, eid: Byte)
    requires Good(s) && IsGoodRun(s, events) && forall e :: e in events ==> !e.Register?
    ensures var s' := After(s, events);
            && Rounds(events, eid) <= |Candidates(s, eid)|
            && (Rounds(events, eid) == |Candidates(s, eid)| <==> Candidates(s', eid) == {})
            && (Candidates(s', eid) == {} ==> forall t ::
                 0 <= t < |s'.history| && s'.history[t].key.eid == eid ==> |s'.history[t].calls| == 1)
  {
    var s' := After(s, events);
    RunCounts(s, events, eid);
    RunIsGood(s, events);
    assert |Candidates(s', eid)| == 0 <==> Candidates(s', eid) == {};
    if Candidates(s', eid) == {} {
      forall t | 0 <= t < |s'.history| && s'.history[t].key.eid == eid
        ensures |s'.history[t].calls| == 1
      {
        assert s'.history[t].key !in Candidates(s', eid);
        assert CalledOnce(s', t);
      }
    }
  }

  /** While requests are left, the next round is in reach: a removal can run, or the expiry of a live request
      can, once enough time has passed, be dispatched. */
  lemma NextRoundIsInReach(s: State, eid: Byte, o: Outcome)
    requires Good(s) && s.context.Idle? && Candidates(s, eid) != {} && Succeeds(o)
    ensures (exists k: Key, pick :: k.eid == eid && Enabled(s, RemoveEntry(k, pick, o)))
         || (exists t, delta :: t in s.armed && s.armed[t].key.eid == eid && Enabled(s, Advance(delta)) &&
                                Enabled(Next(s, Advance(delta)), BeginExpire(t)) &&
                                GoodEvent(Next(s, Advance(delta)), BeginExpire(t)))
  {
    if HasPending(s, eid) {
      var k: Key :| k.eid == eid && Pending(s, k);
      RemovalIsInReach(s, k, o);
    } else {
      var l :| l in Candidates(s, eid);
      assert !Pending(s, l);
      assert HasLive(s, eid) && Conserves(s, eid);
      var k :| k in Candidates(s, eid) && Running(s, k);
      assert !Pending(s, k);
      ExpiryIsInReach(s, k);
    }
  }

  lemma RemovalIsInReach(s: State, k: Key, o: Outcome)
    requires s.context.Idle? && k in s.removal
    ensures exists pick :: Enabled(s, RemoveEntry(k, pick, o))
  {
    var removed := Removed(s, k);
    if Busy(removed, k.eid) || Candidates(removed, k.eid) == {} {
      assert Enabled(s, RemoveEntry(k, None, o));
    } else {
      var l :| l in Candidates(removed, k.eid);
      assert Enabled(s, RemoveEntry(k, Some(l), o));
    }
  }

  lemma ExpiryIsInReach(s: State, k: Key)
    requires Safe(s) && s.context.Idle? && Running(s, k) && k !in s.removal
    ensures exists t, delta :: t in s.armed && s.armed[t].key == k && Enabled(s, Advance(delta)) &&
              Enabled(Next(s, Advance(delta)), BeginExpire(t)) && GoodEvent(Next(s, Advance(delta)), BeginExpire(t))
  {
    var t := s.handlers[k].ticket;
    assert s.history[t].key == k && s.history[t].key == s.armed[t].key;
    var wait := Advance(s.armed[t].deadline);
    assert Enabled(s, wait) && Enabled(Next(s, wait), BeginExpire(t));
  }
}
