/** What holds in the good runs of the request engine: those in which sends and timer starts succeed, no
    unregistered response carries the identifier of an outstanding request, and a request waiting for its
    removal is neither answered nor expired again. */
module EngineGoodRuns {
  import opened Common
  import opened InstanceIds
  import opened RequestEngine
  import opened EngineSafety

  predicate Succeeds(o: Outcome) {
    o.sendRc == 0 && o.retryArms && o.expiryArms
  }

  ghost predicate GoodEvent(s: State, e: Event) {
    match e
    case Register(_, _, _, _, _, o) => Succeeds(o)
    case BeginResponse(k, _) => k !in s.removal
    case EndResponse(_, o) => Succeeds(o)
    case Foreign(k, _, o) => Succeeds(o) && forall l :: l in s.handlers ==> SlotOf(l) != SlotOf(k)
    case BeginExpire(t) => t in s.armed && s.armed[t].key !in s.removal
    case RemoveEntry(_, _, o) => Succeeds(o)
    case _ => true
  }

  ghost predicate IsGoodRun(s: State, events: seq<Event>)
    decreases |events|
  {
    events == [] ||
    var before := events[..|events|-1];
    var last := events[|events|-1];
    IsGoodRun(s, before) && Enabled(After(s, before), last) && GoodEvent(After(s, before), last)
  }

  // ---------------------------------------------------------------- the invariant

  /** The entry has been called back for its expiry and waits to be erased. */
  predicate Pending(s: State, k: Key) {
    k in s.removal || s.context == Expiring(k)
  }

  /** The registration's entry is in the table and its handler has not been called. */
  predicate Waits(s: State, t: nat)
    requires t < |s.history|
  {
    var k := s.history[t].key;
    k in s.handlers && s.handlers[k].ticket == t && !s.handlers[k].done
  }

  ghost predicate Marked(s: State) {
    && (forall k :: Pending(s, k) ==> k in s.handlers)
    && (forall k :: k in s.handlers ==> (s.handlers[k].done <==> Pending(s, k)))
    && (s.context.Expiring? ==> s.context.key !in s.removal)
  }

  /** The identifiers in use are those of the table entries, and no two entries share one. */
  ghost predicate Accounted(s: State) {
    && s.used == (set k | k in s.handlers :: SlotOf(k))
    && forall k, l :: k in s.handlers && l in s.handlers && SlotOf(k) == SlotOf(l) ==> k == l
  }

  /** A handler is called once or not yet, never for another key, and not yet exactly while it waits. */
  ghost predicate CalledOnce(s: State, t: nat)
    requires t < |s.history|
  {
    var r := s.history[t];
    && r.inserted
    && |r.calls| == (if Waits(s, t) then 0 else 1)
    && forall c :: c in r.calls ==> c == NoResponse || (c.Answered? && c.key == r.key)
  }

  ghost predicate AllCalledOnce(s: State) {
    forall t :: 0 <= t < |s.history| ==> CalledOnce(s, t)
  }

  ghost predicate HasLive(s: State, eid: Byte) {
    exists k :: k in s.handlers && k.eid == eid && !s.handlers[k].done
  }

  ghost predicate HasPending(s: State, eid: Byte) {
    exists k: Key :: k.eid == eid && Pending(s, k)
  }

  /** An endpoint with a live request and no pending removal has a running one. */
  ghost predicate Conserves(s: State, eid: Byte) {
    HasLive(s, eid) && !HasPending(s, eid) ==> Busy(s, eid)
  }

  /** Only while the handler of a response runs may its endpoint be waiting for the scan that follows. */
  ghost predicate WorkConserving(s: State) {
    forall eid: Byte :: s.context == Responding(eid) || Conserves(s, eid)
  }

  ghost predicate Good(s: State) {
    Safe(s) && Marked(s) && Accounted(s) && AllCalledOnce(s) && WorkConserving(s)
  }

  // ---------------------------------------------------------------- preservation

  lemma NextKeyIsFree(s: State, eid: Byte, msgType: Byte, command: Byte)
    requires Accounted(s) && !Full(s.used, eid)
    ensures forall l :: l in s.handlers ==> SlotOf(l) != SlotOf(NextKey(s, eid, msgType, command))
  {
    var k := NextKey(s, eid, msgType, command);
    forall l | l in s.handlers
      ensures SlotOf(l) != SlotOf(k)
    {
      assert SlotOf(l) in s.used;
    }
  }

  /** The books of two states agree: same entries up to their timers, same history, same identifiers. */
  ghost predicate SameBooks(s: State, s': State) {
    && s'.handlers.Keys == s.handlers.Keys
    && (forall k :: k in s.handlers ==>
         s'.handlers[k].ticket == s.handlers[k].ticket && s'.handlers[k].done == s.handlers[k].done)
    && s'.history == s.history && s'.removal == s.removal && s'.context == s.context && s'.used == s.used
  }

  ghost predicate Kept(s: State) {
    Marked(s) && Accounted(s) && AllCalledOnce(s)
  }

  lemma SameBooksAreKept(s: State, s': State)
    requires Kept(s) && SameBooks(s, s')
    ensures Kept(s')
  {
    forall t | 0 <= t < |s'.history|
      ensures CalledOnce(s', t)
    {
      assert CalledOnce(s, t);
    }
  }

  lemma EmplaceIsKept(s: State, k: Key, fd: int)
    requires Safe(s) && Kept(s) && forall l :: l in s.handlers ==> SlotOf(l) != SlotOf(k)
    ensures Kept(Emplace(s, k, fd))
  {
    var s' := Emplace(s, k, fd);
    assert k !in s.handlers;
    forall t | 0 <= t < |s'.history|
      ensures CalledOnce(s', t)
    {
      assert t < |s.history| ==> CalledOnce(s, t);
    }
  }

  /** Answering an entry that is not pending erases it and completes its registration. */
  lemma RespondIsKept(s: State, k: Key, reply: Reply)
    requires Safe(s) && Kept(s) && s.context.Idle? && k in s.handlers && k !in s.removal
    ensures Kept(Responded(s, k, reply))
  {
    var s' := Responded(s, k, reply);
    forall t | 0 <= t < |s'.history|
      ensures CalledOnce(s', t)
    {
      assert CalledOnce(s, t);
    }
  }

  lemma ExpireIsKept(s: State, t: nat)
    requires Safe(s) && Kept(s) && s.context.Idle? && t in s.armed && s.armed[t].key !in s.removal
    ensures Kept(Expired(s, t))
  {
    var s' := Expired(s, t);
    forall u | 0 <= u < |s'.history|
      ensures CalledOnce(s', u)
    {
      assert CalledOnce(s, u);
    }
  }

  lemma RemoveIsKept(s: State, k: Key)
    requires Safe(s) && Kept(s) && s.context.Idle? && k in s.removal
    ensures Kept(Removed(s, k))
  {
    var s' := Removed(s, k);
    forall t | 0 <= t < |s'.history|
      ensures CalledOnce(s', t)
    {
      assert CalledOnce(s, t);
    }
  }

  lemma ContextChangeIsKept(s: State, s': State)
    requires Kept(s) && !s.context.Idle?
    requires s' == if s.context.Responding? then s.(context := Idle)
                   else s.(removal := s.removal + {s.context.key}, context := Idle)
    ensures Kept(s')
  {
    forall t | 0 <= t < |s'.history|
      ensures CalledOnce(s', t)
    {
      assert CalledOnce(s, t);
    }
  }

  lemma RunIsKept(s: State, eid: Byte, pick: Option<Key>, o: Outcome)
    requires Kept(s) && Picks(s, eid, pick) && Succeeds(o)
    ensures Kept(RunRegistered(s, pick, o))
  {
    SameBooksAreKept(s, RunRegistered(s, pick, o));
  }

  lemma FreeIsKept(s: State, k: Key)
    requires Kept(s) && forall l :: l in s.handlers ==> SlotOf(l) != SlotOf(k)
    ensures Kept(Freed(s, k))
  {
    assert Freed(s, k).used == s.used;
    SameBooksAreKept(s, Freed(s, k));
  }

  lemma StepIsKept(s: State, e: Event)
    requires Safe(s) && Kept(s) && Enabled(s, e) && GoodEvent(s, e)
    ensures Kept(Next(s, e))
  {
    match e {
      case Register(eid, msgType, command, fd, pick, o) =>
        NextKeyIsFree(s, eid, msgType, command);
        EmplaceIsKept(s, NextKey(s, eid, msgType, command), fd);
        RunIsKept(Registered(s, e), eid, pick, o);
      case BeginResponse(k, reply) => RespondIsKept(s, k, reply);
      case EndResponse(pick, o) =>
        RunIsKept(s, s.context.eid, pick, o);
        ContextChangeIsKept(RunRegistered(s, pick, o), Next(s, e));
      case Foreign(k, pick, o) =>
        FreeIsKept(s, k);
        RunIsKept(Freed(s, k), k.eid, pick, o);
      case RetryTick(k) => SameBooksAreKept(s, Next(s, e));
      case BeginExpire(t) => ExpireIsKept(s, t);
      case EndExpire => ContextChangeIsKept(s, Next(s, e));
      case RemoveEntry(k, pick, o) =>
        RemoveIsKept(s, k);
        RunIsKept(Removed(s, k), k.eid, pick, o);
      case Advance(_) => SameBooksAreKept(s, Next(s, e));
    }
  }

  // ---------------------------------------------------------------- work conservation

  /** After the scan of an endpoint, that endpoint is served, and the others are as they were. */
  lemma RunConserves(s: State, eid: Byte, pick: Option<Key>, o: Outcome, f: Byte)
    requires Picks(s, eid, pick) && Succeeds(o) && (f == eid || Conserves(s, f))
    ensures Conserves(RunRegistered(s, pick, o), f)
  {
    var s' := RunRegistered(s, pick, o);
    if HasLive(s', f) && !HasPending(s', f) {
      var l :| l in s'.handlers && l.eid == f && !s'.handlers[l].done;
      assert l in Candidates(s, f);
      assert HasLive(s, f);
      forall k: Key | k.eid == f && Pending(s, k)
        ensures Pending(s', k)
      {
      }
      if f == eid && pick.Some? {
        assert pick.value in Candidates(s', f) && Running(s', pick.value);
      } else {
        var k :| k in Candidates(s, f) && Running(s, k);
        assert k in Candidates(s', f) && Running(s', k);
      }
    }
  }

  /** A step that leaves the entries of an endpoint alone keeps it served. */
  lemma SameEndpointConserves(s: State, s': State, f: Byte)
    requires Conserves(s, f)
    requires forall k :: k in Candidates(s', f) <==> k in Candidates(s, f)
    requires forall k :: k in Candidates(s, f) ==> (s'.handlers[k].done <==> s.handlers[k].done)
    requires forall k :: k in Candidates(s, f) && Running(s, k) ==> Running(s', k)
    requires forall k: Key :: k.eid == f && Pending(s, k) ==> Pending(s', k)
    ensures Conserves(s', f)
  {
    if HasLive(s', f) && !HasPending(s', f) {
      var l :| l in s'.handlers && l.eid == f && !s'.handlers[l].done;
      assert l in Candidates(s', f);
      assert l in Candidates(s, f);
      var k :| k in Candidates(s, f) && Running(s, k);
      assert k in Candidates(s', f);
    }
  }

  lemma EmplaceConserves(s: State, k: Key, fd: int, f: Byte)
    requires Safe(s) && k !in s.handlers && f != k.eid && Conserves(s, f)
    ensures Conserves(Emplace(s, k, fd), f)
  {
    SameEndpointConserves(s, Emplace(s, k, fd), f);
  }

  lemma EraseConserves(s: State, k: Key, f: Byte)
    requires Safe(s) && f != k.eid && Conserves(s, f)
    ensures Conserves(Erase(s, k), f)
  {
    SameEndpointConserves(s, Erase(s, k), f);
  }

  lemma RegisterConserves(s: State, e: Event, f: Byte)
    requires Good(s) && Enabled(s, e) && GoodEvent(s, e) && e.Register?
    ensures (s.context == Responding(f) && f != e.eid) || Conserves(Next(s, e), f)
  {
    NextKeyIsFree(s, e.eid, e.msgType, e.command);
    if f == e.eid || Conserves(s, f) {
      if f != e.eid {
        EmplaceConserves(s, NextKey(s, e.eid, e.msgType, e.command), e.fd, f);
      }
      RunConserves(Registered(s, e), e.eid, e.pick, e.outcome, f);
    }
  }

  lemma RemoveConserves(s: State, e: Event, f: Byte)
    requires Good(s) && Enabled(s, e) && GoodEvent(s, e) && e.RemoveEntry?
    ensures Conserves(Next(s, e), f)
  {
    var k := e.key;
    if f != k.eid {
      EraseConserves(s, k, f);
      SameEndpointConserves(Erase(s, k), Removed(s, k), f);
    }
    RunConserves(Removed(s, k), k.eid, e.pick, e.outcome, f);
  }

  lemma RespondConserves(s: State, k: Key, reply: Reply, f: Byte)
    requires Safe(s) && s.context.Idle? && k in s.handlers && f != k.eid && Conserves(s, f)
    ensures Conserves(Responded(s, k, reply), f)
  {
    EraseConserves(s, k, f);
    SameEndpointConserves(Erase(s, k), Responded(s, k, reply), f);
  }

  lemma EndResponseConserves(s: State, pick: Option<Key>, o: Outcome, f: Byte)
    requires WorkConserving(s) && s.context.Responding? && Picks(s, s.context.eid, pick) && Succeeds(o)
    ensures Conserves(RunRegistered(s, pick, o).(context := Idle), f)
  {
    RunConserves(s, s.context.eid, pick, o, f);
    SameEndpointConserves(RunRegistered(s, pick, o), RunRegistered(s, pick, o).(context := Idle), f);
  }

  lemma ForeignConserves(s: State, k: Key, pick: Option<Key>, o: Outcome, f: Byte)
    requires Conserves(s, f) && Picks(Freed(s, k), k.eid, pick) && Succeeds(o)
    ensures Conserves(RunRegistered(Freed(s, k), pick, o), f)
  {
    SameEndpointConserves(s, Freed(s, k), f);
    RunConserves(Freed(s, k), k.eid, pick, o, f);
  }

  lemma ExpireConserves(s: State, t: nat, f: Byte)
    requires Safe(s) && t in s.armed && s.context.Idle? && Conserves(s, f)
    ensures Conserves(Expired(s, t), f)
  {
    var k := s.armed[t].key;
    if f == k.eid {
      assert Pending(Expired(s, t), k);
    } else {
      SameEndpointConserves(s, Expired(s, t), f);
    }
  }

  lemma StepConserves(s: State, e: Event, f: Byte)
    requires Good(s) && Enabled(s, e) && GoodEvent(s, e)
    ensures Next(s, e).context == Responding(f) || Conserves(Next(s, e), f)
  {
    match e {
      case Register(_, _, _, _, _, _) => RegisterConserves(s, e, f);
      case BeginResponse(k, reply) =>
        if f != k.eid {
          RespondConserves(s, k, reply, f);
        }
      case EndResponse(pick, o) => EndResponseConserves(s, pick, o, f);
      case Foreign(k, pick, o) => ForeignConserves(s, k, pick, o, f);
      case BeginExpire(t) => ExpireConserves(s, t, f);
      case RemoveEntry(_, _, _) => RemoveConserves(s, e, f);
      case _ => QuietConserves(s, e, f);
    }
  }

  lemma QuietConserves(s: State, e: Event, f: Byte)
    requires WorkConserving(s) && Enabled(s, e) && (e.RetryTick? || e.EndExpire? || e.Advance?)
    ensures Conserves(Next(s, e), f)
  {
    SameEndpointConserves(s, Next(s, e), f);
  }

  lemma StepIsGood(s: State, e: Event)
    requires Good(s) && Enabled(s, e) && GoodEvent(s, e)
    ensures Good(Next(s, e))
  {
    StepIsSafe(s, e);
    StepIsKept(s, e);
    forall f: Byte
      ensures Next(s, e).context == Responding(f) || Conserves(Next(s, e), f)
    {
      StepConserves(s, e, f);
    }
  }

  lemma {:induction false} RunIsGood(s: State, events: seq<Event>)
    requires Good(s) && IsGoodRun(s, events)
    ensures Good(After(s, events))
    decreases |events|
  {
    if events != [] {
      RunIsGood(s, events[..|events|-1]);
      StepIsGood(After(s, events[..|events|-1]), events[|events|-1]);
    }
  }

  lemma InitIsGood(config: Config)
    ensures Good(Init(config))
  {
  }
}
