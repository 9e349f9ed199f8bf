/** What holds in every state of every run of the request engine, with failed sends and timer starts, foreign
    responses and late responses included. */
module EngineSafety {
  import opened Common
  import opened RequestEngine

  /** Every running expiry timer belongs to the entry under the key that its callback captured. */
  ghost predicate TimersOwned(s: State) {
    forall t :: t in s.armed ==>
      s.armed[t].key in s.handlers && s.handlers[s.armed[t].key].ticket == t
  }

  /** Every entry is the one that its registration put there. */
  ghost predicate TicketsRecorded(s: State) {
    forall k :: k in s.handlers ==>
      && s.handlers[k].ticket < |s.history|
      && s.history[s.handlers[k].ticket].key == k
      && s.history[s.handlers[k].ticket].inserted
  }

  /** No two entries of one endpoint have a running expiry timer. */
  ghost predicate OneRunningPerEndpoint(s: State) {
    forall k, l :: Running(s, k) && Running(s, l) && k.eid == l.eid ==> k == l
  }

  /** Every identifier in use is that of a table entry. */
  ghost predicate NoLeakedIds(s: State) {
    forall slot :: slot in s.used ==> exists k :: k in s.handlers && SlotOf(k) == slot
  }

  ghost predicate Safe(s: State) {
    && TimersOwned(s)
    && TicketsRecorded(s)
    && OneRunningPerEndpoint(s)
    && NoLeakedIds(s)
    && !s.asserted
  }

  lemma StartIsSafe(s: State, k: Key, o: Outcome)
    requires Safe(s) && k in s.handlers && !Busy(s, k.eid)
    ensures Safe(StartEntry(s, k, o))
  {
    var s' := StartEntry(s, k, o);
    StartKeepsTickets(s, k, o);
    StartKeepsTimers(s, k, o);
    forall l, m | Running(s', l) && Running(s', m) && l.eid == m.eid
      ensures l == m
    {
      assert l in Candidates(s, l.eid) && m in Candidates(s, m.eid);
    }
    SameKeysLeakNothing(s, s');
  }

  lemma StartKeepsTickets(s: State, k: Key, o: Outcome)
    requires TicketsRecorded(s) && k in s.handlers
    ensures TicketsRecorded(StartEntry(s, k, o))
  {
  }

  lemma StartKeepsTimers(s: State, k: Key, o: Outcome)
    requires TimersOwned(s) && TicketsRecorded(s) && k in s.handlers
    ensures var s' := StartEntry(s, k, o);
            TimersOwned(s') && forall l :: l != k ==> (Running(s', l) <==> Running(s, l))
  {
  }

  lemma SameKeysLeakNothing(s: State, s': State)
    requires NoLeakedIds(s) && s'.used <= s.used && s.handlers.Keys <= s'.handlers.Keys
    ensures NoLeakedIds(s')
  {
    forall slot | slot in s'.used
      ensures exists k :: k in s'.handlers && SlotOf(k) == slot
    {
      var k :| k in s.handlers && SlotOf(k) == slot;
      assert k in s'.handlers;
    }
  }

  lemma ScanIsSafe(s: State, eid: Byte, pick: Option<Key>, o: Outcome)
    requires Safe(s) && Picks(s, eid, pick)
    ensures Safe(RunRegistered(s, pick, o))
  {
    if pick.Some? {
      StartIsSafe(s, pick.value, o);
    }
  }

  lemma EmplaceIsSafe(s: State, k: Key, fd: int)
    requires Safe(s)
    ensures Safe(Emplace(s, k, fd))
  {
    var s' := Emplace(s, k, fd);
    EmplaceKeepsTimers(s, k, fd);
    assert OneRunningPerEndpoint(s');
    SameKeysLeakNothing(s, s'.(used := s.used));
    assert k in s'.handlers;
  }

  lemma EmplaceKeepsTimers(s: State, k: Key, fd: int)
    requires TimersOwned(s) && TicketsRecorded(s)
    ensures var s' := Emplace(s, k, fd);
            TimersOwned(s') && TicketsRecorded(s') && forall l :: Running(s', l) ==> Running(s, l)
  {
  }

  lemma EraseIsSafe(s: State, k: Key)
    requires Safe(s)
    ensures Safe(Erase(s, k))
  {
    var s' := Erase(s, k);
    assert forall l :: Running(s', l) ==> Running(s, l);
    forall slot | slot in s'.used
      ensures exists l :: l in s'.handlers && SlotOf(l) == slot
    {
      var l :| l in s.handlers && SlotOf(l) == slot;
      assert l in s'.handlers;
    }
  }

  lemma ExpireIsSafe(s: State, ticket: nat)
    requires Safe(s) && ticket in s.armed
    ensures Safe(Expired(s, ticket))
  {
    var s' := Expired(s, ticket);
    ExpireKeepsTimers(s, ticket);
    assert OneRunningPerEndpoint(s');
    SameKeysLeakNothing(s, s');
  }

  lemma ExpireKeepsTimers(s: State, ticket: nat)
    requires TimersOwned(s) && TicketsRecorded(s) && ticket in s.armed
    ensures var s' := Expired(s, ticket);
            && s'.handlers.Keys == s.handlers.Keys && s'.asserted == s.asserted
            && TimersOwned(s') && TicketsRecorded(s') && forall l :: Running(s', l) ==> Running(s, l)
  {
  }

  lemma CallIsSafe(s: State, ticket: nat, call: Call)
    requires Safe(s)
    ensures forall context :: Safe(CallHandler(s, ticket, call).(context := context))
  {
    forall context
      ensures Safe(CallHandler(s, ticket, call).(context := context))
    {
      SameControlIsSafe(s, CallHandler(s, ticket, call).(context := context));
    }
  }

  lemma StepIsSafe(s: State, e: Event)
    requires Safe(s) && Enabled(s, e)
    ensures Safe(Next(s, e))
  {
    match e {
      case Register(eid, _, _, fd, pick, o) =>
        EmplaceIsSafe(s, NextKey(s, eid, e.msgType, e.command), fd);
        ScanIsSafe(Registered(s, e), eid, pick, o);
      case BeginResponse(k, _) =>
        EraseIsSafe(s, k);
        CallIsSafe(Erase(s, k), s.handlers[k].ticket, Answered(k, e.reply));
      case EndResponse(pick, o) =>
        ScanIsSafe(s, s.context.eid, pick, o);
        SameControlIsSafe(RunRegistered(s, pick, o), Next(s, e));
      case Foreign(k, pick, o) =>
        SameControlIsSafe(s, Freed(s, k));
        ScanIsSafe(Freed(s, k), k.eid, pick, o);
      case RetryTick(k) =>
        SameControlIsSafe(s, Next(s, e));
      case BeginExpire(t) =>
        ExpireIsSafe(s, t);
      case EndExpire =>
        SameControlIsSafe(s, Next(s, e));
      case RemoveEntry(k, pick, o) =>
        EraseIsSafe(s, k);
        SameControlIsSafe(Erase(s, k), Removed(s, k));
        ScanIsSafe(Removed(s, k), k.eid, pick, o);
      case Advance(_) =>
        SameControlIsSafe(s, Next(s, e));
    }
  }

  /** Safety looks only at the tickets and keys of the table, the running timers and the identifiers. */
  lemma SameControlIsSafe(s: State, s': State)
    requires Safe(s)
    requires s'.handlers.Keys == s.handlers.Keys && s'.used <= s.used && s'.armed == s.armed
    requires forall k :: k in s.handlers ==> s'.handlers[k].ticket == s.handlers[k].ticket
    requires |s'.history| == |s.history| && s'.asserted == s.asserted
    requires forall t :: 0 <= t < |s.history| ==>
               s'.history[t].key == s.history[t].key && s'.history[t].inserted == s.history[t].inserted
    ensures Safe(s')
  {
    assert forall k :: Running(s', k) ==> Running(s, k);
    SameKeysLeakNothing(s, s');
  }

  lemma {:induction false} RunStaysSafe(s: State, events: seq<Event>)
    requires Safe(s) && IsRun(s, events)
    ensures Safe(After(s, events))
    decreases |events|
  {
    if events != [] {
      RunStaysSafe(s, events[..|events|-1]);
      StepIsSafe(After(s, events[..|events|-1]), events[|events|-1]);
    }
  }

  /** In every state of every run, re-entry points included: at most one entry of an endpoint has a running
      expiry timer, no identifier is leaked, every running timer is owned by the entry under the captured
      key, and the branch of the expiry callback that asserts false has not been reached. */
  lemma EveryRunIsSafe(config: Config, events: seq<Event>)
    requires IsRun(Init(config), events)
    ensures Safe(After(Init(config), events))
  {
    RunStaysSafe(Init(config), events);
  }
}
