/** Exactly which events break the good-run results of the request engine, and exactly which runs keep them. */
module EngineExactly {
  import opened Common
  import opened InstanceIds
  import opened RequestEngine
  import opened EngineSafety
  import opened EngineGoodRuns

  // ---------------------------------------------------------------- one event

  /** The event starts no request, or starts it with success. */
  predicate StartsWell(s: State, pick: Option<Key>, o: Outcome) {
    pick.Some? && pick.value in s.handlers ==> StartRcOf(s, pick.value, o) == 0
  }

  ghost predicate AccountsSurvive(s: State, e: Event)
    requires Enabled(s, e)
  {
    match e
    case Register(_, _, _, _, pick, o) => StartsWell(Registered(s, e), pick, o)
    case EndResponse(pick, o) => StartsWell(s, pick, o)
    case Foreign(k, pick, o) => StartsWell(s, pick, o) && SlotOf(k) !in s.used
    case RemoveEntry(_, pick, o) => StartsWell(s, pick, o)
    case _ => true
  }

  /** From a good state, an event keeps the identifiers equal to those of the table if and only if it starts
      no request that fails and is no foreign response with an identifier in use. */
  lemma AccountingExactly(s: State, e: Event)
    requires Safe(s) && Kept(s) && Enabled(s, e)
    ensures Accounted(Next(s, e)) <==> AccountsSurvive(s, e)
  {
    match e {
      case Register(eid, msgType, command, fd, pick, o) =>
        NextKeyIsFree(s, eid, msgType, command);
        EmplaceIsKept(s, NextKey(s, eid, msgType, command), fd);
        RunAccounts(Registered(s, e), eid, pick, o);
      case EndResponse(pick, o) =>
        RunAccounts(s, s.context.eid, pick, o);
        SameAccounts(RunRegistered(s, pick, o), Next(s, e));
      case Foreign(k, pick, o) => ForeignAccounts(s, k, pick, o);
      case RemoveEntry(k, pick, o) =>
        RemoveIsKept(s, k);
        RunAccounts(Removed(s, k), k.eid, pick, o);
      case BeginResponse(k, reply) => RespondAccounts(s, k, reply);
      case _ => QuietAccounts(s, e);
    }
  }

  lemma RespondAccounts(s: State, k: Key, reply: Reply)
    requires Accounted(s) && k in s.handlers
    ensures Accounted(Responded(s, k, reply))
  {
    assert Responded(s, k, reply).handlers.Keys == s.handlers.Keys - {k};
  }

  lemma QuietAccounts(s: State, e: Event)
    requires Safe(s) && Accounted(s) && Enabled(s, e)
    requires e.RetryTick? || e.BeginExpire? || e.EndExpire? || e.Advance?
    ensures Accounted(Next(s, e))
  {
    SameAccounts(s, Next(s, e));
  }

  lemma SameAccounts(s: State, s': State)
    requires s'.handlers.Keys == s.handlers.Keys && s'.used == s.used
    ensures Accounted(s') <==> Accounted(s)
  {
  }

  lemma ForeignAccounts(s: State, k: Key, pick: Option<Key>, o: Outcome)
    requires Accounted(s) && Picks(Freed(s, k), k.eid, pick)
    ensures Accounted(RunRegistered(Freed(s, k), pick, o)) <==> StartsWell(s, pick, o) && SlotOf(k) !in s.used
  {
    if SlotOf(k) !in s.used {
      assert Freed(s, k) == s;
      RunAccounts(s, k.eid, pick, o);
    } else {
      var l :| l in s.handlers && SlotOf(l) == SlotOf(k);
      var s' := RunRegistered(Freed(s, k), pick, o);
      assert l in s'.handlers && SlotOf(l) !in s'.used;
    }
  }

  lemma RunAccounts(s: State, eid: Byte, pick: Option<Key>, o: Outcome)
    requires Accounted(s) && Picks(s, eid, pick)
    ensures Accounted(RunRegistered(s, pick, o)) <==> StartsWell(s, pick, o)
  {
    var s' := RunRegistered(s, pick, o);
    assert s'.handlers.Keys == s.handlers.Keys;
    if pick.Some? && !StartsWell(s, pick, o) {
      assert SlotOf(pick.value) !in s'.used;
    }
  }

  /** The event answers or expires a request that waits for its removal. */
  predicate CallsPending(s: State, e: Event) {
    (e.BeginResponse? && e.key in s.removal) ||
    (e.BeginExpire? && e.ticket in s.armed && s.armed[e.ticket].key in s.removal)
  }

  /** From a good state, an event keeps every handler called once unless its entry waits if and only if it does
      not answer or expire a request that waits for its removal. */
  lemma CallsExactly(s: State, e: Event)
    requires Safe(s) && Kept(s) && Enabled(s, e)
    ensures AllCalledOnce(Next(s, e)) <==> !CallsPending(s, e)
  {
    if e.BeginResponse? && e.key in s.removal {
      SecondCall(s, e.key, Next(s, e));
    } else if e.BeginExpire? && s.armed[e.ticket].key in s.removal {
      SecondCall(s, s.armed[e.ticket].key, Next(s, e));
    } else {
      OtherStepsKeepCalls(s, e);
    }
  }

  lemma SecondCall(s: State, k: Key, s': State)
    requires Kept(s) && TicketsRecorded(s) && k in s.removal && |s'.history| == |s.history|
    requires k in s.handlers ==> |s'.history[s.handlers[k].ticket].calls| == |s.history[s.handlers[k].ticket].calls| + 1
    ensures !AllCalledOnce(s')
  {
    assert Pending(s, k);
    var t := s.handlers[k].ticket;
    assert CalledOnce(s, t) && s.history[t].key == k;
    assert !CalledOnce(s', t);
  }

  lemma OtherStepsKeepCalls(s: State, e: Event)
    requires Safe(s) && Kept(s) && Enabled(s, e) && !CallsPending(s, e)
    ensures AllCalledOnce(Next(s, e))
  {
    match e {
      case Register(eid, msgType, command, fd, pick, o) =>
        NextKeyIsFree(s, eid, msgType, command);
        EmplaceIsKept(s, NextKey(s, eid, msgType, command), fd);
        RunKeepsCalls(Registered(s, e), pick, o);
      case BeginResponse(k, reply) => RespondIsKept(s, k, reply);
      case EndResponse(pick, o) =>
        RunKeepsCalls(s, pick, o);
        SameCalls(RunRegistered(s, pick, o), Next(s, e));
      case Foreign(k, pick, o) =>
        SameCalls(s, Freed(s, k));
        RunKeepsCalls(Freed(s, k), pick, o);
      case BeginExpire(t) => ExpireIsKept(s, t);
      case RemoveEntry(k, pick, o) =>
        RemoveIsKept(s, k);
        RunKeepsCalls(Removed(s, k), pick, o);
      case _ => SameCalls(s, Next(s, e));
    }
  }

  lemma RunKeepsCalls(s: State, pick: Option<Key>, o: Outcome)
    requires AllCalledOnce(s) && (pick.Some? ==> pick.value in s.handlers)
    ensures AllCalledOnce(RunRegistered(s, pick, o))
  {
    SameCalls(s, RunRegistered(s, pick, o));
  }

  /** Who was called depends on the history and on the tickets and marks of the table alone. */
  lemma SameCalls(s: State, s': State)
    requires AllCalledOnce(s) && s'.history == s.history && s'.handlers.Keys == s.handlers.Keys
    requires forall k :: k in s.handlers ==>
               s'.handlers[k].ticket == s.handlers[k].ticket && s'.handlers[k].done == s.handlers[k].done
    ensures AllCalledOnce(s')
  {
    forall t | 0 <= t < |s'.history|
      ensures CalledOnce(s', t)
    {
      assert CalledOnce(s, t);
    }
  }

  // ---------------------------------------------------------------- whole runs

  /** A pending removal names an entry of the table that has been called back; starts and identifiers play no
      part in this. */
  lemma StepKeepsMarks(s: State, e: Event)
    requires Safe(s) && Kept(s) && Enabled(s, e) && !CallsPending(s, e)
    ensures Marked(Next(s, e))
  {
    match e {
      case Register(eid, msgType, command, fd, pick, o) =>
        NextKeyIsFree(s, eid, msgType, command);
        EmplaceIsKept(s, NextKey(s, eid, msgType, command), fd);
        RunKeepsMarks(Registered(s, e), pick, o);
      case BeginResponse(k, reply) => RespondIsKept(s, k, reply);
      case EndResponse(pick, o) => RunKeepsMarks(s, pick, o);
      case Foreign(k, pick, o) => RunKeepsMarks(Freed(s, k), pick, o);
      case BeginExpire(t) => ExpireIsKept(s, t);
      case RemoveEntry(k, pick, o) =>
        RemoveIsKept(s, k);
        RunKeepsMarks(Removed(s, k), pick, o);
      case _ =>
    }
  }

  lemma RunKeepsMarks(s: State, pick: Option<Key>, o: Outcome)
    requires Marked(s) && (pick.Some? ==> pick.value in s.handlers)
    ensures Marked(RunRegistered(s, pick, o))
  {
  }

  /** From a good state, both results survive the event if and only if it is harmless. */
  ghost predicate Harmless(s: State, e: Event)
    requires Enabled(s, e)
  {
    AccountsSurvive(s, e) && !CallsPending(s, e)
  }

  lemma StepExactly(s: State, e: Event)
    requires Safe(s) && Kept(s) && Enabled(s, e)
    ensures Accounted(Next(s, e)) && AllCalledOnce(Next(s, e)) <==> Harmless(s, e)
    ensures Harmless(s, e) ==> Kept(Next(s, e))
  {
    AccountingExactly(s, e);
    CallsExactly(s, e);
    if Harmless(s, e) {
      StepKeepsMarks(s, e);
    }
  }

  /** The states that a run goes through. */
  ghost function States(config: Config, events: seq<Event>): (states: seq<State>)
    ensures |states| == |events| + 1
  {
    seq(|events| + 1, i requires 0 <= i <= |events| => After(Init(config), events[..i]))
  }

  /** The i-th step leads from one state to the next. */
  ghost predicate Moves(states: seq<State>, events: seq<Event>, i: nat)
    requires i < |events| && |states| == |events| + 1
  {
    Safe(states[i]) && Enabled(states[i], events[i]) && states[i + 1] == Next(states[i], events[i])
  }

  ghost predicate IsBehaviour(states: seq<State>, events: seq<Event>) {
    |states| == |events| + 1 && forall i :: 0 <= i < |events| ==> Moves(states, events, i)
  }

  lemma {:induction false} RunIsBehaviour(config: Config, events: seq<Event>)
    requires IsRun(Init(config), events)
    ensures IsBehaviour(States(config, events), events)
    ensures States(config, events)[0] == Init(config)
    ensures States(config, events)[|events|] == After(Init(config), events)
    decreases |events|
  {
    if events == [] {
    } else {
      var before, last := events[..|events|-1], events[|events|-1];
      RunIsBehaviour(config, before);
      EveryRunIsSafe(config, before);
      StatesExtend(config, before, last);
      assert events == before + [last];
      BehaviourExtends(States(config, before), before, last);
    }
  }

  /** One more event adds one more state. */
  lemma StatesExtend(config: Config, events: seq<Event>, e: Event)
    requires Enabled(After(Init(config), events), e)
    ensures States(config, events + [e]) == States(config, events) + [Next(After(Init(config), events), e)]
  {
    var longer := events + [e];
    assert longer[..|longer|] == longer && longer[..|events|] == events;
    forall i | 0 <= i <= |events|
      ensures States(config, longer)[i] == States(config, events)[i]
    {
      assert longer[..i] == events[..i];
    }
  }

  lemma BehaviourExtends(states: seq<State>, events: seq<Event>, e: Event)
    requires IsBehaviour(states, events) && Safe(states[|events|]) && Enabled(states[|events|], e)
    ensures IsBehaviour(states + [Next(states[|events|], e)], events + [e])
  {
    var more, longer := states + [Next(states[|events|], e)], events + [e];
    forall i | 0 <= i < |longer|
      ensures Moves(more, longer, i)
    {
      assert i < |events| ==> Moves(states, events, i);
    }
  }

  /** The identifiers are those of the table and the handlers called as they should. */
  ghost predicate BooksOk(s: State) {
    Accounted(s) && AllCalledOnce(s)
  }

  ghost predicate HarmlessStep(s: State, e: Event) {
    Enabled(s, e) && Harmless(s, e)
  }

  lemma {:induction false} PrefixesExactly(states: seq<State>, events: seq<Event>, n: nat)
    requires IsBehaviour(states, events) && Kept(states[0]) && n <= |events|
    ensures (forall i :: 0 <= i <= n ==> BooksOk(states[i])) <==>
            (forall i :: 0 <= i < n ==> HarmlessStep(states[i], events[i]))
    ensures (forall i :: 0 <= i <= n ==> BooksOk(states[i])) ==> Kept(states[n])
  {
    if n > 0 {
      PrefixesExactly(states, events, n - 1);
      assert Moves(states, events, n - 1);
      if Kept(states[n - 1]) {
        StepExactly(states[n - 1], events[n - 1]);
        assert BooksOk(states[n]) <==> HarmlessStep(states[n - 1], events[n - 1]);
      }
    }
  }

  /** A run, whatever fails in it, keeps both results in all its states if and only if each of its events is
      harmless: it starts no request that fails, is no foreign response with an identifier in use, and does not
      answer or expire a request that waits for its removal. */
  lemma RunsExactly(config: Config, events: seq<Event>)
    requires IsRun(Init(config), events)
    ensures var states := States(config, events);
            (forall i :: 0 <= i <= |events| ==> BooksOk(states[i])) <==>
            (forall i :: 0 <= i < |events| ==> HarmlessStep(states[i], events[i]))
  {
    RunIsBehaviour(config, events);
    InitIsGood(config);
    PrefixesExactly(States(config, events), events, |events|);
  }

  // ---------------------------------------------------------------- calls at most once, failures included

  /** No handler has been called twice. */
  ghost predicate AtMostOnce(s: State) {
    forall t :: 0 <= t < |s.history| ==> |s.history[t].calls| <= 1
  }

  /** An entry is marked as called back exactly when its handler has been called. */
  ghost predicate DoneMatches(s: State) {
    forall k :: k in s.handlers && s.handlers[k].ticket < |s.history| ==>
      (s.handlers[k].done <==> s.history[s.handlers[k].ticket].calls != [])
  }

  /** The event answers or expires an entry whose handler has been called. */
  predicate CallsAgain(s: State, e: Event) {
    || (e.BeginResponse? && e.key in s.handlers && s.handlers[e.key].done)
    || (e.BeginExpire? && e.ticket in s.armed && s.armed[e.ticket].key in s.handlers
        && s.handlers[s.armed[e.ticket].key].done)
  }

  lemma QuietKeepsMatch(s: State, s': State)
    requires AtMostOnce(s) && DoneMatches(s) && s'.history == s.history
    requires forall k :: k in s'.handlers ==>
               && k in s.handlers && s'.handlers[k].ticket == s.handlers[k].ticket
               && s'.handlers[k].done == s.handlers[k].done
    ensures AtMostOnce(s') && DoneMatches(s')
  {
  }

  lemma RunKeepsMatch(s: State, pick: Option<Key>, o: Outcome)
    requires AtMostOnce(s) && DoneMatches(s) && (pick.Some? ==> pick.value in s.handlers)
    ensures AtMostOnce(RunRegistered(s, pick, o)) && DoneMatches(RunRegistered(s, pick, o))
  {
    QuietKeepsMatch(s, RunRegistered(s, pick, o));
  }

  lemma EmplaceKeepsMatch(s: State, k: Key, fd: int)
    requires TicketsRecorded(s) && AtMostOnce(s) && DoneMatches(s)
    ensures AtMostOnce(Emplace(s, k, fd)) && DoneMatches(Emplace(s, k, fd))
  {
  }

  lemma RespondExactly(s: State, k: Key, reply: Reply)
    requires TicketsRecorded(s) && AtMostOnce(s) && DoneMatches(s) && k in s.handlers
    ensures AtMostOnce(Responded(s, k, reply)) <==> !s.handlers[k].done
    ensures DoneMatches(Responded(s, k, reply))
  {
    var t := s.handlers[k].ticket;
    assert Responded(s, k, reply).history[t].calls == s.history[t].calls + [Answered(k, reply)];
  }

  lemma ExpireExactly(s: State, ticket: nat)
    requires TimersOwned(s) && TicketsRecorded(s) && AtMostOnce(s) && DoneMatches(s) && ticket in s.armed
    ensures AtMostOnce(Expired(s, ticket)) <==> !s.handlers[s.armed[ticket].key].done
    ensures DoneMatches(Expired(s, ticket))
  {
    assert Expired(s, ticket).history[ticket].calls == s.history[ticket].calls + [NoResponse];
  }

  /** From any safe state, whatever has failed before: an event keeps every handler called at most once if and
      only if it does not answer or expire an entry whose handler has been called. */
  lemma AtMostOnceExactly(s: State, e: Event)
    requires Safe(s) && AtMostOnce(s) && DoneMatches(s) && Enabled(s, e)
    ensures AtMostOnce(Next(s, e)) <==> !CallsAgain(s, e)
    ensures DoneMatches(Next(s, e))
  {
    match e {
      case Register(eid, msgType, command, fd, pick, o) =>
        EmplaceKeepsMatch(s, NextKey(s, eid, msgType, command), fd);
        RunKeepsMatch(Registered(s, e), pick, o);
      case BeginResponse(k, reply) => RespondExactly(s, k, reply);
      case EndResponse(pick, o) => RunKeepsMatch(s, pick, o);
      case Foreign(k, pick, o) => RunKeepsMatch(Freed(s, k), pick, o);
      case BeginExpire(ticket) => ExpireExactly(s, ticket);
      case RemoveEntry(k, pick, o) =>
        QuietKeepsMatch(s, Removed(s, k));
        RunKeepsMatch(Removed(s, k), pick, o);
      case _ => QuietStepKeepsMatch(s, e);
    }
  }

  lemma QuietStepKeepsMatch(s: State, e: Event)
    requires AtMostOnce(s) && DoneMatches(s) && Enabled(s, e) && (e.RetryTick? || e.EndExpire? || e.Advance?)
    ensures AtMostOnce(Next(s, e)) && DoneMatches(Next(s, e))
  {
    QuietKeepsMatch(s, Next(s, e));
  }

  lemma StepCallsTwice(s: State, e: Event)
    requires Safe(s) && Enabled(s, e) && (AtMostOnce(s) ==> DoneMatches(s))
    ensures AtMostOnce(Next(s, e)) <==> AtMostOnce(s) && !CallsAgain(s, e)
    ensures AtMostOnce(Next(s, e)) ==> DoneMatches(Next(s, e))
  {
    if AtMostOnce(s) {
      AtMostOnceExactly(s, e);
    } else {
      CallsAreKept(s, e);
    }
  }

  lemma {:induction false} PrefixesCallTwice(states: seq<State>, events: seq<Event>, n: nat)
    requires IsBehaviour(states, events) && AtMostOnce(states[0]) && DoneMatches(states[0]) && n <= |events|
    ensures AtMostOnce(states[n]) <==> (forall i :: 0 <= i < n ==> !CallsAgain(states[i], events[i]))
    ensures AtMostOnce(states[n]) ==> DoneMatches(states[n])
  {
    if n > 0 {
      PrefixesCallTwice(states, events, n - 1);
      assert Moves(states, events, n - 1);
      StepCallsTwice(states[n - 1], events[n - 1]);
    }
  }

  /** A run, with failed sends and foreign responses, calls no handler twice if and only if no event of it
      answers or expires an entry whose handler has been called. */
  lemma CalledTwiceExactly(config: Config, events: seq<Event>)
    requires IsRun(Init(config), events)
    ensures AtMostOnce(After(Init(config), events)) <==>
            (forall i :: 0 <= i < |events| ==> !CallsAgain(States(config, events)[i], events[i]))
  {
    RunIsBehaviour(config, events);
    PrefixesCallTwice(States(config, events), events, |events|);
  }

  /** No call is taken back. */
  lemma CallsAreKept(s: State, e: Event)
    requires Enabled(s, e) && !AtMostOnce(s)
    ensures !AtMostOnce(Next(s, e))
  {
    var t :| 0 <= t < |s.history| && |s.history[t].calls| > 1;
    assert t < |Next(s, e).history| && |Next(s, e).history[t].calls| > 1;
  }

  /** In every run an entry whose handler has been called for its expiry waits for its removal: what is
      neither answered nor expired while its key waits is not called again. */
  lemma {:induction false} CalledBackWaits(config: Config, events: seq<Event>)
    requires IsRun(Init(config), events)
    ensures DonePending(After(Init(config), events))
    decreases |events|
  {
    if events != [] {
      CalledBackWaits(config, events[..|events|-1]);
      StepKeepsWaiting(After(Init(config), events[..|events|-1]), events[|events|-1]);
    }
  }

  ghost predicate DonePending(s: State) {
    forall k :: k in s.handlers && s.handlers[k].done ==> Pending(s, k)
  }

  lemma StepKeepsWaiting(s: State, e: Event)
    requires DonePending(s) && Enabled(s, e)
    ensures DonePending(Next(s, e))
  {
    match e {
      case Register(_, _, _, _, pick, o) => RunKeepsWaiting(Registered(s, e), pick, o);
      case EndResponse(pick, o) => RunKeepsWaiting(s, pick, o);
      case Foreign(k, pick, o) => RunKeepsWaiting(Freed(s, k), pick, o);
      case RemoveEntry(k, pick, o) => RunKeepsWaiting(Removed(s, k), pick, o);
      case _ =>
    }
  }

  lemma RunKeepsWaiting(s: State, pick: Option<Key>, o: Outcome)
    requires DonePending(s) && (pick.Some? ==> pick.value in s.handlers)
    ensures DonePending(RunRegistered(s, pick, o))
  {
  }

  // ---------------------------------------------------------------- what a registration returns

  /** The code of a scan is 0 if and only if nothing is picked or the picked entry's expiry timer runs after it.
      Otherwise it is the code of the failed send, -1 for the retry timer, or 1 for the expiry timer, and the
      entry stays with its identifier free. */
  lemma ScanCode(s: State, eid: Byte, pick: Option<Key>, o: Outcome)
    requires Picks(s, eid, pick)
    ensures var s', rc := RunRegistered(s, pick, o), RunRc(s, pick, o);
            && (rc == 0 <==> pick.None? || Running(s', pick.value))
            && (pick.Some? ==>
                 && pick.value in s'.handlers
                 && (o.sendRc != 0 ==> rc == o.sendRc)
                 && (o.sendRc == 0 && s.handlers[pick.value].request.numRetries > 0 && !o.retryArms ==> rc == -1)
                 && (o.sendRc == 0 && (s.handlers[pick.value].request.numRetries > 0 ==> o.retryArms) ==>
                      rc == if o.expiryArms then 0 else 1)
                 && s'.used == if rc == 0 then s.used else s.used - {SlotOf(pick.value)})
  {
    assert pick.Some? ==> !Running(s, pick.value);
  }

  /** Whatever its code, a scan sends the picked entry once and changes no other. Its retry timer is on after it if
      it was, or if the send succeeded, retries are left and the timer started, even when the expiry timer did not;
      the expiry timer gets the full interval. */
  lemma ScanEffect(s: State, eid: Byte, k: Key, o: Outcome)
    requires Picks(s, eid, Some(k))
    ensures var s' := RunRegistered(s, Some(k), o); var e := s.handlers[k];
            && k.eid == eid && s'.sent == s.sent + [Send(e.ticket, k, e.fd, !e.done)]
            && s'.handlers.Keys == s.handlers.Keys
            && (forall l :: l in s.handlers && l != k ==> s'.handlers[l] == s.handlers[l])
            && s'.handlers[k].ticket == e.ticket && s'.handlers[k].fd == e.fd && s'.handlers[k].done == e.done
            && s'.handlers[k].request.numRetries == e.request.numRetries
            && s'.handlers[k].request.sends == e.request.sends + 1
            && (s'.handlers[k].request.armed <==>
                 e.request.armed || (o.sendRc == 0 && e.request.numRetries > 0 && o.retryArms))
            && s'.armed == (if o.sendRc == 0 && (e.request.numRetries > 0 ==> o.retryArms) && o.expiryArms
                            then s.armed[e.ticket := Expiry(k, s.now + s.config.expiry)] else s.armed)
            && s'.history == s.history && s'.removal == s.removal && s'.context == s.context && s'.now == s.now
  {
  }

  // ---------------------------------------------------------------- what an expiry does

  /** In every run an expiry calls the handler of the entry under the captured key with the empty response, with
      both timers of the entry off, and leaves every other entry, timer and registration alone. */
  lemma ExpiryStopsBoth(config: Config, events: seq<Event>, t: nat)
    requires IsRun(Init(config), events) && Enabled(After(Init(config), events), BeginExpire(t))
    ensures var s := After(Init(config), events); var s' := Next(s, BeginExpire(t)); var k := s.armed[t].key;
            && s.now >= s.armed[t].deadline && t < |s.history| && |s'.history| == |s.history|
            && k in s'.handlers && s'.handlers[k].ticket == t && s'.handlers[k].done
            && !s'.handlers[k].request.armed && s'.armed.Keys == s.armed.Keys - {t}
            && s'.history[t].calls == s.history[t].calls + [NoResponse] && s'.context == Expiring(k)
            && s'.handlers.Keys == s.handlers.Keys && s'.used == s.used && s'.sent == s.sent
            && (forall l :: l in s.handlers && l != k ==> s'.handlers[l] == s.handlers[l])
            && (forall u :: 0 <= u < |s.history| && u != t ==> s'.history[u] == s.history[u])
  {
    EveryRunIsSafe(config, events);
  }

  // ---------------------------------------------------------------- lost handlers

  ghost predicate LostStayLost(s: State) {
    forall t :: 0 <= t < |s.history| && !s.history[t].inserted ==> s.history[t].calls == []
  }

  lemma StepKeepsLost(s: State, e: Event)
    requires Safe(s) && LostStayLost(s) && Enabled(s, e)
    ensures LostStayLost(Next(s, e))
  {
    match e {
      case Register(_, _, _, _, _, _) => assert Next(s, e).history == Registered(s, e).history;
      case BeginResponse(k, _) => assert s.history[s.handlers[k].ticket].inserted;
      case BeginExpire(t) => assert s.history[s.handlers[s.armed[t].key].ticket].inserted;
      case _ => assert Next(s, e).history == s.history;
    }
  }

  /** In every run, a registration that met its key in the table never has its handler called. */
  lemma {:induction false} LostHandlersAreNeverCalled(config: Config, events: seq<Event>)
    requires IsRun(Init(config), events)
    ensures LostStayLost(After(Init(config), events))
    decreases |events|
  {
    if events != [] {
      var before := events[..|events|-1];
      LostHandlersAreNeverCalled(config, before);
      EveryRunIsSafe(config, before);
      StepKeepsLost(After(Init(config), before), events[|events|-1]);
    }
  }

  /** A send that fails frees the identifier but leaves the entry: the next request gets the same key, and its
      handler is lost. */
  lemma FailedSendLosesTheNextHandler(config: Config, eid: Byte, msgType: Byte, command: Byte, fd: int, rc: int)
    requires rc != 0
    ensures var k := Key(eid, 0, msgType, command);
            var events := [Register(eid, msgType, command, fd, Some(k), Outcome(rc, true, true)),
                           Register(eid, msgType, command, fd, Some(k), GOOD_OUTCOME)];
            && IsRun(Init(config), events)
            && After(Init(config), events).history == [Record(k, true, []), Record(k, false, [])]
  {
    var s0 := Init(config);
    var k := Key(eid, 0, msgType, command);
    var e0 := Register(eid, msgType, command, fd, Some(k), Outcome(rc, true, true));
    assert Slot(eid, 0) !in s0.used && NextKey(s0, eid, msgType, command) == k;
    assert k in Candidates(Registered(s0, e0), eid);
    RunExtends(s0, [], e0);
    var s1 := Next(s0, e0);
    assert [] + [e0] == [e0];
    var e1 := Register(eid, msgType, command, fd, Some(k), GOOD_OUTCOME);
    assert s1.used == {} && k in s1.handlers && Slot(eid, 0) !in s1.used;
    assert k in Candidates(Registered(s1, e1), eid);
    RunExtends(s0, [e0], e1);
    assert [e0] + [e1] == [e0, e1];
  }

  /** A request is registered and runs. */
  lemma OneRuns(config: Config, eid: Byte, msgType: Byte, command: Byte, fd: int)
    ensures var k := Key(eid, 0, msgType, command);
            var e := Register(eid, msgType, command, fd, Some(k), GOOD_OUTCOME);
            && Enabled(Init(config), e) && IsRun(Init(config), [e]) && After(Init(config), [e]) == Next(Init(config), e)
            && var s := Next(Init(config), e);
            && s.handlers.Keys == {k} && s.handlers[k].ticket == 0 && s.used == {SlotOf(k)} && s.removal == {}
            && s.armed == map[0 := Expiry(k, config.expiry)] && s.now == 0 && s.context.Idle?
            && s.history == [Record(k, true, [])]
  {
    var s0 := Init(config);
    var k := Key(eid, 0, msgType, command);
    var e := Register(eid, msgType, command, fd, Some(k), GOOD_OUTCOME);
    assert Slot(eid, 0) !in s0.used && NextKey(s0, eid, msgType, command) == k;
    assert k in Candidates(Registered(s0, e), eid);
    RunExtends(s0, [], e);
    assert [] + [e] == [e];
  }

  /** A foreign response with the identifier of an outstanding request frees it: the next request gets the
      same key, and its handler is lost. */
  lemma ForeignResponseLosesTheNextHandler(config: Config, eid: Byte, msgType: Byte, command: Byte, other: Byte,
                                           fd: int)
    requires other != command
    ensures var k := Key(eid, 0, msgType, command);
            var events := [Register(eid, msgType, command, fd, Some(k), GOOD_OUTCOME),
                           Foreign(k.(command := other), None, GOOD_OUTCOME),
                           Register(eid, msgType, command, fd, None, GOOD_OUTCOME)];
            && IsRun(Init(config), events) && SlotOf(k) in After(Init(config), events[..1]).used
            && After(Init(config), events).history == [Record(k, true, []), Record(k, false, [])]
  {
    var s0 := Init(config);
    var k := Key(eid, 0, msgType, command);
    var e0 := Register(eid, msgType, command, fd, Some(k), GOOD_OUTCOME);
    OneRuns(config, eid, msgType, command, fd);
    var s1 := Next(s0, e0);
    var e1 := Foreign(k.(command := other), None, GOOD_OUTCOME);
    assert k in Candidates(Freed(s1, e1.key), eid) && Running(Freed(s1, e1.key), k);
    RunExtends(s0, [e0], e1);
    var s2 := Next(s1, e1);
    assert [e0] + [e1] == [e0, e1];
    var e2 := Register(eid, msgType, command, fd, None, GOOD_OUTCOME);
    assert s2.used == {} && Slot(eid, 0) !in s2.used && NextKey(s2, eid, msgType, command) == k;
    assert k in Candidates(Registered(s2, e2), eid) && Running(Registered(s2, e2), k);
    RunExtends(s0, [e0, e1], e2);
    assert [e0, e1] + [e2] == [e0, e1, e2];
    assert [e0, e1, e2][..1] == [e0];
  }

  /** A response that arrives between the expiry of its request and the removal calls the handler again. */
  lemma LateResponseCallsTwice(config: Config, eid: Byte, msgType: Byte, command: Byte, fd: int, reply: Reply)
    ensures var k := Key(eid, 0, msgType, command);
            var events := [Register(eid, msgType, command, fd, Some(k), GOOD_OUTCOME), Advance(config.expiry),
                           BeginExpire(0), EndExpire, BeginResponse(k, reply)];
            && IsRun(Init(config), events) && After(Init(config), events[..4]).removal == {k}
            && After(Init(config), events).history == [Record(k, true, [NoResponse, Answered(k, reply)])]
  {
    var s0 := Init(config);
    var k := Key(eid, 0, msgType, command);
    var e0 := Register(eid, msgType, command, fd, Some(k), GOOD_OUTCOME);
    var e1 := Advance(config.expiry);
    OneRuns(config, eid, msgType, command, fd);
    var s1 := Next(s0, e0);
    RunExtends(s0, [e0], e1);
    var s2 := s1.(now := config.expiry);
    assert [] + [NoResponse] == [NoResponse];
    assert [e0] + [e1] == [e0, e1];
    RunExtends(s0, [e0, e1], BeginExpire(0));
    assert [e0, e1] + [BeginExpire(0)] == [e0, e1, BeginExpire(0)];
    var s3 := Expired(s2, 0);
    RunExtends(s0, [e0, e1, BeginExpire(0)], EndExpire);
    var run := [e0, e1, BeginExpire(0), EndExpire];
    assert [e0, e1, BeginExpire(0)] + [EndExpire] == run;
    AnswersAgain(s3, k, reply);
    RunExtends(s0, run, BeginResponse(k, reply));
    assert run + [BeginResponse(k, reply)] == [e0, e1, BeginExpire(0), EndExpire, BeginResponse(k, reply)];
    assert [e0, e1, BeginExpire(0), EndExpire, BeginResponse(k, reply)][..4] == run;
  }

  lemma AnswersAgain(s: State, k: Key, reply: Reply)
    requires s.context == Expiring(k) && s.handlers.Keys == {k} && s.handlers[k].ticket == 0 && s.removal == {}
    requires s.history == [Record(k, true, [NoResponse])]
    ensures var s' := Next(s, EndExpire);
            && s'.removal == {k} && Enabled(s', BeginResponse(k, reply))
            && Next(s', BeginResponse(k, reply)).history == [Record(k, true, [NoResponse, Answered(k, reply)])]
  {
    assert [NoResponse] + [Answered(k, reply)] == [NoResponse, Answered(k, reply)];
  }
}
