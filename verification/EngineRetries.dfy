/** The retry bound inside the engine: what the retry logic of one request promises survives the table, the
    scans and the restarts of expired entries (oem/nvidia/handler.hpp, request.hpp). */
module EngineRetries {
  import opened Common
  import opened RequestEngine
  import opened EngineSafety
  import opened EngineGoodRuns
  import R = RetryTimer

  /** How often the request was sent while its handler had not been called. */
  ghost function LiveSends(sent: seq<Send>, t: nat): nat
    decreases |sent|
  {
    if sent == [] then 0 else
    var last := sent[|sent|-1];
    LiveSends(sent[..|sent|-1], t) + if last.live && last.ticket == t then 1 else 0
  }

  lemma LiveSendsAppend(sent: seq<Send>, send: Send, t: nat)
    ensures LiveSends(sent + [send], t) == LiveSends(sent, t) + if send.live && send.ticket == t then 1 else 0
  {
    assert (sent + [send])[..|sent|] == sent;
  }

  ghost predicate TicketsBelow(sent: seq<Send>, bound: nat) {
    forall i :: 0 <= i < |sent| ==> sent[i].ticket < bound
  }

  lemma {:induction false} NoSendsYet(sent: seq<Send>, t: nat)
    requires TicketsBelow(sent, t)
    ensures LiveSends(sent, t) == 0
    decreases |sent|
  {
    if sent != [] {
      NoSendsYet(sent[..|sent|-1], t);
    }
  }

  /** A request that is not running has not been sent; a running one has its sends and retries add up, with its
      retry timer on if it has any, or has used them all and has its retry timer off. */
  predicate RequestOk(r: R.Retry, n: Byte, running: bool) {
    if !running then r == R.Fresh(n)
    else
      && r.sends >= 1
      && (|| (r.sends + r.numRetries == n + 1 && (r.armed <==> n > 0))
          || (r.sends == n + 1 && r.numRetries == 255 && !r.armed))
  }

  ghost predicate Bounded(s: State, t: nat)
    requires t < |s.history|
  {
    && LiveSends(s.sent, t) <= s.config.numRetries + 1
    && (Waits(s, t) ==>
         var e := s.handlers[s.history[t].key];
         LiveSends(s.sent, t) == e.request.sends && RequestOk(e.request, s.config.numRetries, t in s.armed))
  }

  ghost predicate AllBounded(s: State) {
    TicketsBelow(s.sent, |s.history|) && forall t :: 0 <= t < |s.history| ==> Bounded(s, t)
  }

  lemma RunIsBounded(s: State, eid: Byte, pick: Option<Key>, o: Outcome)
    requires Safe(s) && AllBounded(s) && Picks(s, eid, pick) && Succeeds(o)
    ensures AllBounded(RunRegistered(s, pick, o))
  {
    var s' := RunRegistered(s, pick, o);
    forall t | 0 <= t < |s'.history|
      ensures Bounded(s', t)
    {
      assert Bounded(s, t);
      if pick.Some? {
        var e := s.handlers[pick.value];
        LiveSendsAppend(s.sent, Send(e.ticket, pick.value, e.fd, !e.done), t);
        assert !Running(s, pick.value);
      }
    }
  }

  lemma EmplaceIsBounded(s: State, k: Key, fd: int)
    requires Safe(s) && AllBounded(s) && k !in s.handlers
    ensures AllBounded(Emplace(s, k, fd))
  {
    var s' := Emplace(s, k, fd);
    NoSendsYet(s.sent, |s.history|);
    forall t | 0 <= t < |s'.history|
      ensures Bounded(s', t)
    {
      assert t < |s.history| ==> Bounded(s, t);
    }
  }

  lemma TickIsBounded(s: State, k: Key)
    requires Safe(s) && AllBounded(s) && k in s.handlers && s.handlers[k].request.armed
    ensures AllBounded(Ticking(s, k))
  {
    var s' := Ticking(s, k);
    var e := s.handlers[k];
    forall t | 0 <= t < |s'.history|
      ensures Bounded(s', t)
    {
      assert Bounded(s, t);
      LiveSendsAppend(s.sent, Send(e.ticket, k, e.fd, !e.done), t);
    }
  }

  /** Whatever only ends the life of requests, or leaves them alone, keeps the bound. */
  lemma FewerLiveIsBounded(s: State, s': State)
    requires AllBounded(s) && s'.sent == s.sent && s'.config == s.config && |s'.history| == |s.history|
    requires forall t :: 0 <= t < |s.history| ==> s'.history[t].key == s.history[t].key
    requires forall t :: 0 <= t < |s.history| && Waits(s', t) ==>
               && Waits(s, t) && (t in s'.armed <==> t in s.armed)
               && s'.handlers[s.history[t].key].request == s.handlers[s.history[t].key].request
    ensures AllBounded(s')
  {
    forall t | 0 <= t < |s'.history|
      ensures Bounded(s', t)
    {
      assert Bounded(s, t);
    }
  }

  lemma RegisterIsBounded(s: State, e: Event)
    requires Good(s) && AllBounded(s) && Enabled(s, e) && GoodEvent(s, e) && e.Register?
    ensures AllBounded(Next(s, e))
  {
    var k := NextKey(s, e.eid, e.msgType, e.command);
    NextKeyIsFree(s, e.eid, e.msgType, e.command);
    EmplaceIsSafe(s, k, e.fd);
    EmplaceIsBounded(s, k, e.fd);
    RunIsBounded(Registered(s, e), e.eid, e.pick, e.outcome);
  }

  lemma RespondIsBounded(s: State, k: Key, reply: Reply)
    requires Safe(s) && AllBounded(s) && k in s.handlers
    ensures AllBounded(Responded(s, k, reply))
  {
    FewerLiveIsBounded(s, Responded(s, k, reply));
  }

  lemma ExpireIsBounded(s: State, t: nat)
    requires Safe(s) && AllBounded(s) && t in s.armed
    ensures AllBounded(Expired(s, t))
  {
    FewerLiveIsBounded(s, Expired(s, t));
  }

  lemma RemoveIsBounded(s: State, e: Event)
    requires Good(s) && AllBounded(s) && Enabled(s, e) && GoodEvent(s, e) && e.RemoveEntry?
    ensures AllBounded(Next(s, e))
  {
    var k := e.key;
    EraseIsSafe(s, k);
    SameControlIsSafe(Erase(s, k), Removed(s, k));
    assert Pending(s, k);
    FewerLiveIsBounded(s, Removed(s, k));
    RunIsBounded(Removed(s, k), k.eid, e.pick, e.outcome);
  }

  lemma StepIsBounded(s: State, e: Event)
    requires Good(s) && AllBounded(s) && Enabled(s, e) && GoodEvent(s, e)
    ensures AllBounded(Next(s, e)) && Next(s, e).config == s.config
  {
    match e {
      case Register(_, _, _, _, _, _) => RegisterIsBounded(s, e);
      case BeginResponse(k, reply) => RespondIsBounded(s, k, reply);
      case EndResponse(pick, o) =>
        RunIsBounded(s, s.context.eid, pick, o);
        FewerLiveIsBounded(RunRegistered(s, pick, o), Next(s, e));
      case Foreign(k, pick, o) =>
        SameControlIsSafe(s, Freed(s, k));
        FewerLiveIsBounded(s, Freed(s, k));
        RunIsBounded(Freed(s, k), k.eid, pick, o);
      case RetryTick(k) => TickIsBounded(s, k);
      case BeginExpire(t) => ExpireIsBounded(s, t);
      case EndExpire => FewerLiveIsBounded(s, Next(s, e));
      case RemoveEntry(_, _, _) => RemoveIsBounded(s, e);
      case Advance(_) => FewerLiveIsBounded(s, Next(s, e));
    }
  }

  lemma {:induction false} EveryRunIsBounded(config: Config, events: seq<Event>)
    requires IsGoodRun(Init(config), events)
    ensures AllBounded(After(Init(config), events)) && After(Init(config), events).config == config
    decreases |events|
  {
    if events != [] {
      var before := events[..|events|-1];
      EveryRunIsBounded(config, before);
      InitIsGood(config);
      RunIsGood(Init(config), before);
      StepIsBounded(After(Init(config), before), events[|events|-1]);
    }
  }

  /** In every good run no request is sent more than once plus its retries while its handler has not been
      called, whatever restarts of expired entries come between; and as long as a live request runs, its sends
      and the retries it has left add up to that, with its retry timer on if it was given any, or it has used
      them all and the tick that wraps has turned its retry timer off. */
  lemma LiveSendsAreBounded(config: Config, events: seq<Event>, t: nat)
    requires IsGoodRun(Init(config), events) && t < |After(Init(config), events).history|
    ensures var s := After(Init(config), events);
            && LiveSends(s.sent, t) <= config.numRetries + 1
            && (Waits(s, t) && t in s.armed ==>
                 var r := s.handlers[s.history[t].key].request;
                 && LiveSends(s.sent, t) >= 1
                 && (|| (LiveSends(s.sent, t) + r.numRetries == config.numRetries + 1
                         && (r.armed <==> config.numRetries > 0))
                     || (LiveSends(s.sent, t) == config.numRetries + 1 && r.numRetries == 255 && !r.armed)))
            && (Waits(s, t) && t !in s.armed ==> LiveSends(s.sent, t) == 0)
  {
    EveryRunIsBounded(config, events);
    assert Bounded(After(Init(config), events), t);
  }

  // ---------------------------------------------------------------- requests that are over

  /** A retry timer runs only beside an expiry timer. */
  ghost predicate RetriesOnlyRunning(s: State) {
    forall k :: k in s.handlers && s.handlers[k].request.armed ==> Running(s, k)
  }

  lemma RunKeepsRetries(s: State, pick: Option<Key>, o: Outcome)
    requires RetriesOnlyRunning(s) && TicketsRecorded(s) && Succeeds(o) && (pick.Some? ==> pick.value in s.handlers)
    ensures RetriesOnlyRunning(RunRegistered(s, pick, o))
  {
  }

  lemma EraseKeepsRetries(s: State, k: Key)
    requires RetriesOnlyRunning(s) && TicketsRecorded(s)
    ensures RetriesOnlyRunning(Erase(s, k))
  {
    forall l | l in Erase(s, k).handlers && s.handlers[l].request.armed
      ensures Running(Erase(s, k), l)
    {
      assert Running(s, l);
    }
  }

  lemma ExpireKeepsRetries(s: State, t: nat)
    requires RetriesOnlyRunning(s) && TicketsRecorded(s) && TimersOwned(s) && t in s.armed
    ensures RetriesOnlyRunning(Expired(s, t))
  {
    forall l | l in Expired(s, t).handlers && Expired(s, t).handlers[l].request.armed
      ensures Running(Expired(s, t), l)
    {
      assert Running(s, l);
    }
  }

  lemma StepKeepsRetries(s: State, e: Event)
    requires Safe(s) && RetriesOnlyRunning(s) && Enabled(s, e) && GoodEvent(s, e)
    ensures RetriesOnlyRunning(Next(s, e))
  {
    match e {
      case Register(eid, msgType, command, fd, pick, o) =>
        EmplaceIsSafe(s, NextKey(s, eid, msgType, command), fd);
        RunKeepsRetries(Registered(s, e), pick, o);
      case BeginResponse(k, _) => EraseKeepsRetries(s, k);
      case EndResponse(pick, o) => RunKeepsRetries(s, pick, o);
      case Foreign(k, pick, o) => RunKeepsRetries(Freed(s, k), pick, o);
      case BeginExpire(t) => ExpireKeepsRetries(s, t);
      case RemoveEntry(k, pick, o) =>
        EraseIsSafe(s, k);
        EraseKeepsRetries(s, k);
        RunKeepsRetries(Removed(s, k), pick, o);
      case _ => QuietKeepsRetries(s, e);
    }
  }

  lemma QuietKeepsRetries(s: State, e: Event)
    requires RetriesOnlyRunning(s) && Enabled(s, e) && (e.RetryTick? || e.EndExpire? || e.Advance?)
    ensures RetriesOnlyRunning(Next(s, e))
  {
    forall k | k in Next(s, e).handlers && Next(s, e).handlers[k].request.armed
      ensures Running(Next(s, e), k)
    {
      assert Running(s, k);
    }
  }

  lemma {:induction false} RunKeepsRetriesOff(config: Config, events: seq<Event>)
    requires IsGoodRun(Init(config), events)
    ensures Safe(After(Init(config), events)) && RetriesOnlyRunning(After(Init(config), events))
    decreases |events|
  {
    InitIsGood(config);
    RunIsGood(Init(config), events);
    if events != [] {
      RunKeepsRetriesOff(config, events[..|events|-1]);
      StepKeepsRetries(After(Init(config), events[..|events|-1]), events[|events|-1]);
    }
  }

  /** In every good run an entry whose expiry timer does not run, such as one that waits for its removal and has
      not been restarted, has its retry timer off: no retry of it can happen. */
  lemma NoRetryAfterExpiry(config: Config, events: seq<Event>, k: Key)
    requires IsGoodRun(Init(config), events)
    requires k in After(Init(config), events).handlers && !Running(After(Init(config), events), k)
    ensures !After(Init(config), events).handlers[k].request.armed
    ensures !Enabled(After(Init(config), events), RetryTick(k))
  {
    RunKeepsRetriesOff(config, events);
  }
}
