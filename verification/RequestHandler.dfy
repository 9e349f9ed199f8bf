/** The request handler as the object that the event loop calls (oem/nvidia/handler.hpp).

    Every method is proved to take the machine of `RequestEngine` along one of its runs, so the results on
    those runs hold of the object. What a response handler does when it is called is a parameter: the
    requests that it sends before it returns. */
module RequestHandler {
  import opened Common
  import opened InstanceIds
  import opened RequestEngine
  import opened EngineSafety
  import RetryTimer
  import Sockets

  /** A request that a client sends to an endpoint, and what the environment answers. */
  datatype Request = Request(eid: Byte, msgType: Byte, command: Byte, outcome: Outcome)

  /** The event is the registration of this request. */
  predicate IsRegistrationOf(e: Event, r: Request) {
    e.Register? && e.eid == r.eid && e.msgType == r.msgType && e.command == r.command && e.outcome == r.outcome
  }

  /** From position `from` on, the trace registers these requests one after the other, leaving out one whose
      endpoint has no free identifier when its turn comes. */
  ghost predicate Serves(s: State, from: nat, requests: seq<Request>, trace: seq<Event>)
    decreases |requests|
  {
    if requests == [] then |trace| == from else
    var n := |requests| - 1;
    || (Full(After(s, trace).used, requests[n].eid) && Serves(s, from, requests[..n], trace))
    || (|trace| > from && IsRegistrationOf(trace[|trace|-1], requests[n])
        && Serves(s, from, requests[..n], trace[..|trace|-1]))
  }

  /** The trace is an event with the call of a response handler, what the handler does, and the rest. */
  ghost predicate IsCallOf(s: State, first: Event, requests: seq<Request>, trace: seq<Event>) {
    |trace| >= 2 && trace[0] == first && Serves(s, 1, requests, trace[..|trace|-1])
  }

  class Handler {
    const config: Config
    const instanceIdMgr: InstanceIdMgr
    const sockManager: Sockets.SocketManager
    var handlers: map<Key, Entry>
    var removeRequestContainer: set<Key>
    var armed: map<nat, Expiry>
    var now: nat
    var nextTicket: nat
    ghost var history: seq<Record>
    ghost var sent: seq<Send>
    ghost var context: Context
    ghost var asserted: bool

    ghost predicate Valid()
      reads this, instanceIdMgr, instanceIdMgr.ids.Values, sockManager
    {
      instanceIdMgr.Valid() && nextTicket == |history|
    }

    ghost function Value(): State
      requires Valid()
      reads this, instanceIdMgr, instanceIdMgr.ids.Values, sockManager
    {
      State(config, handlers, removeRequestContainer, instanceIdMgr.Used(), armed, history, sent, now, context,
            asserted)
    }

    constructor (config: Config, instanceIdMgr: InstanceIdMgr, sockManager: Sockets.SocketManager)
      requires instanceIdMgr.Valid() && instanceIdMgr.Used() == {}
      ensures this.instanceIdMgr == instanceIdMgr && this.sockManager == sockManager
      ensures Valid() && Value() == Init(config)
    {
      this.config := config;
      this.instanceIdMgr, this.sockManager := instanceIdMgr, sockManager;
      handlers, removeRequestContainer, armed, now, nextTicket := map[], {}, map[], 0, 0;
      history, sent, context, asserted := [], [], Idle, false;
    }

    /** Scans the table in an order of its own and starts the entry it finds, if any. */
    method RunRegisteredRequest(eid: Byte, o: Outcome) returns (rc: int, ghost pick: Option<Key>)
      requires Valid()
      modifies this, instanceIdMgr, instanceIdMgr.ids.Values
      ensures Valid() && fresh(instanceIdMgr.ids.Values - old(instanceIdMgr.ids.Values))
      ensures Picks(old(Value()), eid, pick)
      ensures Value() == RunRegistered(old(Value()), pick, o)
      ensures rc == RunRc(old(Value()), pick, o)
    {
      var toRun: Option<Key> := None;
      var todo := handlers.Keys;
      while todo != {}
        invariant todo <= handlers.Keys
        invariant toRun.Some? ==> toRun.value in Candidates(Value(), eid)
        invariant forall k :: k in handlers && k !in todo && k.eid == eid ==> toRun.Some? && !Running(Value(), k)
        decreases todo
      {
        var k :| k in todo;
        todo := todo - {k};
        if k.eid != eid {
          continue;
        }
        if handlers[k].ticket in armed {
          assert Running(Value(), k);
          return 0, None;
        }
        if toRun.None? {
          toRun := Some(k);
        }
      }
      pick := toRun;
      assert !Busy(Value(), eid);
      if toRun.None? {
        assert Candidates(Value(), eid) == {};
        return 0, pick;
      }
      rc := StartRequest(toRun.value, o);
    }

    /** Sends the request of an entry and starts its timers; on failure its identifier is freed. */
    method StartRequest(k: Key, o: Outcome) returns (rc: int)
      requires Valid() && k in handlers
      modifies this, instanceIdMgr, instanceIdMgr.ids.Values
      ensures Valid() && fresh(instanceIdMgr.ids.Values - old(instanceIdMgr.ids.Values))
      ensures Value() == StartEntry(old(Value()), k, o)
      ensures rc == StartRcOf(old(Value()), k, o)
    {
      var e := handlers[k];
      rc := RetryTimer.StartRc(e.request, o.sendRc, o.retryArms);
      handlers := handlers[k := e.(request := RetryTimer.Started(e.request, o.sendRc, o.retryArms))];
      sent := sent + [Send(e.ticket, k, e.fd, !e.done)];
      if rc != 0 {
        instanceIdMgr.MarkFree(k.eid, k.instanceId);
        return;
      }
      if !o.expiryArms {
        instanceIdMgr.MarkFree(k.eid, k.instanceId);
        return ERR_GENERAL;
      }
      armed := armed[e.ticket := Expiry(k, now + config.expiry)];
    }

    /** Puts the request into the table, unless its key is there already, and runs the endpoint's next one. */
    method RegisterRequest(k: Key, o: Outcome) returns (rc: int, ghost pick: Option<Key>, ghost fd: int)
      requires Valid()
      modifies this, sockManager, instanceIdMgr, instanceIdMgr.ids.Values
      ensures Valid() && fresh(instanceIdMgr.ids.Values - old(instanceIdMgr.ids.Values))
      ensures fd == old(if k.eid in sockManager.eidToFd then sockManager.eidToFd[k.eid] else 0)
      ensures Picks(Put(old(Value()), k, fd), k.eid, pick)
      ensures Value() == RunRegistered(Put(old(Value()), k, fd), pick, o)
      ensures rc == RunRc(Put(old(Value()), k, fd), pick, o)
    {
      var socket := sockManager.GetSocket(k.eid);
      fd := socket;
      PutRequest(k, socket);
      rc, pick := RunRegisteredRequest(k.eid, o);
    }

    method PutRequest(k: Key, fd: int)
      requires Valid()
      modifies this`handlers, this`history, this`nextTicket
      ensures Valid() && Value() == Put(old(Value()), k, fd)
    {
      history := history + [Record(k, k !in handlers, [])];
      if k !in handlers {
        handlers := handlers[k := Entry(nextTicket, fd, RetryTimer.Fresh(config.numRetries), false)];
      }
      nextTicket := nextTicket + 1;
    }

    /** Takes an identifier for the request and registers it; None stands for the exception when all are taken. */
    method SendRequest(r: Request) returns (rc: Option<int>, ghost trace: seq<Event>)
      requires Valid()
      modifies this, sockManager, instanceIdMgr, instanceIdMgr.ids.Values
      ensures Valid() && fresh(instanceIdMgr.ids.Values - old(instanceIdMgr.ids.Values))
      ensures rc.None? <==> Full(old(Value()).used, r.eid)
      ensures rc.None? ==> trace == [] && Value() == old(Value())
      ensures rc.Some? ==> |trace| == 1 && IsRegistrationOf(trace[0], r) && Enabled(old(Value()), trace[0])
                           && Value() == Next(old(Value()), trace[0])
    {
      var id := instanceIdMgr.GetInstanceId(r.eid);
      if id.None? {
        return None, [];
      }
      var k := Key(r.eid, id.value, r.msgType, r.command);
      ghost var before := Value();
      var code, pick, fd := RegisterRequest(k, r.outcome);
      ghost var e := Register(r.eid, r.msgType, r.command, fd, pick, r.outcome);
      assert Put(before, k, fd) == RequestEngine.Registered(old(Value()), e);
      return Some(code), [e];
    }

    /** A response handler that sends these requests while it runs. `first` leads here from `s0`. */
    method CallBack(requests: seq<Request>, ghost s0: State, ghost first: seq<Event>) returns (ghost trace: seq<Event>)
      requires Valid() && IsRun(s0, first) && After(s0, first) == Value()
      modifies this, sockManager, instanceIdMgr, instanceIdMgr.ids.Values
      ensures Valid() && fresh(instanceIdMgr.ids.Values - old(instanceIdMgr.ids.Values))
      ensures IsRun(s0, trace) && After(s0, trace) == Value()
      ensures context == old(context) && first <= trace && Serves(s0, |first|, requests, trace)
      decreases |requests|
    {
      if requests == [] {
        return first;
      }
      trace := CallBack(requests[..|requests| - 1], s0, first);
      trace := CallBackLast(requests, s0, |first|, trace);
    }

    /** The response handler sends the last of its requests. */
    method CallBackLast(requests: seq<Request>, ghost s0: State, ghost from: nat, ghost before: seq<Event>)
      returns (ghost trace: seq<Event>)
      requires Valid() && IsRun(s0, before) && After(s0, before) == Value()
      requires requests != [] && from <= |before| && Serves(s0, from, requests[..|requests| - 1], before)
      modifies this, sockManager, instanceIdMgr, instanceIdMgr.ids.Values
      ensures Valid() && fresh(instanceIdMgr.ids.Values - old(instanceIdMgr.ids.Values))
      ensures IsRun(s0, trace) && After(s0, trace) == Value()
      ensures context == old(context) && before <= trace && Serves(s0, from, requests, trace)
    {
      ghost var at := Value();
      var rc, step := SendRequest(requests[|requests| - 1]);
      trace := before;
      if rc.Some? {
        trace := Extended(s0, from, requests, before, at, step[0]);
      }
    }

    /** Stops the timers of a request; the object of a request that is erased is destroyed with its timers. */
    method StopTimers(k: Key)
      requires k in handlers
      modifies this`handlers, this`armed
      ensures handlers == old(handlers)[k := old(handlers)[k].(request := RetryTimer.Stopped(old(handlers)[k].request))]
      ensures armed == old(armed) - {old(handlers)[k].ticket}
    {
      var e := handlers[k];
      handlers := handlers[k := e.(request := RetryTimer.Stopped(e.request))];
      armed := armed - {e.ticket};
    }

    /** Frees the identifier and erases the entry, which destroys its timers. */
    method EraseEntry(k: Key)
      requires Valid()
      modifies this`handlers, this`armed, instanceIdMgr, instanceIdMgr.ids.Values
      ensures Valid() && fresh(instanceIdMgr.ids.Values - old(instanceIdMgr.ids.Values))
      ensures Value() == Erase(old(Value()), k)
    {
      instanceIdMgr.MarkFree(k.eid, k.instanceId);
      if k in handlers {
        armed := armed - {handlers[k].ticket};
        handlers := handlers - {k};
      }
    }

    /** A response with this key has been received. The entry is erased before its handler is called. */
    method HandleResponse(k: Key, reply: Reply, requests: seq<Request>, o: Outcome) returns (ghost trace: seq<Event>)
      requires Valid() && context.Idle?
      modifies this, sockManager, instanceIdMgr, instanceIdMgr.ids.Values
      ensures Valid() && context.Idle?
      ensures IsRun(old(Value()), trace) && After(old(Value()), trace) == Value()
      ensures k in old(handlers) ==>
                && IsCallOf(old(Value()), BeginResponse(k, reply), requests, trace)
                && trace[|trace|-1].EndResponse? && trace[|trace|-1].outcome == o
      ensures k !in old(handlers) ==> |trace| == 1 && trace[0].Foreign? && trace[0].key == k && trace[0].outcome == o
    {
      if k in handlers {
        trace := Answer(k, reply, requests, o);
      } else {
        trace := Ignore(k, o);
      }
    }

    method Answer(k: Key, reply: Reply, requests: seq<Request>, o: Outcome) returns (ghost trace: seq<Event>)
      requires Valid() && context.Idle? && k in handlers
      modifies this, sockManager, instanceIdMgr, instanceIdMgr.ids.Values
      ensures Valid() && context.Idle?
      ensures IsRun(old(Value()), trace) && After(old(Value()), trace) == Value()
      ensures IsCallOf(old(Value()), BeginResponse(k, reply), requests, trace)
      ensures trace[|trace|-1].EndResponse? && trace[|trace|-1].outcome == o
    {
      ghost var s0 := Value();
      BeginAnswer(k, reply);
      OneEvent(s0, BeginResponse(k, reply));
      trace := CallBack(requests, s0, [BeginResponse(k, reply)]);
      ghost var pick := EndAnswer(k.eid, o);
      RunExtends(s0, trace, EndResponse(pick, o));
      trace := trace + [EndResponse(pick, o)];
    }

    method Retire(k: Key)
      requires Valid() && k in handlers
      modifies this`handlers, this`armed, instanceIdMgr, instanceIdMgr.ids.Values
      ensures Valid() && fresh(instanceIdMgr.ids.Values - old(instanceIdMgr.ids.Values))
      ensures Value() == Erase(old(Value()), k)
    {
      StopTimers(k);
      EraseEntry(k);
      assert handlers == old(handlers) - {k};
      assert armed == old(armed) - {old(handlers)[k].ticket};
    }

    method BeginAnswer(k: Key, reply: Reply)
      requires Valid() && context.Idle? && k in handlers
      modifies this, instanceIdMgr, instanceIdMgr.ids.Values
      ensures Valid() && fresh(instanceIdMgr.ids.Values - old(instanceIdMgr.ids.Values))
      ensures Value() == Responded(old(Value()), k, reply)
    {
      var ticket := handlers[k].ticket;
      Retire(k);
      NoteCall(ticket, Answered(k, reply), Responding(k.eid));
    }

    method EndAnswer(eid: Byte, o: Outcome) returns (ghost pick: Option<Key>)
      requires Valid() && context == Responding(eid)
      modifies this, instanceIdMgr, instanceIdMgr.ids.Values
      ensures Valid() && fresh(instanceIdMgr.ids.Values - old(instanceIdMgr.ids.Values))
      ensures Enabled(old(Value()), EndResponse(pick, o))
      ensures Value() == Next(old(Value()), EndResponse(pick, o))
    {
      var rc;
      rc, pick := RunRegisteredRequest(eid, o);
      context := Idle;
    }

    /** The response of a request that is not registered here. */
    method Ignore(k: Key, o: Outcome) returns (ghost trace: seq<Event>)
      requires Valid() && context.Idle? && k !in handlers
      modifies this, instanceIdMgr, instanceIdMgr.ids.Values
      ensures Valid() && context.Idle?
      ensures IsRun(old(Value()), trace) && After(old(Value()), trace) == Value()
      ensures |trace| == 1 && trace[0].Foreign? && trace[0].key == k && trace[0].outcome == o
    {
      ghost var s0 := Value();
      instanceIdMgr.MarkFree(k.eid, k.instanceId);
      var rc, pick := RunRegisteredRequest(k.eid, o);
      trace := [Foreign(k, pick, o)];
      OneEvent(s0, trace[0]);
    }

    /** Calls the response handler of the registration, as far as the history knows. */
    ghost method NoteCall(ticket: nat, call: Call, context: Context)
      modifies this`history, this`context
      ensures |history| == |old(history)| && this.context == context
      ensures history == if ticket < |old(history)|
                         then old(history)[ticket := old(history)[ticket].(
                                calls := old(history)[ticket].calls + [call])]
                         else old(history)
    {
      if ticket < |history| {
        history := history[ticket := history[ticket].(calls := history[ticket].calls + [call])];
      }
      this.context := context;
    }

    /** The callback of an expiry timer. The handler is called with the entry still in the table. */
    method InstanceIdExpired(ticket: nat, requests: seq<Request>) returns (ghost trace: seq<Event>)
      requires Valid() && context.Idle? && ticket in armed && armed[ticket].deadline <= now
      requires Safe(Value())
      modifies this, sockManager, instanceIdMgr, instanceIdMgr.ids.Values
      ensures Valid() && context.Idle?
      ensures IsRun(old(Value()), trace) && After(old(Value()), trace) == Value()
      ensures IsCallOf(old(Value()), BeginExpire(ticket), requests, trace) && trace[|trace|-1] == EndExpire
    {
      ghost var s0 := Value();
      var k := armed[ticket].key;
      if k !in handlers {
        assert false;
      }
      BeginExpiry(ticket);
      OneEvent(s0, BeginExpire(ticket));
      trace := CallBack(requests, s0, [BeginExpire(ticket)]);
      EndExpiry(k);
      RunExtends(s0, trace, EndExpire);
      trace := trace + [EndExpire];
    }

    method EndExpiry(k: Key)
      requires Valid() && context == Expiring(k)
      modifies this`removeRequestContainer, this`context
      ensures Valid() && Value() == Next(old(Value()), EndExpire)
    {
      removeRequestContainer := removeRequestContainer + {k};
      context := Idle;
    }

    method BeginExpiry(ticket: nat)
      requires Valid() && context.Idle? && ticket in armed && armed[ticket].key in handlers
      modifies this`handlers, this`armed, this`history, this`context
      ensures Valid() && Value() == Expired(old(Value()), ticket)
    {
      var k := armed[ticket].key;
      StopTimers(k);
      handlers := handlers[k := handlers[k].(done := true)];
      NoteCall(handlers[k].ticket, NoResponse, Expiring(k));
    }

    /** The callback of a request's retry timer. */
    method RetryTimeout(k: Key)
      requires Valid() && context.Idle? && k in handlers && handlers[k].request.armed
      modifies this`handlers, this`sent
      ensures Valid() && Enabled(old(Value()), RetryTick(k)) && Value() == Next(old(Value()), RetryTick(k))
    {
      var e := handlers[k];
      if e.request.numRetries != 0 {
        sent := sent + [Send(e.ticket, k, e.fd, !e.done)];
      }
      handlers := handlers[k := e.(request := RetryTimer.Ticked(e.request))];
    }

    /** The deferred removal of a request whose identifier has expired. */
    method RemoveRequestEntry(k: Key, o: Outcome) returns (ghost trace: seq<Event>)
      requires Valid() && context.Idle? && k in removeRequestContainer
      modifies this, sockManager, instanceIdMgr, instanceIdMgr.ids.Values
      ensures Valid() && context.Idle?
      ensures IsRun(old(Value()), trace) && After(old(Value()), trace) == Value()
      ensures |trace| == 1 && trace[0].RemoveEntry? && trace[0].key == k && trace[0].outcome == o
    {
      ghost var s0 := Value();
      EraseEntry(k);
      removeRequestContainer := removeRequestContainer - {k};
      assert Value() == Removed(s0, k);
      var rc, pick := RunRegisteredRequest(k.eid, o);
      trace := [RemoveEntry(k, pick, o)];
      OneEvent(s0, trace[0]);
    }
  }

  // ---------------------------------------------------------------- building runs

  lemma OneEvent(s: State, e: Event)
    requires Enabled(s, e)
    ensures IsRun(s, [e]) && After(s, [e]) == Next(s, e)
  {
    RunExtends(s, [], e);
    assert [] + [e] == [e];
  }

  /** The last request of a callback is registered. */
  ghost function Extended(s: State, from: nat, requests: seq<Request>, trace: seq<Event>, at: State, e: Event)
    : (longer: seq<Event>)
    requires requests != [] && IsRun(s, trace) && After(s, trace) == at && from <= |trace|
    requires Serves(s, from, requests[..|requests|-1], trace)
    requires IsRegistrationOf(e, requests[|requests|-1]) && Enabled(at, e)
    ensures IsRun(s, longer) && After(s, longer) == Next(at, e) && Serves(s, from, requests, longer) && trace <= longer
  {
    RunExtends(s, trace, e);
    assert (trace + [e])[..|trace|] == trace;
    trace + [e]
  }
}
