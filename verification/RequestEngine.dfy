/** The request engine (oem/nvidia/handler.hpp) as an event-loop state machine.

    A handler that is called back may register further requests before it returns. The machine is therefore
    cut at the re-entry points: `BeginResponse` and `BeginExpire` run up to the call of the response handler,
    any number of `Register` events follow, and `EndResponse` or `EndExpire` runs what is left. Every state
    between two events is a state some callback can observe.

    What the environment decides is part of the event: the result of send() and of starting the timers, the
    entry that the scan of the unordered map meets first, and when a timer fires. */
module RequestEngine {
  import opened Common
  import opened InstanceIds
  import opened RetryTimer

  datatype Key = Key(eid: Byte, instanceId: Id, msgType: Byte, command: Byte)

  /** What a response carries for its handler: its length after the header and its first payload byte. */
  datatype Reply = Reply(length: nat, first: Byte)

  /** One call of a response handler; `NoResponse` is the empty response. */
  datatype Call = Answered(key: Key, reply: Reply) | NoResponse

  /** A table entry. `ticket` numbers the registrations; `done` says that its handler has been called. */
  datatype Entry = Entry(ticket: nat, fd: int, request: Retry, done: bool)

  /** A running expiry timer with the key its callback has captured. */
  datatype Expiry = Expiry(key: Key, deadline: nat)

  /** The history of one registration: whether its entry went into the table, and its handler's calls. */
  datatype Record = Record(key: Key, inserted: bool, calls: seq<Call>)

  /** One call of send(), for a request that is live (its handler not yet called) or not. */
  datatype Send = Send(ticket: nat, key: Key, fd: int, live: bool)

  /** Where the event loop is: between events, or inside a response handler. */
  datatype Context = Idle | Responding(eid: Byte) | Expiring(key: Key)

  datatype Config = Config(numRetries: Byte, expiry: nat)

  /** What the environment answers when a request is started. */
  datatype Outcome = Outcome(sendRc: int, retryArms: bool, expiryArms: bool)

  datatype State = State(
    config: Config,
    handlers: map<Key, Entry>,
    removal: set<Key>,
    used: set<Slot>,
    armed: map<nat, Expiry>,
    history: seq<Record>,
    sent: seq<Send>,
    now: nat,
    context: Context,
    asserted: bool)

  const ERR_GENERAL: int := 1
  const GOOD_OUTCOME := Outcome(0, true, true)

  function Init(config: Config): State {
    State(config, map[], {}, {}, map[], [], [], 0, Idle, false)
  }

  function SlotOf(k: Key): Slot {
    Slot(k.eid, k.instanceId)
  }

  // ---------------------------------------------------------------- runRegisteredRequest

  predicate Running(s: State, k: Key) {
    k in s.handlers && s.handlers[k].ticket in s.armed
  }

  function Candidates(s: State, eid: Byte): set<Key> {
    set k | k in s.handlers && k.eid == eid
  }

  predicate Busy(s: State, eid: Byte) {
    exists k :: k in Candidates(s, eid) && Running(s, k)
  }

  /** The entries the scan can end with: nothing to run, or any entry of an endpoint with none running. */
  predicate Picks(s: State, eid: Byte, pick: Option<Key>) {
    match pick
    case None => Busy(s, eid) || Candidates(s, eid) == {}
    case Some(k) => k in Candidates(s, eid) && !Busy(s, eid)
  }

  function StartRcOf(s: State, k: Key, o: Outcome): int
    requires k in s.handlers
  {
    var rc := StartRc(s.handlers[k].request, o.sendRc, o.retryArms);
    if rc != 0 then rc else if o.expiryArms then 0 else ERR_GENERAL
  }

  function StartEntry(s: State, k: Key, o: Outcome): State
    requires k in s.handlers
  {
    var e := s.handlers[k];
    var started := s.(handlers := s.handlers[k := e.(request := Started(e.request, o.sendRc, o.retryArms))],
                      sent := s.sent + [Send(e.ticket, k, e.fd, !e.done)]);
    if StartRcOf(s, k, o) == 0
    then started.(armed := s.armed[e.ticket := Expiry(k, s.now + s.config.expiry)])
    else started.(used := s.used - {SlotOf(k)})
  }

  function RunRc(s: State, pick: Option<Key>, o: Outcome): int
    requires pick.Some? ==> pick.value in s.handlers
  {
    if pick.Some? then StartRcOf(s, pick.value, o) else 0
  }

  function RunRegistered(s: State, pick: Option<Key>, o: Outcome): State
    requires pick.Some? ==> pick.value in s.handlers
  {
    if pick.Some? then StartEntry(s, pick.value, o) else s
  }

  // ---------------------------------------------------------------- registerRequest

  /** The key that the next request of an endpoint gets. */
  ghost function NextKey(s: State, eid: Byte, msgType: Byte, command: Byte): Key
    requires !Full(s.used, eid)
  {
    Key(eid, LowestFree(s.used, eid, 0).value, msgType, command)
  }

  /** `emplace` leaves the table as it is when the key is there already: the new request and its handler are lost. */
  function Put(s: State, k: Key, fd: int): State {
    var ticket := |s.history|;
    if k in s.handlers
    then s.(history := s.history + [Record(k, false, [])])
    else s.(history := s.history + [Record(k, true, [])],
            handlers := s.handlers[k := Entry(ticket, fd, Fresh(s.config.numRetries), false)])
  }

  /** The identifier is taken and the request put into the table. */
  function Emplace(s: State, k: Key, fd: int): State {
    Put(s.(used := s.used + {SlotOf(k)}), k, fd)
  }

  // ---------------------------------------------------------------- handler calls and removal

  function CallHandler(s: State, ticket: nat, call: Call): State {
    if ticket < |s.history|
    then s.(history := s.history[ticket := s.history[ticket].(calls := s.history[ticket].calls + [call])])
    else s
  }

  /** Frees the identifier and erases the entry, which destroys its timers. */
  function Erase(s: State, k: Key): State {
    var freed := s.(used := s.used - {SlotOf(k)});
    if k in s.handlers
    then freed.(armed := s.armed - {s.handlers[k].ticket}, handlers := s.handlers - {k})
    else freed
  }

  // ---------------------------------------------------------------- events

  datatype Event =
    | Register(eid: Byte, msgType: Byte, command: Byte, fd: int, pick: Option<Key>, outcome: Outcome)
    | BeginResponse(key: Key, reply: Reply)
    | EndResponse(pick: Option<Key>, outcome: Outcome)
    | Foreign(key: Key, pick: Option<Key>, outcome: Outcome)
    | RetryTick(key: Key)
    | BeginExpire(ticket: nat)
    | EndExpire
    | RemoveEntry(key: Key, pick: Option<Key>, outcome: Outcome)
    | Advance(delta: nat)

  ghost function Registered(s: State, e: Event): State
    requires e.Register? && !Full(s.used, e.eid)
  {
    Emplace(s, NextKey(s, e.eid, e.msgType, e.command), e.fd)
  }

  function Expired(s: State, ticket: nat): State
    requires ticket in s.armed
  {
    var k := s.armed[ticket].key;
    if k in s.handlers then
      var e := s.handlers[k];
      CallHandler(s.(handlers := s.handlers[k := e.(request := Stopped(e.request), done := true)],
                     armed := s.armed - {e.ticket}, context := Expiring(k)), e.ticket, NoResponse)
    else
      s.(asserted := true)
  }

  function Responded(s: State, k: Key, reply: Reply): State
    requires k in s.handlers
  {
    CallHandler(Erase(s, k), s.handlers[k].ticket, Answered(k, reply)).(context := Responding(k.eid))
  }

  function Ticking(s: State, k: Key): State
    requires k in s.handlers
  {
    var e := s.handlers[k];
    var ticked := s.(handlers := s.handlers[k := e.(request := Ticked(e.request))]);
    if e.request.numRetries != 0
    then ticked.(sent := s.sent + [Send(e.ticket, k, e.fd, !e.done)])
    else ticked
  }

  function Removed(s: State, k: Key): State {
    Erase(s, k).(removal := s.removal - {k})
  }

  function Freed(s: State, k: Key): State {
    s.(used := s.used - {SlotOf(k)})
  }

  /** An identifier is taken only while one is free, timers fire only while they run and never early, and
      outside a callback the loop dispatches one event at a time. */
  ghost predicate Enabled(s: State, e: Event) {
    match e
    case Register(eid, _, _, _, pick, _) => !Full(s.used, eid) && Picks(Registered(s, e), eid, pick)
    case BeginResponse(k, _) => s.context.Idle? && k in s.handlers
    case EndResponse(pick, _) => s.context.Responding? && Picks(s, s.context.eid, pick)
    case Foreign(k, pick, _) => s.context.Idle? && k !in s.handlers && Picks(Freed(s, k), k.eid, pick)
    case RetryTick(k) => s.context.Idle? && k in s.handlers && s.handlers[k].request.armed
    case BeginExpire(t) => s.context.Idle? && t in s.armed && s.armed[t].deadline <= s.now
    case EndExpire => s.context.Expiring?
    case RemoveEntry(k, pick, _) => s.context.Idle? && k in s.removal && Picks(Removed(s, k), k.eid, pick)
    case Advance(_) => s.context.Idle?
  }

  ghost function Next(s: State, e: Event): State
    requires Enabled(s, e)
  {
    match e
    case Register(_, _, _, _, pick, o) => RunRegistered(Registered(s, e), pick, o)
    case BeginResponse(k, reply) => Responded(s, k, reply)
    case EndResponse(pick, o) => RunRegistered(s, pick, o).(context := Idle)
    case Foreign(k, pick, o) => RunRegistered(Freed(s, k), pick, o)
    case RetryTick(k) => Ticking(s, k)
    case BeginExpire(t) => Expired(s, t)
    case EndExpire => s.(removal := s.removal + {s.context.key}, context := Idle)
    case RemoveEntry(k, pick, o) => RunRegistered(Removed(s, k), pick, o)
    case Advance(delta) => s.(now := s.now + delta)
  }

  // ---------------------------------------------------------------- runs

  /** The state after a list of events; an event that is not enabled changes nothing. */
  ghost function After(s: State, events: seq<Event>): State
    decreases |events|
  {
    if events == [] then s else
    var before := After(s, events[..|events|-1]);
    if Enabled(before, events[|events|-1]) then Next(before, events[|events|-1]) else before
  }

  ghost predicate IsRun(s: State, events: seq<Event>)
    decreases |events|
  {
    events == [] ||
    (IsRun(s, events[..|events|-1]) && Enabled(After(s, events[..|events|-1]), events[|events|-1]))
  }

  /** A run is extended at its end. */
  lemma RunExtends(s: State, events: seq<Event>, e: Event)
    requires IsRun(s, events) && Enabled(After(s, events), e)
    ensures IsRun(s, events + [e]) && After(s, events + [e]) == Next(After(s, events), e)
  {
    assert (events + [e])[..|events|] == events;
  }
}
