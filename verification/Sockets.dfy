/** The sockets to the MCTP endpoints (oem/nvidia/socket_handler.hpp, socket_handler.cpp, socket_manager.hpp).

    `open` and `live` are histories: the daemon sockets that are open, each with the path it is connected to,
    and the endpoints for which a descriptor has been registered since the last deactivation. */
module Sockets {
  import opened Common

  datatype Mode = Daemon | InKernel

  type Path = seq<Byte>

  datatype Endpoint = Endpoint(sockType: int, protocol: int, path: Path)

  /** What operator[] inserts for an endpoint that was never registered. */
  const UNREGISTERED := Endpoint(0, 0, [])

  datatype Sockets = Sockets(
    mode: Mode,
    endpoints: map<Byte, Endpoint>,
    cache: map<Path, int>,
    eidToFd: map<Byte, int>,
    kernelFd: Option<int>,
    open: map<int, Path>,
    live: set<Byte>)

  function NoSockets(mode: Mode): Sockets {
    Sockets(mode, map[], map[], map[], None, map[], {})
  }

  function Registered(s: Sockets, eid: Byte, endpoint: Endpoint): Sockets {
    if eid in s.endpoints then s else s.(endpoints := s.endpoints[eid := endpoint])
  }

  /** The descriptor that initSocket returns when opening a socket yields `result`, negative on failure. */
  function InitFd(s: Sockets, result: int): int {
    if s.mode.InKernel? && s.kernelFd.Some? then s.kernelFd.value else result
  }

  function SocketInit(s: Sockets, path: Path, result: int): Sockets {
    if InitFd(s, result) < 0 then s
    else match s.mode
      case Daemon => s.(cache := s.cache[path := result], open := s.open[result := path])
      case InKernel => s.(kernelFd := Some(InitFd(s, result)))
  }

  function Connected(s: Sockets, eid: Byte, fd: int): Sockets {
    s.(eidToFd := s.eidToFd[eid := fd], live := s.live + {eid})
  }

  function ActivatedOne(s: Sockets, eid: Byte, result: int): Sockets {
    var t := Registered(s, eid, UNREGISTERED);
    var path := t.endpoints[eid].path;
    if path in t.cache then Connected(t, eid, t.cache[path])
    else if InitFd(t, result) < 0 then t
    else Connected(SocketInit(t, path, result), eid, InitFd(t, result))
  }

  /** `results[i]` is what opening a socket for the i-th endpoint yields, if it comes to that. */
  function Activated(s: Sockets, eids: seq<Byte>, results: seq<int>): Sockets
    requires |results| == |eids|
    decreases |eids|
  {
    if eids == [] then s
    else ActivatedOne(Activated(s, eids[..|eids|-1], results[..|eids|-1]), eids[|eids|-1], results[|eids|-1])
  }

  /** Descriptors of the open sockets are closed with the cache; the in-kernel socket stays. */
  function Deactivated(s: Sockets): Sockets {
    s.(cache := map[], eidToFd := map[], open := map[], live := {})
  }

  function LookedUp(s: Sockets, eid: Byte): Sockets {
    if eid in s.eidToFd then s else s.(eidToFd := s.eidToFd[eid := 0])
  }

  function FdOf(s: Sockets, eid: Byte): int {
    if eid in s.eidToFd then s.eidToFd[eid] else 0
  }

  // ---------------------------------------------------------------- classes

  /** The table of descriptors. */
  class SocketManager {
    var eidToFd: map<Byte, int>

    constructor ()
      ensures eidToFd == map[]
    {
      eidToFd := map[];
    }

    method RegisterEndpoint(eid: Byte, fd: int)
      modifies this
      ensures eidToFd == old(eidToFd)[eid := fd]
    {
      eidToFd := eidToFd[eid := fd];
    }

    /** A missing entry is created with descriptor 0. */
    method GetSocket(eid: Byte) returns (fd: int)
      modifies this
      ensures eidToFd == if eid in old(eidToFd) then old(eidToFd) else old(eidToFd)[eid := 0]
      ensures fd == eidToFd[eid]
    {
      if eid !in eidToFd {
        eidToFd := eidToFd[eid := 0];
      }
      return eidToFd[eid];
    }

    method ClearMctpEndpoints()
      modifies this
      ensures eidToFd == map[]
    {
      eidToFd := map[];
    }
  }

  /** Both socket handlers; `mode` selects the initSocket of the class. */
  class SocketHandler {
    const mode: Mode
    const manager: SocketManager
    var eidToSockMap: map<Byte, Endpoint>
    var socketInfoMap: map<Path, int>
    var kernelFd: Option<int>
    ghost var open: map<int, Path>
    ghost var live: set<Byte>

    ghost function Value(): Sockets
      reads this, manager
    {
      Sockets(mode, eidToSockMap, socketInfoMap, manager.eidToFd, kernelFd, open, live)
    }

    constructor (mode: Mode, manager: SocketManager)
      requires manager.eidToFd == map[]
      ensures this.manager == manager && Value() == NoSockets(mode)
    {
      this.mode := mode;
      this.manager := manager;
      eidToSockMap, socketInfoMap, kernelFd := map[], map[], None;
      open, live := map[], {};
    }

    method RegisterMctpEndpoint(eid: Byte, endpoint: Endpoint)
      modifies this
      ensures Value() == Registered(old(Value()), eid, endpoint)
    {
      if eid !in eidToSockMap {
        eidToSockMap := eidToSockMap[eid := endpoint];
      }
    }

    method InitSocket(path: Path, result: int) returns (fd: int)
      modifies this
      ensures Value() == SocketInit(old(Value()), path, result)
      ensures fd == InitFd(old(Value()), result)
    {
      if mode.InKernel? && kernelFd.Some? {
        return kernelFd.value;
      }
      if result < 0 {
        return result;
      }
      if mode.InKernel? {
        kernelFd := Some(result);
      } else {
        socketInfoMap := socketInfoMap[path := result];
        open := open[result := path];
      }
      return result;
    }

    /** Returns 0 whatever the sockets do: an endpoint whose socket fails is skipped. */
    method ActivateSockets(eids: seq<Byte>, results: seq<int>) returns (rc: int)
      requires |results| == |eids|
      modifies this, manager
      ensures Value() == Activated(old(Value()), eids, results) && rc == 0
    {
      for i := 0 to |eids|
        invariant Value() == Activated(old(Value()), eids[..i], results[..i])
      {
        var eid := eids[i];
        assert eids[..i + 1][..i] == eids[..i] && results[..i + 1][..i] == results[..i];
        RegisterMctpEndpoint(eid, UNREGISTERED);
        var path := eidToSockMap[eid].path;
        if path in socketInfoMap {
          manager.RegisterEndpoint(eid, socketInfoMap[path]);
          live := live + {eid};
        } else {
          var fd := InitSocket(path, results[i]);
          if fd >= 0 {
            manager.RegisterEndpoint(eid, fd);
            live := live + {eid};
          }
        }
      }
      assert eids[..|eids|] == eids && results[..|eids|] == results;
      return 0;
    }

    method DeactivateSockets()
      modifies this, manager
      ensures Value() == Deactivated(old(Value()))
    {
      socketInfoMap := map[];
      manager.ClearMctpEndpoints();
      open, live := map[], {};
    }
  }

  // ---------------------------------------------------------------- the daemon handler's invariant

  /** Opening a socket never yields the descriptor of one that is open. */
  ghost predicate FreshResults(s: Sockets, eids: seq<Byte>, results: seq<int>)
    requires |results| == |eids|
    decreases |eids|
  {
    eids == [] ||
    (FreshResults(s, eids[..|eids|-1], results[..|eids|-1]) &&
     results[|eids|-1] !in Activated(s, eids[..|eids|-1], results[..|eids|-1]).open)
  }

  /** The cache and the open sockets are inverse to each other, and every live endpoint has the descriptor
      that is cached for its path. */
  ghost predicate Agrees(s: Sockets) {
    && (forall p :: p in s.cache ==> s.cache[p] in s.open && s.open[s.cache[p]] == p && s.cache[p] >= 0)
    && (forall fd :: fd in s.open ==> s.open[fd] in s.cache && s.cache[s.open[fd]] == fd)
    && (forall e :: e in s.live ==>
         && e in s.endpoints && s.endpoints[e].path in s.cache
         && e in s.eidToFd && s.eidToFd[e] == s.cache[s.endpoints[e].path])
  }

  lemma RegisterAgrees(s: Sockets, eid: Byte, endpoint: Endpoint)
    requires Agrees(s)
    ensures Agrees(Registered(s, eid, endpoint))
  {
  }

  lemma InitAgrees(s: Sockets, path: Path, result: int)
    requires s.mode.Daemon? && Agrees(s) && path !in s.cache && result !in s.open
    ensures Agrees(SocketInit(s, path, result))
  {
  }

  lemma ConnectAgrees(s: Sockets, eid: Byte)
    requires Agrees(s) && eid in s.endpoints && s.endpoints[eid].path in s.cache
    ensures Agrees(Connected(s, eid, s.cache[s.endpoints[eid].path]))
  {
  }

  lemma ActivateOneAgrees(s: Sockets, eid: Byte, result: int)
    requires s.mode.Daemon? && Agrees(s) && result !in s.open
    ensures ActivatedOne(s, eid, result).mode.Daemon? && Agrees(ActivatedOne(s, eid, result))
  {
    var t := Registered(s, eid, UNREGISTERED);
    var path := t.endpoints[eid].path;
    RegisterAgrees(s, eid, UNREGISTERED);
    if path in t.cache {
      ConnectAgrees(t, eid);
    } else if result >= 0 {
      InitAgrees(t, path, result);
      ConnectAgrees(SocketInit(t, path, result), eid);
    }
  }

  lemma {:induction false} ActivateAgrees(s: Sockets, eids: seq<Byte>, results: seq<int>)
    requires s.mode.Daemon? && Agrees(s) && |results| == |eids| && FreshResults(s, eids, results)
    ensures Activated(s, eids, results).mode.Daemon? && Agrees(Activated(s, eids, results))
    decreases |eids|
  {
    if eids != [] {
      var n := |eids| - 1;
      ActivateAgrees(s, eids[..n], results[..n]);
      ActivateOneAgrees(Activated(s, eids[..n], results[..n]), eids[n], results[n]);
    }
  }

  /** In either mode, when every socket that is needed opens, every endpoint gets a descriptor. */
  lemma {:induction false} ActivateReaches(s: Sockets, eids: seq<Byte>, results: seq<int>)
    requires |results| == |eids| && forall i :: 0 <= i < |eids| ==> InitFd(s, results[i]) >= 0
    ensures var t := Activated(s, eids, results);
            && t.mode == s.mode
            && (forall i :: 0 <= i < |eids| ==> eids[i] in t.live)
            && (t.kernelFd != s.kernelFd ==> t.kernelFd.Some? && t.kernelFd.value >= 0)
    decreases |eids|
  {
    if eids != [] {
      var n := |eids| - 1;
      ActivateReaches(s, eids[..n], results[..n]);
      var t := Activated(s, eids[..n], results[..n]);
      assert ActivatedOne(t, eids[n], results[n]).live == t.live + {eids[n]};
      forall i | 0 <= i < n
        ensures eids[i] in t.live
      {
        assert eids[..n][i] == eids[i];
      }
    }
  }

  lemma ActivatedOneEndpoints(s: Sockets, eid: Byte, result: int)
    ensures ActivatedOne(s, eid, result).endpoints == Registered(s, eid, UNREGISTERED).endpoints
  {
  }

  /** Activation leaves the endpoints that were mentioned before alone and gives the others the default. */
  lemma {:induction false} ActivationAddsDefaults(s: Sockets, eids: seq<Byte>, results: seq<int>)
    requires |results| == |eids|
    ensures var t := Activated(s, eids, results);
            && (forall e :: e in t.endpoints <==> e in s.endpoints || e in eids)
            && (forall e :: e in t.endpoints ==>
                 t.endpoints[e] == if e in s.endpoints then s.endpoints[e] else UNREGISTERED)
    decreases |eids|
  {
    if eids != [] {
      var n := |eids| - 1;
      ActivationAddsDefaults(s, eids[..n], results[..n]);
      assert eids == eids[..n] + [eids[n]];
      ActivatedOneEndpoints(Activated(s, eids[..n], results[..n]), eids[n], results[n]);
    }
  }

  // ---------------------------------------------------------------- what an activation reaches

  /** The i-th endpoint gets a descriptor: its path is cached by then, or its socket opens. */
  predicate Reaches(s: Sockets, eids: seq<Byte>, results: seq<int>, i: nat)
    requires |results| == |eids| && i < |eids|
  {
    var t := Registered(Activated(s, eids[..i], results[..i]), eids[i], UNREGISTERED);
    t.endpoints[eids[i]].path in t.cache || InitFd(t, results[i]) >= 0
  }

  predicate ReachedBefore(s: Sockets, eids: seq<Byte>, results: seq<int>, n: nat, eid: Byte)
    requires |results| == |eids| && n <= |eids|
  {
    exists i :: 0 <= i < n && eids[i] == eid && Reaches(s, eids, results, i)
  }

  lemma ActivatedStep(s: Sockets, eids: seq<Byte>, results: seq<int>, n: nat)
    requires |results| == |eids| && n < |eids|
    ensures Activated(s, eids[..n + 1], results[..n + 1]) ==
            ActivatedOne(Activated(s, eids[..n], results[..n]), eids[n], results[n])
  {
    assert eids[..n + 1][..n] == eids[..n] && results[..n + 1][..n] == results[..n];
  }

  lemma ActivatedOneLive(s: Sockets, eid: Byte, result: int)
    ensures var t := Registered(s, eid, UNREGISTERED);
            ActivatedOne(s, eid, result).live ==
            if t.endpoints[eid].path in t.cache || InitFd(t, result) >= 0 then s.live + {eid} else s.live
  {
  }

  lemma ReachedStep(s: Sockets, eids: seq<Byte>, results: seq<int>, n: nat, eid: Byte)
    requires |results| == |eids| && n < |eids|
    ensures eid in Activated(s, eids[..n + 1], results[..n + 1]).live <==>
            eid in Activated(s, eids[..n], results[..n]).live || (eids[n] == eid && Reaches(s, eids, results, n))
  {
    ActivatedStep(s, eids, results, n);
    ActivatedOneLive(Activated(s, eids[..n], results[..n]), eids[n], results[n]);
  }

  lemma ReachedBeforeStep(s: Sockets, eids: seq<Byte>, results: seq<int>, n: nat, eid: Byte)
    requires |results| == |eids| && n < |eids|
    ensures ReachedBefore(s, eids, results, n + 1, eid) <==>
            ReachedBefore(s, eids, results, n, eid) || (eids[n] == eid && Reaches(s, eids, results, n))
  {
  }

  lemma {:induction false} ReachedBeforeExactly(s: Sockets, eids: seq<Byte>, results: seq<int>, n: nat, eid: Byte)
    requires |results| == |eids| && n <= |eids|
    ensures eid in Activated(s, eids[..n], results[..n]).live <==>
            eid in s.live || ReachedBefore(s, eids, results, n, eid)
  {
    if n > 0 {
      ReachedBeforeExactly(s, eids, results, n - 1, eid);
      ReachedStep(s, eids, results, n - 1, eid);
      ReachedBeforeStep(s, eids, results, n - 1, eid);
    }
  }

  /** An activation makes live exactly the endpoints that it reaches at some position of the list. */
  lemma ReachedExactly(s: Sockets, eids: seq<Byte>, results: seq<int>, eid: Byte)
    requires |results| == |eids|
    ensures eid in Activated(s, eids, results).live <==>
            eid in s.live || exists i :: 0 <= i < |eids| && eids[i] == eid && Reaches(s, eids, results, i)
  {
    assert eids[..|eids|] == eids && results[..|eids|] == results;
    ReachedBeforeExactly(s, eids, results, |eids|, eid);
  }

  /** A descriptor of an endpoint that is not live was inserted by a look-up. */
  ghost predicate UnreachedAreZero(s: Sockets) {
    forall e :: e in s.eidToFd && e !in s.live ==> s.eidToFd[e] == 0
  }

  lemma {:induction false} ActivationKeepsZeros(s: Sockets, eids: seq<Byte>, results: seq<int>)
    requires |results| == |eids| && UnreachedAreZero(s)
    ensures UnreachedAreZero(Activated(s, eids, results))
    decreases |eids|
  {
    if eids != [] {
      ActivationKeepsZeros(s, eids[..|eids|-1], results[..|eids|-1]);
    }
  }

  lemma ActivatedOneOpen(s: Sockets, eid: Byte, result: int)
    ensures forall fd :: fd in ActivatedOne(s, eid, result).open ==> fd in s.open || fd == result
  {
  }

  /** Descriptors above all that are open are fresh. */
  lemma {:induction false} HighResultsAreFresh(s: Sockets, eids: seq<Byte>, bound: nat)
    requires forall fd :: fd in s.open ==> fd < bound
    ensures FreshResults(s, eids, HighResults(bound, |eids|))
    ensures forall fd :: fd in Activated(s, eids, HighResults(bound, |eids|)).open ==> fd < bound + |eids|
    decreases |eids|
  {
    if eids != [] {
      var n := |eids| - 1;
      HighResultsAreFresh(s, eids[..n], bound);
      assert HighResults(bound, |eids|)[..n] == HighResults(bound, n);
      ActivatedOneOpen(Activated(s, eids[..n], HighResults(bound, n)), eids[n], bound + n);
    }
  }

  function HighResults(bound: nat, n: nat): (results: seq<int>)
    ensures |results| == n
  {
    seq(n, i => bound + i)
  }

  lemma SomeElement<T>(elements: set<T>) returns (element: T)
    requires elements != {}
    ensures element in elements
  {
    element :| element in elements;
  }

  lemma {:induction false} BoundExists(fds: set<int>) returns (bound: nat)
    ensures forall fd :: fd in fds ==> fd < bound
  {
    if fds == {} {
      bound := 0;
    } else {
      var fd := SomeElement(fds);
      var rest := BoundExists(fds - {fd});
      bound := if rest <= fd then fd + 1 else rest;
      assert forall gd :: gd in fds ==> gd == fd || gd in fds - {fd};
    }
  }

  // ---------------------------------------------------------------- runs

  datatype Op =
    | Register(eid: Byte, endpoint: Endpoint)
    | Activate(eids: seq<Byte>, results: seq<int>)
    | Deactivate
    | LookUp(eid: Byte)

  function Next(s: Sockets, op: Op): Sockets {
    match op
    case Register(eid, endpoint) => Registered(s, eid, endpoint)
    case Activate(eids, results) => if |results| == |eids| then Activated(s, eids, results) else s
    case Deactivate => Deactivated(s)
    case LookUp(eid) => LookedUp(s, eid)
  }

  function After(mode: Mode, ops: seq<Op>): Sockets
    decreases |ops|
  {
    if ops == [] then NoSockets(mode) else Next(After(mode, ops[..|ops|-1]), ops[|ops|-1])
  }

  ghost predicate IsRun(mode: Mode, ops: seq<Op>)
    decreases |ops|
  {
    ops == [] ||
    (IsRun(mode, ops[..|ops|-1]) &&
     (ops[|ops|-1].Activate? ==>
       && |ops[|ops|-1].results| == |ops[|ops|-1].eids|
       && FreshResults(After(mode, ops[..|ops|-1]), ops[|ops|-1].eids, ops[|ops|-1].results)))
  }

  /** The operations that mention the endpoint to the socket handler. */
  predicate Mentions(op: Op, eid: Byte) {
    (op.Register? && op.eid == eid) || (op.Activate? && |op.results| == |op.eids| && eid in op.eids)
  }

  /** What the first operation that mentions the endpoint makes of it: a registration its own data, an
      activation the default. */
  function FirstMention(ops: seq<Op>, eid: Byte): Option<Endpoint> {
    if ops == [] then None
    else if Mentions(ops[0], eid) then Some(if ops[0].Register? then ops[0].endpoint else Endpoint(0, 0, []))
    else FirstMention(ops[1..], eid)
  }

  /** In every run of either handler an endpoint is known from its first mention on, and keeps it. */
  lemma {:induction false} FirstMentionIsKept(mode: Mode, ops: seq<Op>)
    requires IsRun(mode, ops)
    ensures var s := After(mode, ops);
            && (forall e: Byte :: e in s.endpoints <==> FirstMention(ops, e).Some?)
            && (forall e: Byte :: e in s.endpoints ==> s.endpoints[e] == FirstMention(ops, e).value)
    decreases |ops|
  {
    if ops != [] {
      var before, op := ops[..|ops|-1], ops[|ops|-1];
      FirstMentionIsKept(mode, before);
      var s, s' := After(mode, before), After(mode, ops);
      if op.Activate? {
        ActivationAddsDefaults(s, op.eids, op.results);
      }
      assert ops == before + [op];
      forall e: Byte
        ensures e in s'.endpoints <==> FirstMention(ops, e).Some?
        ensures e in s'.endpoints ==> s'.endpoints[e] == FirstMention(ops, e).value
      {
        FirstMentionOfConcat(before, [op], e);
        assert FirstMention([op], e) ==
               if Mentions(op, e) then Some(if op.Register? then op.endpoint else UNREGISTERED) else None;
      }
    }
  }

  lemma {:induction false} RunAgrees(ops: seq<Op>)
    requires IsRun(Daemon, ops)
    ensures After(Daemon, ops).mode.Daemon? && Agrees(After(Daemon, ops))
    decreases |ops|
  {
    if ops != [] {
      var before, op := ops[..|ops|-1], ops[|ops|-1];
      RunAgrees(before);
      if op.Activate? {
        ActivateAgrees(After(Daemon, before), op.eids, op.results);
      }
    }
  }

  /** In every run of the daemon's socket handler the cache and the open sockets agree, so that no path has
      two open sockets; every endpoint activated since the last deactivation has the descriptor cached for
      the path with which it was first mentioned, and endpoints with the same path share it; and a
      deactivation leaves no open socket and both maps empty. */
  lemma SocketCacheAgreement(ops: seq<Op>)
    requires IsRun(Daemon, ops)
    ensures var s := After(Daemon, ops);
            && Agrees(s)
            && (forall fd, gd :: fd in s.open && gd in s.open && s.open[fd] == s.open[gd] ==> fd == gd)
            && (forall e :: e in s.live ==>
                 && e in s.eidToFd && FirstMention(ops, e).Some? && FirstMention(ops, e).value.path in s.cache
                 && s.eidToFd[e] == s.cache[FirstMention(ops, e).value.path])
            && (forall e, f :: e in s.live && f in s.live && s.endpoints[e].path == s.endpoints[f].path ==>
                 s.eidToFd[e] == s.eidToFd[f])
            && (ops != [] && ops[|ops|-1].Deactivate? ==>
                 s.cache == map[] && s.eidToFd == map[] && s.open == map[] && s.live == {})
  {
    RunAgrees(ops);
    FirstMentionIsKept(Daemon, ops);
  }

  /** In either mode an endpoint keeps the data of its first registration if and only if it was not activated before it,
      unless that registration carried the default anyway. */
  lemma FirstRegistrationCounts(mode: Mode, ops: seq<Op>, eid: Byte, endpoint: Endpoint, later: seq<Op>)
    requires forall op :: op in ops ==> !(op.Register? && op.eid == eid)
    requires IsRun(mode, ops + [Register(eid, endpoint)] + later)
    ensures var s := After(mode, ops + [Register(eid, endpoint)] + later);
            && eid in s.endpoints
            && (s.endpoints[eid] == endpoint <==>
                (forall op :: op in ops ==> !Mentions(op, eid)) || endpoint == Endpoint(0, 0, []))
  {
    FirstMentionIsKept(mode, ops + [Register(eid, endpoint)] + later);
    assert ops + [Register(eid, endpoint)] + later == ops + ([Register(eid, endpoint)] + later);
    FirstMentionOfConcat(ops, [Register(eid, endpoint)] + later, eid);
    FirstMentionIsSome(ops, eid);
  }

  lemma {:induction false} FirstMentionOfConcat(ops: seq<Op>, more: seq<Op>, eid: Byte)
    ensures FirstMention(ops + more, eid) ==
            if FirstMention(ops, eid).Some? then FirstMention(ops, eid) else FirstMention(more, eid)
  {
    if ops == [] {
      assert ops + more == more;
    } else {
      assert (ops + more)[1..] == ops[1..] + more;
      FirstMentionOfConcat(ops[1..], more, eid);
    }
  }

  lemma {:induction false} FirstMentionIsSome(ops: seq<Op>, eid: Byte)
    ensures FirstMention(ops, eid).Some? <==> exists op :: op in ops && Mentions(op, eid)
    ensures (forall op :: op in ops ==> !(op.Register? && op.eid == eid)) && FirstMention(ops, eid).Some? ==>
              FirstMention(ops, eid) == Some(UNREGISTERED)
  {
    if ops != [] {
      FirstMentionIsSome(ops[1..], eid);
    }
  }

  // ---------------------------------------------------------------- the in-kernel handler

  /** The path cache is empty, and every live endpoint has the descriptor of the single socket. */
  ghost predicate KernelAgrees(s: Sockets) {
    && s.cache == map[] && (s.kernelFd.Some? ==> s.kernelFd.value >= 0)
    && (forall e :: e in s.live ==> e in s.eidToFd && s.kernelFd == Some(s.eidToFd[e]))
  }

  /** In every run of the in-kernel handler the single socket, once open, stays the one, deactivations
      included; the path cache stays empty, and every live endpoint has this socket's descriptor. */
  lemma {:induction false} OneKernelSocket(ops: seq<Op>)
    requires IsRun(InKernel, ops)
    ensures After(InKernel, ops).mode.InKernel? && KernelAgrees(After(InKernel, ops))
    ensures ops != [] && After(InKernel, ops[..|ops|-1]).kernelFd.Some? ==>
              After(InKernel, ops).kernelFd == After(InKernel, ops[..|ops|-1]).kernelFd
    decreases |ops|
  {
    if ops != [] {
      var before, op := ops[..|ops|-1], ops[|ops|-1];
      OneKernelSocket(before);
      if op.Activate? {
        KernelActivation(After(InKernel, before), op.eids, op.results);
      }
    }
  }

  lemma {:induction false} KernelActivation(s: Sockets, eids: seq<Byte>, results: seq<int>)
    requires s.mode.InKernel? && |results| == |eids| && KernelAgrees(s)
    ensures var t := Activated(s, eids, results);
            t.mode.InKernel? && KernelAgrees(t) && (s.kernelFd.Some? ==> t.kernelFd == s.kernelFd)
    decreases |eids|
  {
    if eids != [] {
      KernelActivation(s, eids[..|eids|-1], results[..|eids|-1]);
    }
  }
}
