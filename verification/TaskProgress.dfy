/** Passes and tasks can be brought to their end: every punctual good run in mid-pass, or with a discovery task in
    progress, has a continuation that finishes it in time. */
module TaskProgress {
  import opened SyncDriver
  import opened TimeSyncSystem
  import opened SystemTheorems
  import opened PassTiming
  import opened PassProgress
  import D = DriverTheorems
  import E = RequestEngine
  import S = Sockets

  // ---------------------------------------------------------------- a pass

  /** The batches that wait and those that are finished stay, and so does the kind of coroutine. */
  ghost predicate SameQueue(s: System, s': System) {
    && InProgress(s.driver) && InProgress(s'.driver)
    && s'.driver.handle.co.discovery == s.driver.handle.co.discovery
    && s'.driver.queue == s.driver.queue && s'.driver.finished == s.driver.finished
  }

  lemma MoveKeepsQueue(s: System, e: Event)
    requires Steady(s) && InPass(s.driver) && Moves(s, e) && e != EndOfPass
    ensures SameQueue(s, Next(s, e))
  {
    EveryStepNears(s, e);
  }

  /** A task has taken the batch of its pass off the queue and is at the head of its loop. */
  ghost predicate TookBatch(s: System, s': System)
    requires InProgress(s.driver)
  {
    s.driver.handle.co.discovery ==>
      && AtLoopHead(s'.driver) && s.driver.queue != [] && s'.driver.queue == s.driver.queue[1..]
      && s'.driver.finished == s.driver.finished + [s.driver.queue[0]]
  }

  /** The run to a state in mid-pass is extended by a move. */
  lemma MovedOn(s0: System, events: seq<Event>, s: System) returns (e: Event)
    requires IsPunctualRun(s0, events) && After(s0, events) == s && Steady(s) && InPass(s.driver)
    ensures Moves(s, e) && IsPunctualRun(s0, events + [e]) && After(s0, events + [e]) == Next(s, e)
    ensures Steady(Next(s, e))
  {
    e := PassMoves(s);
    PunctualRunExtends(s0, events, e);
    StepKeepsSteady(s, e);
  }

  /** The run to a state in mid-pass goes on until the pass is over. */
  lemma {:induction false} Continued(s0: System, events: seq<Event>, s: System)
    returns (longer: seq<Event>, s': System)
    requires IsPunctualRun(s0, events) && After(s0, events) == s && Steady(s) && InPass(s.driver)
    ensures events <= longer && IsPunctualRun(s0, longer) && After(s0, longer) == s' && Steady(s')
    ensures PassOver(s, s') && TookBatch(s, s') && s'.engine.config == s.engine.config
    ensures s'.engine.now <= s.engine.now + TimeDue(s)
    decreases EndpointsLeft(s), StepsBefore(s), |s.engine.removal|, TimeLeft(s)
  {
    var e := MovedOn(s0, events, s);
    if e == EndOfPass {
      EndOfPassIsOver(s, s);
      longer, s' := events + [e], Next(s, e);
    } else {
      EveryStepNears(s, e);
      MoveKeepsQueue(s, e);
      longer, s' := Continued(s0, events + [e], Next(s, e));
      PassOverLater(s, Next(s, e), s');
    }
  }

  /** Every punctual good run that is in mid-pass can be continued to one in which this pass is finished, within
      one expiry interval for each of its endpoints. */
  lemma PassEnds(config: E.Config, interval: int, mode: S.Mode, events: seq<Event>)
    requires IsPunctualRun(Started(config, interval, mode), events)
    requires InPass(After(Started(config, interval, mode), events).driver)
    ensures exists longer :: events <= longer && IsPunctualRun(Started(config, interval, mode), longer)
              && PassOver(After(Started(config, interval, mode), events),
                          After(Started(config, interval, mode), longer))
  {
    var s := After(Started(config, interval, mode), events);
    PunctualRunIsSteady(config, interval, mode, events);
    var longer, s' := Continued(Started(config, interval, mode), events, s);
  }

  // ---------------------------------------------------------------- a task

  ghost predicate InTask(s: System) {
    InProgress(s.driver) && s.driver.handle.co.discovery
  }

  function EndpointsOf(batches: seq<Batch>): nat {
    if batches == [] then 0 else |batches[0]| + EndpointsOf(batches[1..])
  }

  /** The endpoints that the task has still to attempt, the one that it waits for included. */
  ghost function EndpointsDue(s: System): nat
    requires D.HandleOk(s.driver) && InTask(s)
  {
    if InPass(s.driver) then EndpointsLeft(s) + EndpointsOf(s.driver.queue[1..]) else EndpointsOf(s.driver.queue)
  }

  /** The head of the loop can be passed, with sockets that open. */
  lemma CanTurn(s: System) returns (e: Event)
    requires Steady(s) && AtLoopHead(s.driver)
    ensures e.LoopHead? && CanStep(s, e)
  {
    var eids := if NextEids(s.driver).Some? then NextEids(s.driver).value else [];
    var bound := S.BoundExists(s.sock.open.Keys);
    S.HighResultsAreFresh(s.sock, eids, bound);
    e := LoopHead(S.HighResults(bound, |eids|));
  }

  /** What passing the head of the loop does: the task ends, finishes an empty batch, or begins a pass. */
  lemma TurnEffect(s: System, e: Event)
    requires Steady(s) && AtLoopHead(s.driver) && e.LoopHead? && CanStep(s, e)
    ensures var s' := Next(s, e); var d, d' := s.driver, s'.driver;
            && Steady(s') && s'.engine == s.engine
            && (d.queue == [] ==> !InProgress(d') && d'.queue == [] && d'.finished == d.finished)
            && (d.queue != [] && d.queue[0] == [] ==>
                 AtLoopHead(d') && d'.queue == d.queue[1..] && d'.finished == d.finished + [d.queue[0]])
            && (d.queue != [] && d.queue[0] != [] ==>
                 InPass(d') && InTask(s') && d'.queue == d.queue && d'.finished == d.finished
                 && EndpointsLeft(s') == |d.queue[0]|)
  {
    StepKeepsSteady(s, e);
  }

  /** The task has ended with all its batches finished, in time. */
  ghost predicate TaskOver(s: System, s': System)
    requires D.HandleOk(s.driver) && InTask(s)
  {
    && !InProgress(s'.driver) && s'.driver.queue == [] && s'.driver.finished == s.driver.finished + s.driver.queue
    && s'.engine.now <= s.engine.now + EndpointsDue(s) * s.engine.config.expiry
  }

  lemma Distributes(n: nat, m: nat, expiry: nat)
    ensures (n + m) * expiry == n * expiry + m * expiry
  {
  }

  lemma Associates(finished: seq<Batch>, batch: seq<Batch>, queue: seq<Batch>)
    ensures finished + (batch + queue) == (finished + batch) + queue
  {
  }

  /** The task has come nearer to its end by n endpoints, in no more than their time, and by these batches. */
  ghost predicate Nears(s: System, t: System, n: nat, batches: seq<Batch>)
    requires D.HandleOk(s.driver) && InTask(s)
  {
    && D.HandleOk(t.driver) && InTask(t) && t.engine.config == s.engine.config
    && s.driver.queue == batches + t.driver.queue && t.driver.finished == s.driver.finished + batches
    && EndpointsDue(s) == n + EndpointsDue(t) && t.engine.now <= s.engine.now + n * s.engine.config.expiry
  }

  lemma TaskOverLater(s: System, t: System, s': System, n: nat, batches: seq<Batch>)
    requires D.HandleOk(s.driver) && InTask(s) && Nears(s, t, n, batches) && TaskOver(t, s')
    ensures TaskOver(s, s')
  {
    Distributes(n, EndpointsDue(t), s.engine.config.expiry);
    Associates(s.driver.finished, batches, t.driver.queue);
  }

  /** When the pass is over its batch is off the queue. */
  lemma PassNears(s: System, t: System)
    requires Steady(s) && InTask(s) && InPass(s.driver) && Steady(t) && TookBatch(s, t)
    requires t.engine.config == s.engine.config && t.engine.now <= s.engine.now + TimeDue(s)
    ensures Nears(s, t, EndpointsLeft(s), [s.driver.queue[0]])
    ensures |t.driver.queue| < |s.driver.queue|
  {
    TimeDueBound(s);
    assert s.driver.queue == [s.driver.queue[0]] + s.driver.queue[1..];
  }

  /** Past the head of the loop an empty batch is off the queue, or a pass is in progress. */
  lemma TurnNears(s: System, e: Event)
    requires Steady(s) && InTask(s) && !InPass(s.driver) && s.driver.queue != [] && e.LoopHead? && CanStep(s, e)
    ensures var q := s.driver.queue;
            Nears(s, Next(s, e), 0, if q[0] == [] then [q[0]] else [])
            && (q[0] == [] ==> |Next(s, e).driver.queue| < |q|)
            && (q[0] != [] ==> Next(s, e).driver.queue == q && InPass(Next(s, e).driver))
  {
    TurnEffect(s, e);
    assert s.driver.queue == [s.driver.queue[0]] + s.driver.queue[1..];
  }

  /** The run to the head of the loop is extended past it. */
  lemma TurnedOn(s0: System, events: seq<Event>, s: System) returns (e: Event)
    requires IsPunctualRun(s0, events) && After(s0, events) == s && Steady(s) && AtLoopHead(s.driver)
    ensures e.LoopHead? && CanStep(s, e) && IsPunctualRun(s0, events + [e])
    ensures After(s0, events + [e]) == Next(s, e) && Steady(Next(s, e))
  {
    e := CanTurn(s);
    PunctualRunExtends(s0, events, e);
    StepKeepsSteady(s, e);
  }

  /** The run to a state with a task in progress goes on until the task is over. */
  lemma {:induction false} TaskContinued(s0: System, events: seq<Event>, s: System)
    returns (longer: seq<Event>, s': System)
    requires IsPunctualRun(s0, events) && After(s0, events) == s && Steady(s) && InTask(s)
    ensures events <= longer && IsPunctualRun(s0, longer) && After(s0, longer) == s' && TaskOver(s, s')
    decreases |s.driver.queue|, if InPass(s.driver) then 0 else 1
  {
    if InPass(s.driver) {
      var more, t := Continued(s0, events, s);
      PassNears(s, t);
      longer, s' := TaskContinued(s0, more, t);
      TaskOverLater(s, t, s', EndpointsLeft(s), [s.driver.queue[0]]);
    } else if s.driver.queue != [] {
      var e := TurnedOn(s0, events, s);
      TurnNears(s, e);
      longer, s' := TaskContinued(s0, events + [e], Next(s, e));
      TaskOverLater(s, Next(s, e), s', 0, if s.driver.queue[0] == [] then [s.driver.queue[0]] else []);
    } else {
      var e := TurnedOn(s0, events, s);
      TurnEffect(s, e);
      longer, s' := events + [e], Next(s, e);
    }
  }

  /** Every punctual good run with a discovery task in progress can be continued to one in which the task has
      ended with every delivered batch finished, within one expiry interval for each endpoint still due. */
  lemma TaskEnds(config: E.Config, interval: int, mode: S.Mode, events: seq<Event>)
    requires IsPunctualRun(Started(config, interval, mode), events)
    requires InTask(After(Started(config, interval, mode), events))
    ensures var s := After(Started(config, interval, mode), events);
            && D.HandleOk(s.driver)
            && exists longer :: events <= longer && IsPunctualRun(Started(config, interval, mode), longer)
                 && var s' := After(Started(config, interval, mode), longer);
                    && !InProgress(s'.driver) && s'.driver.queue == [] && s'.driver.finished == D.BatchesOf(events)
                    && s'.engine.now <= s.engine.now + EndpointsDue(s) * config.expiry
  {
    var s := After(Started(config, interval, mode), events);
    PunctualRunIsSteady(config, interval, mode, events);
    PunctualRunIsGood(Started(config, interval, mode), events);
    GoodRunIsRun(Started(config, interval, mode), events);
    D.QueueConservation(config, interval, mode, events);
    var longer, s' := TaskContinued(Started(config, interval, mode), events, s);
    assert s'.driver.finished == D.BatchesOf(events);
  }
}
