/** What holds of the sync driver in every run of the service, with failed sends, failed sockets, foreign and
    late responses included: one coroutine at a time, the conservation of discovered batches, the
    completeness of a pass, the rate limit, and the choice of the best medium. */
module DriverTheorems {
  import opened Common
  import opened EndpointMap
  import opened SyncDriver
  import opened TimeSyncSystem
  import E = RequestEngine
  import S = Sockets

  // ---------------------------------------------------------------- invariants of the driver

  /** The errors among the results of the first endpoints, in order. */
  function ReportsOf(eids: seq<Byte>, codes: seq<Byte>): seq<Report>
    requires |codes| <= |eids|
    decreases |codes|
  {
    if codes == [] then [] else
    var n := |codes| - 1;
    ReportsOf(eids, codes[..n]) + if codes[n] != SUCCESS then [Report(eids[n], codes[n])] else []
  }

  /** A pass has the results of the endpoints before the current one, has attempted these and, when it waits,
      the current one, and has reported exactly the errors. */
  ghost predicate PassOk(p: Pass, waits: bool) {
    && p.eids != [] && p.idx <= |p.eids| && |p.codes| == p.idx && (waits ==> p.idx < |p.eids|)
    && p.attempted == p.eids[..p.idx + if waits then 1 else 0]
    && p.reported == ReportsOf(p.eids, p.codes)
  }

  /** The pass got one result for each listed endpoint, in order, and reported exactly the errors. */
  ghost predicate Complete(p: Pass) {
    p.attempted == p.eids && |p.codes| == |p.eids| && p.reported == ReportsOf(p.eids, p.codes)
  }

  ghost predicate HandleOk(d: Driver) {
    && d.unfinished == (if InProgress(d) then 1 else 0)
    && (InProgress(d) && !d.handle.co.discovery ==> d.handle.co.pass.Some?)
    && (d.handle.Suspended? ==> d.handle.co.pass.Some?)
    && (InPass(d) ==> PassOk(d.handle.co.pass.value, d.handle.Suspended?))
    && (InPass(d) && d.handle.co.discovery ==>
         d.queue != [] && d.handle.co.pass.value.eids == EidsOf(d.queue[0]))
  }

  ghost predicate QueueOk(d: Driver) {
    && d.finished + d.queue == d.enqueued
    && d.infoMap == MapOf(d.ops)
    && forall q :: q in d.passes ==> Complete(q.pass)
  }

  /** Launches are at least the interval apart, and the last one is remembered. */
  ghost predicate LaunchesOk(d: Driver, now: int) {
    && 0 <= d.syncLast <= now
    && (d.launches == [] || d.launches[|d.launches|-1] == d.syncLast)
    && forall i :: 0 < i < |d.launches| ==> d.launches[i] - d.launches[i - 1] >= d.interval * NANOS_PER_SECOND
  }

  ghost predicate DriverOk(d: Driver, now: int) {
    HandleOk(d) && QueueOk(d) && LaunchesOk(d, now)
  }

  // ---------------------------------------------------------------- preservation

  lemma {:induction false} PushedAllFrame(d: Driver, infos: seq<Info>)
    ensures var d' := PushedAll(d, infos);
            && d' == d.(infoMap := d'.infoMap, ops := d'.ops)
            && (d.infoMap == MapOf(d.ops) ==> d'.infoMap == MapOf(d'.ops))
    decreases |infos|
  {
    if infos != [] {
      var before := PushedAll(d, infos[..|infos|-1]);
      var last := infos[|infos|-1];
      PushedAllFrame(d, infos[..|infos|-1]);
      MapOfAppend(before.ops, Push(last.uuid, EidInfo(last.eid, last.medium)));
    }
  }

  lemma DiscoveryIsOk(d: Driver, now: int, infos: seq<Info>, got: bool)
    requires DriverOk(d, now)
    ensures DriverOk(TaskStarted(Enqueued(d, infos), got), now)
  {
    PushedAllFrame(d, infos);
    var d' := Enqueued(d, infos);
    assert d'.finished + d'.queue == (d.finished + d.queue) + [infos];
    assert d.queue != [] ==> d'.queue[0] == d.queue[0];
  }

  lemma PopIsOk(d: Driver)
    requires QueueOk(d) && d.queue != []
    ensures QueueOk(Popped(d))
  {
    assert d.queue == [d.queue[0]] + d.queue[1..];
    assert Popped(d).finished + Popped(d).queue == d.finished + d.queue;
  }

  lemma LoopHeadIsOk(d: Driver, now: nat)
    requires DriverOk(d, now) && AtLoopHead(d)
    ensures DriverOk(LoopHeadPassed(d, now), now)
  {
    if d.queue != [] {
      PopIsOk(d);
    }
  }

  lemma PassEndIsOk(d: Driver, now: nat)
    requires DriverOk(d, now) && AtPassEnd(d)
    ensures DriverOk(PassEnded(d, now), now)
  {
    var noted := d.(passes := d.passes + [DonePass(d.handle.co.pass.value, now)]);
    assert QueueOk(noted);
    if d.handle.co.discovery {
      PopIsOk(noted);
    }
  }

  /** The result of the attempted endpoint completes its part of the pass. */
  lemma NotedIsOk(p: Pass, code: Byte)
    requires PassOk(p, true)
    ensures PassOk(Noted(p, code), false)
  {
    assert Noted(p, code).codes[..p.idx] == p.codes;
  }

  lemma AttemptedIsOk(p: Pass)
    requires PassOk(p, false) && p.idx < |p.eids|
    ensures PassOk(p.(attempted := p.attempted + [p.eids[p.idx]]), true)
  {
    assert p.eids[..p.idx + 1] == p.eids[..p.idx] + [p.eids[p.idx]];
  }

  lemma ErasureIsOk(d: Driver, holder: Option<UUID>)
    requires d.infoMap == MapOf(d.ops)
    ensures holder.Some? ==> d.infoMap - {holder.value} == MapOf(d.ops + [Erase(holder.value)])
  {
    if holder.Some? {
      MapOfAppend(d.ops, Erase(holder.value));
    }
  }

  lemma ResultIsOk(d: Driver, now: int, code: Byte, holder: Option<UUID>)
    requires DriverOk(d, now) && d.handle.Suspended?
    ensures DriverOk(Recorded(d, code, holder), now)
  {
    NotedIsOk(d.handle.co.pass.value, code);
    ErasureIsOk(d, holder);
  }

  lemma FailedAttemptIsOk(d: Driver, now: int, code: Byte, holder: Option<UUID>)
    requires DriverOk(d, now) && AtAttempt(d)
    ensures DriverOk(Recorded(Attempted(d), code, holder), now)
  {
    AttemptedIsOk(d.handle.co.pass.value);
    NotedIsOk(Attempted(d).handle.co.pass.value, code);
    ErasureIsOk(d, holder);
  }

  lemma WaitIsOk(d: Driver, now: int, ticket: nat)
    requires DriverOk(d, now) && AtAttempt(d)
    ensures DriverOk(Waiting(Attempted(d), ticket), now)
  {
    AttemptedIsOk(d.handle.co.pass.value);
  }

  lemma LaunchIsOk(d: Driver, now: nat, eids: seq<Byte>)
    requires DriverOk(d, now) && Launches(d, now)
    ensures DriverOk(Launched(d, now, eids), now)
  {
    assert now - d.syncLast >= d.interval * NANOS_PER_SECOND;
  }

  lemma StepIsOk(s: System, e: Event)
    requires DriverOk(s.driver, s.engine.now) && Enabled(s, e)
    ensures DriverOk(Next(s, e).driver, Next(s, e).engine.now)
  {
    ClockIsMonotone(s, e);
    var now := s.engine.now;
    match e {
      case TimeChange(targets, _) =>
        if Launches(s.driver, now) {
          LaunchIsOk(s.driver, now, EidsOfTargets(targets));
        }
      case Discovery(found, got) => DiscoveryIsOk(s.driver, now, InfosOf(found), got);
      case LoopHead(_) => LoopHeadIsOk(s.driver, now);
      case Attempt(_, _, holder) =>
        if AttemptCode(s, e) == SUCCESS {
          WaitIsOk(s.driver, now, |s.engine.history|);
        } else {
          FailedAttemptIsOk(s.driver, now, AttemptCode(s, e), holder);
        }
      case AttemptWithoutId => FailedAttemptIsOk(s.driver, now, SUCCESS, None);
      case EndOfPass => PassEndIsOk(s.driver, now);
      case Response(key, reply, holder) =>
        if Resumes(s, s.engine.handlers[key].ticket) {
          ResultIsOk(s.driver, now, ResultCode(reply), holder);
        }
      case Expire(ticket, holder) =>
        if Resumes(s, ticket) {
          ResultIsOk(s.driver, now, ERR_GENERAL, holder);
        }
      case Engine(_) =>
    }
  }

  lemma EngineClock(en: E.State, ev: E.Event)
    requires E.Enabled(en, ev)
    ensures en.now <= E.Next(en, ev).now && (!ev.Advance? ==> E.Next(en, ev).now == en.now)
  {
  }

  lemma ClockIsMonotone(s: System, e: Event)
    requires Enabled(s, e)
    ensures s.engine.now <= Next(s, e).engine.now
    ensures !(e.Engine? && e.event.Advance?) ==> Next(s, e).engine.now == s.engine.now
  {
    if EngineEvent(s, e).Some? {
      EngineClock(s.engine, EngineEvent(s, e).value);
    }
  }

  lemma {:induction false} RunIsOk(config: E.Config, interval: int, mode: S.Mode, events: seq<Event>)
    requires IsRun(Started(config, interval, mode), events)
    ensures var s := After(Started(config, interval, mode), events);
            DriverOk(s.driver, s.engine.now) && s.driver.interval == interval
    decreases |events|
  {
    if events != [] {
      var before := events[..|events|-1];
      RunIsOk(config, interval, mode, before);
      var s := After(Started(config, interval, mode), before);
      StepIsOk(s, events[|events|-1]);
      IntervalIsConstant(s, events[|events|-1]);
    }
  }

  lemma IntervalIsConstant(s: System, e: Event)
    requires Enabled(s, e)
    ensures Next(s, e).driver.interval == s.driver.interval
  {
    if e.Discovery? {
      PushedAllFrame(s.driver, InfosOf(e.found));
    }
  }

  // ---------------------------------------------------------------- main results

  /** In every run at most one coroutine has been created and is not finished: the one of the handle. */
  lemma OneCoroutineAtATime(config: E.Config, interval: int, mode: S.Mode, events: seq<Event>)
    requires IsRun(Started(config, interval, mode), events)
    ensures var d := After(Started(config, interval, mode), events).driver;
            d.unfinished == if InProgress(d) then 1 else 0
  {
    RunIsOk(config, interval, mode, events);
  }

  /** The batches that the discovery events of a run have delivered. */
  function BatchesOf(events: seq<Event>): seq<Batch>
    decreases |events|
  {
    if events == [] then [] else
    var last := events[|events|-1];
    BatchesOf(events[..|events|-1]) + if last.Discovery? then [InfosOf(last.found)] else []
  }

  lemma StepEnqueues(s: System, e: Event)
    requires Enabled(s, e)
    ensures Next(s, e).driver.enqueued == s.driver.enqueued + BatchesOf([e])
  {
    assert [e][..0] == [];
    if e.Discovery? {
      PushedAllFrame(s.driver, InfosOf(e.found));
    }
  }

  lemma {:induction false} EnqueuedIsAllBatches(s: System, events: seq<Event>)
    requires IsRun(s, events)
    ensures After(s, events).driver.enqueued == s.driver.enqueued + BatchesOf(events)
    decreases |events|
  {
    if events != [] {
      var before, last := events[..|events|-1], events[|events|-1];
      EnqueuedIsAllBatches(s, before);
      StepEnqueues(After(s, before), last);
      assert [last][..0] == [] && BatchesOf(events) == BatchesOf(before) + BatchesOf([last]);
    }
  }

  /** The list has the endpoints of the batch, position by position. */
  predicate IsListOf(eids: seq<Byte>, infos: seq<Info>) {
    |eids| == |infos| && forall i :: 0 <= i < |eids| ==> eids[i] == infos[i].eid
  }

  /** In every run the finished batches followed by the queue are all the batches ever delivered, in order;
      the batch that a task turns to next is the oldest one not finished, whatever left it in the queue; and
      a task that works on a batch works on the endpoints of that one. */
  lemma QueueConservation(config: E.Config, interval: int, mode: S.Mode, events: seq<Event>)
    requires IsRun(Started(config, interval, mode), events)
    ensures var d := After(Started(config, interval, mode), events).driver;
            && d.finished + d.queue == BatchesOf(events)
            && (AtLoopHead(d) && NextEids(d).Some? ==>
                 |d.finished| < |BatchesOf(events)| && IsListOf(NextEids(d).value, BatchesOf(events)[|d.finished|]))
            && (InPass(d) && d.handle.co.discovery ==>
                 |d.finished| < |BatchesOf(events)|
                 && IsListOf(d.handle.co.pass.value.eids, BatchesOf(events)[|d.finished|]))
  {
    RunIsOk(config, interval, mode, events);
    EnqueuedIsAllBatches(Started(config, interval, mode), events);
    var d := After(Started(config, interval, mode), events).driver;
    assert d.queue != [] ==> (d.finished + d.queue)[|d.finished|] == d.queue[0];
  }

  /** In every run, the step with which a task ends leaves no batch behind, not even one that was delivered
      while the task ran. */
  lemma TaskLeavesNothing(config: E.Config, interval: int, mode: S.Mode, events: seq<Event>, e: Event)
    requires IsRun(Started(config, interval, mode), events)
    requires var s := After(Started(config, interval, mode), events);
             && Enabled(s, e) && InProgress(s.driver) && s.driver.handle.co.discovery
             && !InProgress(Next(s, e).driver)
    ensures var s' := Next(After(Started(config, interval, mode), events), e);
            s'.driver.queue == [] && s'.driver.finished == BatchesOf(events)
  {
    var s := After(Started(config, interval, mode), events);
    QueueConservation(config, interval, mode, events);
    RunIsOk(config, interval, mode, events);
    if e.Discovery? {
      PushedAllFrame(s.driver, InfosOf(e.found));
    }
    assert e.LoopHead?;
  }

  /** The step ends a task. */
  ghost predicate EndsTask(s: System, e: Event) {
    && Enabled(s, e) && InProgress(s.driver) && s.driver.handle.co.discovery
    && !InProgress(Next(s, e).driver)
  }

  /** The step delivers a batch during a sync, or at rest when the time cannot be obtained. */
  ghost predicate DeliversUnserved(s: System, e: Event) {
    e.Discovery? && if InProgress(s.driver) then !s.driver.handle.co.discovery else !e.got
  }

  /** The batches delivered since the last task ended. */
  ghost function SinceLastTask(s: System, events: seq<Event>): seq<Batch>
    decreases |events|
  {
    if events == [] then [] else
    var before, last := events[..|events|-1], events[|events|-1];
    if EndsTask(After(s, before), last) then [] else SinceLastTask(s, before) + BatchesOf([last])
  }

  /** Since the last task ended a batch was delivered during a sync, or when the time could not be obtained. */
  ghost predicate UnservedSinceLastTask(s: System, events: seq<Event>)
    decreases |events|
  {
    events != [] &&
    var before, last := events[..|events|-1], events[|events|-1];
    !EndsTask(After(s, before), last) &&
    (DeliversUnserved(After(s, before), last) || UnservedSinceLastTask(s, before))
  }

  lemma RestingDelivery(d: Driver, infos: seq<Info>, got: bool)
    requires !(InProgress(d) && d.handle.co.discovery)
    ensures var d' := TaskStarted(Enqueued(d, infos), got);
            && d'.queue == d.queue + [infos]
            && (InProgress(d') && d'.handle.co.discovery <==> !InProgress(d) && got)
  {
    PushedAllFrame(d, infos);
  }

  lemma RestingOther(s: System, e: Event)
    requires HandleOk(s.driver) && Enabled(s, e) && !e.Discovery?
    requires !(InProgress(s.driver) && s.driver.handle.co.discovery)
    ensures var d' := Next(s, e).driver;
            d'.queue == s.driver.queue && !(InProgress(d') && d'.handle.co.discovery)
  {
  }

  /** How the queue changes when no task is in progress before the step. */
  lemma RestingStep(s: System, e: Event)
    requires HandleOk(s.driver) && Enabled(s, e)
    requires !(InProgress(s.driver) && s.driver.handle.co.discovery)
    ensures var d, d' := s.driver, Next(s, e).driver;
            && d'.queue == d.queue + BatchesOf([e])
            && (InProgress(d') && d'.handle.co.discovery <==> e.Discovery? && !DeliversUnserved(s, e))
  {
    assert [e][..0] == [];
    if e.Discovery? {
      RestingDelivery(s.driver, InfosOf(e.found), e.got);
    } else {
      RestingOther(s, e);
    }
  }

  lemma EndedTaskLeavesNothing(s: System, e: Event)
    requires DriverOk(s.driver, s.engine.now) && EndsTask(s, e)
    ensures e.LoopHead? && Next(s, e).driver.queue == []
  {
    if e.Discovery? {
      PushedAllFrame(s.driver, InfosOf(e.found));
    }
  }

  /** In every run, whenever no task is in progress, the queue holds exactly the batches delivered since the last
      task ended, and some were if and only if one came during a sync or when the time could not be obtained. */
  lemma {:induction false} QueueBetweenTasks(config: E.Config, interval: int, mode: S.Mode, events: seq<Event>)
    requires IsRun(Started(config, interval, mode), events)
    ensures var d := After(Started(config, interval, mode), events).driver;
            !(InProgress(d) && d.handle.co.discovery) ==>
              && d.queue == SinceLastTask(Started(config, interval, mode), events)
              && (d.queue != [] <==> UnservedSinceLastTask(Started(config, interval, mode), events))
    decreases |events|
  {
    if events != [] {
      var before, last := events[..|events|-1], events[|events|-1];
      var s := After(Started(config, interval, mode), before);
      QueueBetweenTasks(config, interval, mode, before);
      RunIsOk(config, interval, mode, before);
      if EndsTask(s, last) {
        EndedTaskLeavesNothing(s, last);
      } else if !(InProgress(s.driver) && s.driver.handle.co.discovery) {
        RestingStep(s, last);
        assert [last][..0] == [] && (last.Discovery? <==> BatchesOf([last]) != []);
      } else {
        TaskStaysTask(s, last);
      }
    }
  }

  lemma TaskStaysTask(s: System, e: Event)
    requires Enabled(s, e) && InProgress(s.driver) && s.driver.handle.co.discovery && InProgress(Next(s, e).driver)
    ensures Next(s, e).driver.handle.co.discovery
  {
    if e.Discovery? {
      PushedAllFrame(s.driver, InfosOf(e.found));
    }
  }

  /** In every run, every finished pass has attempted each endpoint of its list once and in order, and has
      reported exactly the results that were not success. */
  lemma PassCompleteness(config: E.Config, interval: int, mode: S.Mode, events: seq<Event>)
    requires IsRun(Started(config, interval, mode), events)
    ensures forall q :: q in After(Started(config, interval, mode), events).driver.passes ==> Complete(q.pass)
  {
    RunIsOk(config, interval, mode, events);
  }

  /** Some finished pass has attempted the endpoint. */
  ghost predicate WasAttempted(d: Driver, eid: Byte) {
    exists i :: 0 <= i < |d.passes| && eid in d.passes[i].pass.attempted
  }

  ghost predicate FinishedAttempted(d: Driver) {
    forall b, i :: 0 <= b < |d.finished| && 0 <= i < |d.finished[b]| ==> WasAttempted(d, d.finished[b][i].eid)
  }

  lemma MorePassesAttempted(d: Driver, d': Driver)
    requires FinishedAttempted(d) && d.passes <= d'.passes && d'.finished == d.finished
    ensures FinishedAttempted(d')
  {
    forall b, i | 0 <= b < |d'.finished| && 0 <= i < |d'.finished[b]|
      ensures WasAttempted(d', d'.finished[b][i].eid)
    {
      assert WasAttempted(d, d.finished[b][i].eid);
      var j :| 0 <= j < |d.passes| && d.finished[b][i].eid in d.passes[j].pass.attempted;
      assert d'.passes[j] == d.passes[j];
    }
  }

  lemma PassEndAttempts(d: Driver, now: nat)
    requires HandleOk(d) && FinishedAttempted(d) && AtPassEnd(d)
    ensures FinishedAttempted(PassEnded(d, now))
  {
    var noted := d.(passes := d.passes + [DonePass(d.handle.co.pass.value, now)]);
    MorePassesAttempted(d, noted);
    if d.handle.co.discovery {
      var p, batch := d.handle.co.pass.value, d.queue[0];
      var d' := PassEnded(d, now);
      forall i | 0 <= i < |batch|
        ensures WasAttempted(d', batch[i].eid)
      {
        assert p.attempted == p.eids && p.eids[i] == batch[i].eid;
        assert d'.passes[|d.passes|].pass == p;
      }
      forall b, i | 0 <= b < |d.finished| && 0 <= i < |d.finished[b]|
        ensures WasAttempted(d', d.finished[b][i].eid)
      {
        assert WasAttempted(noted, noted.finished[b][i].eid);
      }
    }
  }

  lemma EmptyBatchAttempts(d: Driver)
    requires FinishedAttempted(d) && d.queue != [] && d.queue[0] == []
    ensures FinishedAttempted(Popped(d))
  {
    forall b, i | 0 <= b < |Popped(d).finished| && 0 <= i < |Popped(d).finished[b]|
      ensures WasAttempted(Popped(d), Popped(d).finished[b][i].eid)
    {
      assert WasAttempted(d, d.finished[b][i].eid);
    }
  }

  lemma StepAttempts(s: System, e: Event)
    requires HandleOk(s.driver) && FinishedAttempted(s.driver) && Enabled(s, e)
    ensures FinishedAttempted(Next(s, e).driver)
  {
    if e.EndOfPass? {
      PassEndAttempts(s.driver, s.engine.now);
    } else if e.LoopHead? && s.driver.queue != [] && s.driver.queue[0] == [] {
      EmptyBatchAttempts(s.driver);
    } else {
      if e.Discovery? {
        PushedAllFrame(s.driver, InfosOf(e.found));
      }
      OtherStepFinishes(s, e);
      MorePassesAttempted(s.driver, Next(s, e).driver);
    }
  }

  lemma OtherStepFinishes(s: System, e: Event)
    requires Enabled(s, e) && !e.EndOfPass? && !(e.LoopHead? && s.driver.queue != [] && s.driver.queue[0] == [])
    ensures Next(s, e).driver.finished == s.driver.finished && Next(s, e).driver.passes == s.driver.passes
  {
    if e.Discovery? {
      PushedAllFrame(s.driver, InfosOf(e.found));
    } else if e.LoopHead? && s.driver.queue != [] {
      assert |EidsOf(s.driver.queue[0])| == |s.driver.queue[0]|;
    }
  }

  /** In every run each endpoint of each finished batch has been attempted in some finished pass. */
  lemma {:induction false} FinishedIsAttempted(config: E.Config, interval: int, mode: S.Mode, events: seq<Event>)
    requires IsRun(Started(config, interval, mode), events)
    ensures FinishedAttempted(After(Started(config, interval, mode), events).driver)
    decreases |events|
  {
    if events != [] {
      var before := events[..|events|-1];
      FinishedIsAttempted(config, interval, mode, before);
      RunIsOk(config, interval, mode, before);
      StepAttempts(After(Started(config, interval, mode), before), events[|events|-1]);
    }
  }

  /** What is reported, without recursion: an endpoint is reported with a code for each position of the list
      at which the result was this code and not success. */
  lemma {:induction false} ReportedExactly(eids: seq<Byte>, codes: seq<Byte>, r: Report)
    requires |codes| <= |eids|
    ensures r in ReportsOf(eids, codes) <==>
            exists i :: 0 <= i < |codes| && r == Report(eids[i], codes[i]) && codes[i] != SUCCESS
    decreases |codes|
  {
    if codes != [] {
      var n := |codes| - 1;
      ReportedExactly(eids, codes[..n], r);
      assert forall i :: 0 <= i < n ==> codes[..n][i] == codes[i];
      if r in ReportsOf(eids, codes[..n]) {
        var i :| 0 <= i < n && r == Report(eids[i], codes[..n][i]) && codes[..n][i] != SUCCESS;
        assert r == Report(eids[i], codes[i]);
      }
      if i :| 0 <= i < |codes| && r == Report(eids[i], codes[i]) && codes[i] != SUCCESS {
        assert i < n ==> r == Report(eids[i], codes[..n][i]);
      }
    }
  }

  lemma {:induction false} LaunchGap(d: Driver, now: int, j: nat, k: nat)
    requires LaunchesOk(d, now) && j <= k < |d.launches|
    ensures d.launches[k] - d.launches[j] >= (k - j) * (d.interval * NANOS_PER_SECOND)
    decreases k
  {
    if j < k {
      LaunchGap(d, now, j, k - 1);
      assert (k - j) * (d.interval * NANOS_PER_SECOND) ==
             (k - 1 - j) * (d.interval * NANOS_PER_SECOND) + d.interval * NANOS_PER_SECOND;
    }
  }

  /** In every run the j-th and the k-th launch after a time change are at least k - j intervals apart, so that
      a window of W seconds that holds them has (k - j) * interval <= W; and the last one is remembered. */
  lemma RateLimit(config: E.Config, interval: int, mode: S.Mode, events: seq<Event>, j: nat, k: nat, window: int)
    requires IsRun(Started(config, interval, mode), events)
    requires j <= k < |After(Started(config, interval, mode), events).driver.launches|
    ensures var launches := After(Started(config, interval, mode), events).driver.launches;
            && launches[k] - launches[j] >= (k - j) * (interval * NANOS_PER_SECOND)
            && (launches[k] - launches[j] <= window * NANOS_PER_SECOND ==> (k - j) * interval <= window)
  {
    RunIsOk(config, interval, mode, events);
    var s := After(Started(config, interval, mode), events);
    LaunchWindow(s.driver, s.engine.now, j, k, window);
  }

  lemma LaunchWindow(d: Driver, now: int, j: nat, k: nat, window: int)
    requires LaunchesOk(d, now) && j <= k < |d.launches|
    ensures var gap := d.launches[k] - d.launches[j];
            && gap >= (k - j) * (d.interval * NANOS_PER_SECOND)
            && (gap <= window * NANOS_PER_SECOND ==> (k - j) * d.interval <= window)
  {
    LaunchGap(d, now, j, k);
    if d.launches[k] - d.launches[j] <= window * NANOS_PER_SECOND {
      WindowBound(k - j, d.interval, window);
    }
  }

  lemma WindowBound(n: int, interval: int, window: int)
    requires n * (interval * NANOS_PER_SECOND) <= window * NANOS_PER_SECOND
    ensures n * interval <= window
  {
    assert n * (interval * 1_000_000_000) == n * interval * 1_000_000_000;
  }

  /** In every run a time change launches a sync if and only if no coroutine is in progress and the interval has
      passed since the last launch, or since the clock's start if there was none. */
  lemma LaunchesExactly(config: E.Config, interval: int, mode: S.Mode, events: seq<Event>,
                        targets: seq<Target>, results: seq<int>)
    requires IsRun(Started(config, interval, mode), events)
    requires Enabled(After(Started(config, interval, mode), events), TimeChange(targets, results))
    ensures var s := After(Started(config, interval, mode), events);
            var d, d', now := s.driver, Next(s, TimeChange(targets, results)).driver, s.engine.now;
            var last := if d.launches == [] then 0 else d.launches[|d.launches|-1];
            && d'.launches == (if !InProgress(d) && now - last >= interval * 1_000_000_000
                               then d.launches + [now] else d.launches)
            && (d'.launches == d.launches ==> d' == d)
  {
    RunIsOk(config, interval, mode, events);
    FirstLaunch(config, interval, mode, events);
  }

  /** Before the first launch the last one is taken to be at the clock's start. */
  lemma {:induction false} FirstLaunch(config: E.Config, interval: int, mode: S.Mode, events: seq<Event>)
    requires IsRun(Started(config, interval, mode), events)
    ensures var d := After(Started(config, interval, mode), events).driver;
            d.launches == [] ==> d.syncLast == 0
    decreases |events|
  {
    if events != [] {
      var before, last := events[..|events|-1], events[|events|-1];
      FirstLaunch(config, interval, mode, before);
      StepRemembersLaunch(After(Started(config, interval, mode), before), last);
    }
  }

  lemma StepRemembersLaunch(s: System, e: Event)
    requires Enabled(s, e)
    ensures var d, d' := s.driver, Next(s, e).driver;
            d'.launches == [] ==> d.launches == [] && d'.syncLast == d.syncLast
  {
    if e.Discovery? {
      PushedAllFrame(s.driver, InfosOf(e.found));
    }
  }

  function PushesOf(infos: seq<Info>): seq<Op> {
    seq(|infos|, i requires 0 <= i < |infos| => Push(infos[i].uuid, EidInfo(infos[i].eid, infos[i].medium)))
  }

  lemma {:induction false} PushedAllOps(d: Driver, infos: seq<Info>)
    ensures PushedAll(d, infos).ops == d.ops + PushesOf(infos)
    decreases |infos|
  {
    if infos != [] {
      var before, last := infos[..|infos|-1], infos[|infos|-1];
      PushedAllOps(d, before);
      assert PushesOf(infos) == PushesOf(before) + [Push(last.uuid, EidInfo(last.eid, last.medium))];
    } else {
      assert PushesOf(infos) == [];
    }
  }

  /** The step reports that the current endpoint does not support the command. */
  ghost predicate ReportsUnsupported(d: Driver, d': Driver) {
    && HasCurrent(d) && InPass(d')
    && var p := d.handle.co.pass.value;
       d'.handle.co.pass.value.reported == p.reported + [Report(p.eids[p.idx], ERR_UNSUPPORTED_CMD)]
  }

  /** The device history grows by one push for each endpoint of a discovery, known or not. Any other step adds
      to it if and only if it reports that the command is unsupported by an endpoint that some device holds:
      then the removal of one that holds it. */
  lemma DeviceHistory(s: System, e: Event)
    requires DriverOk(s.driver, s.engine.now) && Enabled(s, e)
    ensures var d, d' := s.driver, Next(s, e).driver;
            && (e.Discovery? ==> d'.ops == d.ops + PushesOf(InfosOf(e.found)))
            && (!e.Discovery? ==>
                 if ReportsUnsupported(d, d') && exists u :: Holds(d.infoMap, u, CurrentEid(d))
                 then exists u :: Holds(d.infoMap, u, CurrentEid(d)) && d'.ops == d.ops + [Erase(u)]
                 else d'.ops == d.ops)
  {
    if e.Discovery? {
      PushedAllOps(s.driver, InfosOf(e.found));
    } else if e.Attempt? {
      if AttemptCode(s, e) != SUCCESS {
        var d := Attempted(s.driver);
        RecordedHistory(d, AttemptCode(s, e), e.holder);
        assert d.infoMap == s.driver.infoMap && CurrentEid(d) == CurrentEid(s.driver);
        assert ReportsUnsupported(d, Next(s, e).driver) <==> ReportsUnsupported(s.driver, Next(s, e).driver);
      }
    } else if e.Response? {
      if Resumes(s, s.engine.handlers[e.key].ticket) {
        RecordedHistory(s.driver, ResultCode(e.reply), e.holder);
      }
    } else if e.Expire? {
      if Resumes(s, e.ticket) {
        RecordedHistory(s.driver, ERR_GENERAL, e.holder);
      }
    }
  }

  function CurrentEid(d: Driver): Byte
    requires HasCurrent(d)
  {
    d.handle.co.pass.value.eids[d.handle.co.pass.value.idx]
  }

  lemma RecordedHistory(d: Driver, code: Byte, holder: Option<UUID>)
    requires HasCurrent(d) && IsHolder(d.infoMap, CurrentEid(d), holder)
    ensures var d' := Recorded(d, code, holder);
            && (ReportsUnsupported(d, d') <==> code == ERR_UNSUPPORTED_CMD)
            && (holder.Some? <==> exists u :: Holds(d.infoMap, u, CurrentEid(d)))
            && (code == ERR_UNSUPPORTED_CMD && holder.Some? ==>
                 Holds(d.infoMap, holder.value, CurrentEid(d)) && d'.ops == d.ops + [Erase(holder.value)])
            && (!(code == ERR_UNSUPPORTED_CMD && holder.Some?) ==> d'.ops == d.ops)
  {
    var p := d.handle.co.pass.value;
    var reported := Recorded(d, code, holder).handle.co.pass.value.reported;
    assert code != SUCCESS ==> reported[|p.reported|] == Report(p.eids[p.idx], code);
  }

  /** In every run, a sync launched by a time change works on one endpoint of each device that has one pushed
      since its last removal, and on one with the best medium pushed since then. */
  lemma SyncTargetsBestMedia(config: E.Config, interval: int, mode: S.Mode, events: seq<Event>,
                             targets: seq<Target>, results: seq<int>)
    requires IsRun(Started(config, interval, mode), events)
    requires var s := After(Started(config, interval, mode), events);
             Enabled(s, TimeChange(targets, results)) && Launches(s.driver, s.engine.now)
    ensures var s := After(Started(config, interval, mode), events);
            var d := Next(s, TimeChange(targets, results)).driver;
            && (InPass(d) <==> targets != [])
            && (InPass(d) ==>
                 var eids := d.handle.co.pass.value.eids;
                 |eids| == |targets| && forall i :: 0 <= i < |eids| ==> eids[i] == targets[i].info.eid)
            && |targets| == |s.driver.infoMap|
            && (forall u :: EndpointMap.Targeted(targets, u) <==> Reachable(s.driver.ops, u))
            && (forall t :: t in targets ==> PushedSinceErase(s.driver.ops, t.uuid, t.info))
            && (forall t, info :: t in targets && PushedSinceErase(s.driver.ops, t.uuid, info) ==>
                 IsBestOf(t.info.medium, info.medium))
  {
    RunIsOk(config, interval, mode, events);
    BestMediumFanOut(After(Started(config, interval, mode), events).driver.ops, targets);
  }
}
