# Verified model of the MCTP time-sync service and the NTP mirror

The service sets the time of external devices (ERoTs) over MCTP vendor-defined messages. When the clock is set, or
when endpoints are discovered, a coroutine works through a list of endpoints and sends each a timestamp; a request
engine matches requests and responses, retries, and gives up when an identifier expires. Beside it, a manager mirrors
the time-sync setting and systemd's NTP flag into each other.

`dafny verify dfyconfig.toml` checks the project.

## How it is built

| files | what they hold |
|---|---|
| `InstanceIds`, `RetryTimer` | the 32-slot bitset of each endpoint, the retry logic of one request |
| `RequestEngine` | the request engine as a state machine cut at the re-entry points of its callbacks |
| `EngineSafety` | what every run of the engine keeps, failures included |
| `EngineGoodRuns`, `EngineTheorems`, `EngineRetries` | what good runs of the engine keep |
| `EngineExactly` | exactly which events and which runs break it, with runs in which it fails |
| `RequestHandler` | the handler object; each method takes the machine along one of its runs |
| `Sockets`, `EndpointMap` | the socket cache of both handlers, the devices with their best media |
| `SyncDriver` | the sync driver object: coroutine, queue of batches, rate limiter |
| `TimeSyncSystem` | driver, engine and sockets together |
| `DriverTheorems`, `DiscoveredEndpoints` | what every run of the service keeps, failures included |
| `PassResults` | what becomes of an attempt in every run: failed starts, answers, expiries |
| `SystemTheorems`, `OpenSockets` | what good runs of the service keep in either mode, and what their sends go to |
| `PassTiming`, `PassProgress`, `TaskProgress` | passes and tasks end, and end in time |
| `SystemScenario` | a run from start to rest |
| `Wire` | the bytes: header, message, frame, key recovery, hash |
| `NtpMirror` | the mirror between two external stores that signal their changes |

A run is a list of events. What the environment decides is part of an event: the results of send() and of the timer
starts, the descriptor that opening a socket yields, the entry that a scan of an unordered map meets first, when a
timer fires. A response handler that is called back may register requests before it returns, so a callback is two
events with any number of registrations between them, and invariants are proved at these points too.

**Every run** is really every run. **Good runs** of the engine are those in which

- sends and timer starts succeed,
- a response that is not registered does not carry the identifier of a table entry of its endpoint,
- between the expiry of a request and its removal that request is neither answered nor expired again.

The code needs all three: `EngineExactly.RunsExactly` says exactly which runs keep the identifiers accounted for and
every handler called as it should be, `EngineExactly.CalledTwiceExactly` exactly which runs call a handler twice, and
three lemmas give runs in which these results fail.

A good run of the service is one whose engine events are good, in daemon mode or in the kernel, whatever the sockets
do. Only `OpenSockets.NoSendOnClosedSocket` assumes, besides, that a socket that has to be opened opens. In a
**punctual** run timers fire on time and a deferred removal runs before time passes; `PassProgress` shows that this
stops no pass. A **move** is any event but news from outside (a time change, a discovery), a retry, a foreign response,
or an advance of the clock by nothing.

Where the code and its comments differ, the model follows the code:

- `oem/nvidia/handler.hpp:65-72` says that the response handler is called with the empty response on any failure. A
  send or a timer start that fails calls no handler, and the next request's handler is lost
  (`EngineExactly.FailedSendLosesTheNextHandler`).
- `oem/nvidia/socket_handler.hpp:66-70` says that activation returns a negative value on failure. It returns 0 always.
- `oem/nvidia/erot_time_manager.hpp:128-131` says that the time of the last sync is updated by a successful attempt.
  It is updated by every launch, whatever comes of it.
- `oem/nvidia/erot_time_manager.cpp:266-273` looks as if an endpoint that its device holds already were skipped. It is
  pushed again.

## Model

| member | source | states |
|---|---|---|
| `EngineSafety.EveryRunIsSafe` | oem/nvidia/handler.hpp:126-227 | in every state of every run, callbacks included: at most one entry of an endpoint has a running expiry timer, every identifier in use is that of a table entry, every running expiry timer is owned by the entry under the key its callback captured, and the branch that asserts false has not been reached |
| `EngineSafety.StepIsSafe` | oem/nvidia/handler.hpp:120-315 | each event of the engine keeps these, with failed sends, foreign responses and the removal window |
| `EngineTheorems.ExactlyOnceCompletion` | oem/nvidia/handler.hpp:126-172 | in every good run each registered handler has been called exactly once, with a response to its own key or with the empty response, unless its entry waits in the table: then not yet |
| `EngineTheorems.IdAccounting` | oem/nvidia/handler.hpp:305-315 | in every good run the identifiers in use are exactly those of the table entries, these are distinct and at most 32 per endpoint, and the next registration does not meet its key in the table |
| `EngineTheorems.WorkConservation` | oem/nvidia/handler.hpp:175-227 | in every good run a pending removal names an entry of the table, and between events an endpoint with a live request and no pending removal has a running one |
| `EngineTheorems.Drain` | oem/nvidia/handler.hpp:238-315 | without further registrations n requests of an endpoint are finished by exactly n rounds, an answer or an expiry with its removal each, whatever entries the scans pick; then none is left and each handler was called once |
| `EngineTheorems.NextRoundIsInReach` | oem/nvidia/handler.hpp:175-315 | while requests of an endpoint are left, its removal can run or the expiry of a live one can be dispatched after some time |
| `EngineExactly.AccountingExactly` | oem/nvidia/handler.hpp:206-267 | from a good state an event keeps the identifiers equal to those of the table if and only if it starts no request that fails and is no foreign response with an identifier in use |
| `EngineExactly.CallsExactly` | oem/nvidia/handler.hpp:134-151 | from a good state an event keeps every handler called exactly once, or not yet while its entry waits, if and only if it does not answer or expire a request that waits for its removal |
| `EngineExactly.RunsExactly` | oem/nvidia/handler.hpp:120-315 | a run, whatever fails in it, keeps in all its states the identifiers equal to those of the table and the handlers called as they should be if and only if each of its events starts no request that fails, is no foreign response with an identifier in use, and does not answer or expire a request that waits for its removal |
| `EngineExactly.AtMostOnceExactly` | oem/nvidia/handler.hpp:134-151 | from any safe state, after any failures, an event keeps every handler called at most once if and only if it does not answer or expire an entry whose handler has been called |
| `EngineExactly.CalledTwiceExactly` | oem/nvidia/handler.hpp:134-151 | a run, with failed sends and foreign responses, calls no handler twice if and only if none of its events answers or expires an entry whose handler has been called |
| `EngineExactly.CalledBackWaits` | oem/nvidia/handler.hpp:146-151 | in every run an entry whose handler has been called waits for its removal |
| `EngineExactly.ScanCode` | oem/nvidia/handler.hpp:202-226 | the code of a scan is 0 if and only if it picks nothing or the picked entry's expiry timer runs after it; otherwise it is the code of the failed send, -1 for the retry timer or 1 for the expiry timer, and the identifier is free |
| `EngineExactly.ScanEffect` | oem/nvidia/handler.hpp:175-227 | whatever its code, a scan sends the picked entry once, on its descriptor, and changes no other; its retry timer stays on even when the expiry timer does not start; the expiry timer gets the full interval |
| `EngineExactly.ExpiryStopsBoth` | oem/nvidia/handler.hpp:126-146 | in every run an expiry, never early, calls the handler of the entry under the captured key with the empty response, leaves both timers of the entry off, and touches no other entry, timer or registration |
| `EngineExactly.LostHandlersAreNeverCalled` | oem/nvidia/handler.hpp:169-172 | in every run a registration that met its key in the table never has its handler called |
| `EngineExactly.FailedSendLosesTheNextHandler` | oem/nvidia/handler.hpp:206-211 | for every endpoint, request and error: after a failed send the next registration gets the same key, is not put into the table and loses its handler |
| `EngineExactly.ForeignResponseLosesTheNextHandler` | oem/nvidia/handler.hpp:261-267 | so does the registration after a foreign response of another command that carries the identifier of the outstanding request |
| `EngineExactly.LateResponseCallsTwice` | oem/nvidia/handler.hpp:146-151 | a response that arrives between the expiry of its request and the pending removal calls the handler again, after the empty response |
| `EngineRetries.LiveSendsAreBounded` | oem/nvidia/handler.hpp:163-165 | in every good run no request is sent more than once plus its retries while its handler has not been called, through scans and restarts; while it runs its sends and the retries left add up to that, with its retry timer on if it was given retries, until the tick that wraps turns it off; before it runs it has not been sent |
| `EngineRetries.NoRetryAfterExpiry` | oem/nvidia/handler.hpp:136-142 | in every good run an entry whose expiry timer does not run, such as one that waits for its removal and has not been restarted, has its retry timer off: it cannot be retried |
| `RequestHandler.Handler.RunRegisteredRequest` | oem/nvidia/handler.hpp:175-227 | the scan, in any order of the map, ends with nothing to run or with an entry of an endpoint that has none running, and starts that one |
| `RequestHandler.Handler.StartRequest` | oem/nvidia/handler.hpp:202-226 | the entry is sent and its expiry timer armed, or its identifier freed with the entry left |
| `RequestHandler.Handler.RegisterRequest` | oem/nvidia/handler.hpp:120-173 | for any key, allocated or not: the request goes into the table unless its key is there, with the descriptor the socket table has, and the scan follows |
| `RequestHandler.Handler.SendRequest` | oem/nvidia/erot_time_manager.cpp:179-194 | allocation and registration are one event of the machine; it fails, changing nothing, if and only if all identifiers of the endpoint are taken |
| `RequestHandler.Handler.CallBack` | oem/nvidia/handler.hpp:384-387 | a response handler that registers requests takes the machine through one registration event for each, in order, leaving out those without a free identifier |
| `RequestHandler.Handler.HandleResponse` | oem/nvidia/handler.hpp:238-269 | a response is a run of the machine: the handler's call after the erasure, what the handler does, the scan; or a foreign response |
| `RequestHandler.Handler.InstanceIdExpired` | oem/nvidia/handler.hpp:126-161 | an expiry is a run of the machine: the handler's call with the entry in the table, what the handler does, the deferred removal |
| `RequestHandler.Handler.RemoveRequestEntry` | oem/nvidia/handler.hpp:305-315 | the deferred removal is one event of the machine |
| `RequestHandler.Handler.RetryTimeout` | oem/nvidia/request.hpp:110-120 | a retry tick is one event of the machine |
| `InstanceIds.LowestFree` | oem/nvidia/instance_id.hpp:25-40 | the least identifier not in use, none if and only if all are in use |
| `InstanceIds.InstanceId.Next` | oem/nvidia/instance_id.hpp:25-40 | takes the lowest clear bit and changes no other, or fails when all are set |
| `InstanceIds.InstanceId.MarkFree` | oem/nvidia/instance_id.hpp:45-48 | clears one bit |
| `InstanceIds.InstanceIdMgr.GetInstanceId` | oem/nvidia/instance_id.hpp:65-85 | takes the least free identifier of the endpoint and leaves the bitsets of all others |
| `InstanceIds.InstanceIdMgr.MarkFree` | oem/nvidia/instance_id.hpp:92-95 | frees one identifier of one endpoint, creating its bitset if there is none |
| `RetryTimer.RequestRetryTimer.Start` | oem/nvidia/request.hpp:60-83 | sends once; arms the timer if the send succeeded and retries are left |
| `RetryTimer.RequestRetryTimer.Stop` | oem/nvidia/request.hpp:86-94 | disarms the timer and changes nothing else |
| `RetryTimer.RequestRetryTimer.Callback` | oem/nvidia/request.hpp:110-120 | sends and counts down, or at zero wraps the 8-bit counter, sends nothing and disarms the timer |
| `RetryTimer.RetryBound` | oem/nvidia/request.hpp:60-120 | after a successful start of a request with N retries, whatever ticks and stops follow: between 1 and N+1 sends, sends plus retries is N+1 until the tick that wraps, which sends nothing; the timer is armed exactly until that tick or a stop, if N is not 0 |
| `RetryTimer.RetriesHappen` | oem/nvidia/request.hpp:60-120 | for every k up to N there is a run with k ticks and k+1 sends, and one with the tick that wraps |
| `RetryTimer.SendsByExpiry` | oem/nvidia/handler.hpp:99-103 | with period T at most 1 + min(N, X / T) sends happen up to an expiry at X |
| `RetryTimer.RestartAfterWrapSendsMore` | oem/nvidia/request.hpp:110-120 | a request started again after the wrap is armed with 255 retries |
| `Sockets.SocketManager.RegisterEndpoint` | oem/nvidia/socket_manager.hpp:34-37 | enters or replaces the descriptor of one endpoint |
| `Sockets.SocketManager.GetSocket` | oem/nvidia/socket_manager.hpp:46-49 | the descriptor of the endpoint; a missing entry is created with descriptor 0 |
| `Sockets.SocketManager.ClearMctpEndpoints` | oem/nvidia/socket_manager.hpp:54-57 | no entry is left |
| `Sockets.SocketHandler.RegisterMctpEndpoint` | oem/nvidia/socket_handler.hpp:57-64 | only the first registration of an endpoint counts |
| `Sockets.SocketHandler.InitSocket` | oem/nvidia/socket_handler.cpp:38-89 | the daemon's opens and caches a socket, the in-kernel one opens a single socket once |
| `Sockets.SocketHandler.ActivateSockets` | oem/nvidia/socket_handler.hpp:71-98 | the whole new state of both handlers; the return value is 0 whatever fails |
| `Sockets.SocketHandler.DeactivateSockets` | oem/nvidia/socket_handler.hpp:101-105 | both maps are empty, the registrations stay |
| `Sockets.SocketCacheAgreement` | oem/nvidia/socket_handler.hpp:57-105 | in every run of the daemon's handler: at most one open socket per path; each endpoint activated since the last deactivation has the descriptor cached for the path of its first mention; endpoints with the same path share it; a deactivation leaves no open socket and both maps empty |
| `Sockets.FirstMentionIsKept` | oem/nvidia/socket_handler.hpp:57-77 | in every run of either handler an endpoint is known from its first mention on, and keeps what that made of it |
| `Sockets.FirstRegistrationCounts` | oem/nvidia/socket_handler.hpp:60-77 | in either mode an endpoint keeps the data of its first registration if and only if it was not activated before, or that data is the default |
| `Sockets.ActivateReaches` | oem/nvidia/socket_handler.hpp:71-98 | in either mode, when the sockets that are needed open, every listed endpoint has a descriptor |
| `Sockets.ReachedExactly` | oem/nvidia/socket_handler.hpp:71-98 | an activation gives a descriptor to exactly those endpoints whose path is cached, or whose socket opens, at some of their positions in the list |
| `Sockets.OneKernelSocket` | oem/nvidia/socket_handler.cpp:155-215 | in every run of the in-kernel handler the socket, once open, stays the one, the path cache stays empty, and every live endpoint has this socket's descriptor |
| `EndpointMap.TopExists` | oem/nvidia/erot_time_manager.hpp:34-38 | a device's queue that is not empty has a top, an element that no other precedes |
| `EndpointMap.MapOfHistory` | oem/nvidia/erot_time_manager.cpp:258-281 | a device's queue holds exactly the pairs pushed since its last removal and is never empty |
| `EndpointMap.MultiplicityOfHistory` | oem/nvidia/erot_time_manager.cpp:258-281 | a device's queue holds each pair as often as it was pushed since the last removal, duplicates included |
| `EndpointMap.BestMediumFanOut` | oem/nvidia/erot_time_manager.hpp:21-37 | whatever was pushed and removed, the targets are one endpoint per device in the map; one on SMBus only if nothing else was pushed for its device since the last removal, one on USB only if nothing but USB and SMBus, and so on through I3C and SPI to PCIe |
| `SyncDriver.ErotTimeManager.CollectTargets` | oem/nvidia/erot_time_manager.cpp:116-120 | one top per device, each device once, in any order |
| `SyncDriver.ErotTimeManager.HandleTimeChange` | oem/nvidia/erot_time_manager.cpp:71-132 | launches a sync of the targets if and only if the interval has passed and no coroutine is in progress; otherwise changes nothing |
| `SyncDriver.ErotTimeManager.PushInfo` | oem/nvidia/erot_time_manager.cpp:263-280 | one more copy of the pair in its device's queue, known or not |
| `SyncDriver.ErotTimeManager.HandleMctpEndpoints` | oem/nvidia/erot_time_manager.cpp:254-312 | pushes every endpoint, queues the batch, and starts a task unless a coroutine is in progress |
| `SyncDriver.ErotTimeManager.NextBatch` | oem/nvidia/erot_time_manager.cpp:234-250 | turns to the oldest batch, with its endpoints copied, or ends the task when the queue is empty |
| `SyncDriver.ErotTimeManager.BeginAttempt` | oem/nvidia/erot_time_manager.cpp:152-154 | the loop attempts the endpoint at its index |
| `SyncDriver.ErotTimeManager.Suspend` | oem/nvidia/erot_time_manager.cpp:192-194 | the coroutine waits for the registered request |
| `SyncDriver.ErotTimeManager.FindHolder` | oem/nvidia/erot_time_manager.cpp:319-334 | a device that holds the endpoint, none if and only if no device does |
| `SyncDriver.ErotTimeManager.RecordResult` | oem/nvidia/erot_time_manager.cpp:152-162 | advances the loop, reports an error, and removes the endpoint's device when the command is unsupported |
| `SyncDriver.ErotTimeManager.EndPass` | oem/nvidia/erot_time_manager.cpp:164-166 | a sync is over; a task takes its batch off the queue and goes on |
| `DriverTheorems.StepIsOk` | oem/nvidia/erot_time_manager.cpp:71-411 | each event of the service keeps the invariants of the driver, with every failure |
| `DriverTheorems.OneCoroutineAtATime` | oem/nvidia/erot_time_manager.cpp:98-126 | in every run at most one coroutine has been created and is not finished, the one of the handle |
| `DriverTheorems.EnqueuedIsAllBatches` | oem/nvidia/erot_time_manager.cpp:282-282 | every run enqueues the batches of its discovery events, in order |
| `DriverTheorems.QueueConservation` | oem/nvidia/erot_time_manager.cpp:213-251 | in every run finished batches followed by the queue are all batches delivered, in order; a task turns to the oldest unfinished one, and the list it works on has that batch's endpoints position by position |
| `DriverTheorems.FinishedIsAttempted` | oem/nvidia/erot_time_manager.cpp:234-248 | in every run each endpoint of each finished batch has been attempted in some finished pass |
| `DriverTheorems.TaskLeavesNothing` | oem/nvidia/erot_time_manager.cpp:234-250 | in every run a task ends with all batches delivered so far finished, those that arrived while it ran included |
| `DriverTheorems.QueueBetweenTasks` | oem/nvidia/erot_time_manager.cpp:282-311 | in every run, whenever no task is in progress, the queue is exactly the batches delivered since the last task ended; it is not empty if and only if one of them came during a sync or when the time could not be obtained |
| `DriverTheorems.PassCompleteness` | oem/nvidia/erot_time_manager.cpp:152-162 | in every run, with any failures, a finished pass has attempted each listed endpoint once and in order, got one result for each and reported exactly the errors |
| `DriverTheorems.ReportedExactly` | oem/nvidia/erot_time_manager.cpp:155-161 | an endpoint is reported with a code if and only if its result at some position of the list was this code and not success |
| `DriverTheorems.RateLimit` | oem/nvidia/erot_time_manager.cpp:85-107 | in every run the j-th and k-th launch are at least k - j intervals apart, so a window of W seconds that holds both has (k - j) intervals within W |
| `DriverTheorems.LaunchesExactly` | oem/nvidia/erot_time_manager.cpp:87-129 | in every run a time change launches a sync if and only if no coroutine is in progress and at least the interval has passed since the last launch; otherwise it changes nothing |
| `DriverTheorems.DeviceHistory` | oem/nvidia/erot_time_manager.cpp:399-405 | the devices change by one push for each discovered endpoint; any other step changes them if and only if it reports the command as unsupported by an endpoint that some device holds, and then removes one that holds it |
| `DriverTheorems.SyncTargetsBestMedia` | oem/nvidia/erot_time_manager.cpp:116-121 | in every run a launched sync works, position by position, on one endpoint of each device with a pair pushed since its last removal, and on the best medium among these |
| `PassResults.AttemptExactly` | oem/nvidia/handler.hpp:375-398 | in every run an attempt registers a timestamp request to the current endpoint; the coroutine waits for it unless the start that follows fails; then the code of the failure modulo 256 is the endpoint's result, reported, and the coroutine runs on with the next, except that it waits if that is 0 |
| `PassResults.AnswerExactly` | oem/nvidia/erot_time_manager.cpp:195-210 | in every run an answer to the awaited request gives the endpoint its one payload byte as result, 3 for a longer payload, 1 for none; success is the byte 0 alone, anything else is reported, and a device goes if and only if the byte is 5 and some device holds the endpoint; any other answer leaves the driver alone |
| `PassResults.ExpiryExactly` | oem/nvidia/handler.hpp:426-441 | in every run the expiry of the awaited request gives the endpoint the result 1, reported; any other expiry leaves the driver alone |
| `PassResults.ExhaustionExactly` | oem/nvidia/erot_time_manager.cpp:179-179 | in every run an endpoint without a free identifier is passed over with result 0 and no report |
| `PassResults.PassBeginsNow` | oem/nvidia/erot_time_manager.cpp:152-154 | in every run a pass begins at its first endpoint, with nothing attempted |
| `DiscoveredEndpoints.RegisteredBeforeActivated` | oem/nvidia/mctp_endpoint_discovery.cpp:170-176 | in every run an endpoint that is activated has been registered before, and has the data of its first discovery |
| `SystemTheorems.EngineRefined` | oem/nvidia/handler.hpp:375-398 | what the engine does in a run of the service is a run of the engine with the same result |
| `SystemTheorems.StepIsGood` | oem/nvidia/erot_time_manager.cpp:134-210 | each good event, in either mode and whatever the sockets do, keeps the link between the suspended coroutine and its one live request |
| `SystemTheorems.SingleFlight` | oem/nvidia/handler.hpp:375-398 | in every good run, in either mode, at most one entry over all endpoints is neither completed nor pending removal; it is the request the suspended coroutine waits for, and a suspended coroutine has one |
| `OpenSockets.NoSendOnClosedSocket` | oem/nvidia/erot_time_manager.cpp:144-165 | in every good run in which the sockets open, a first send or retry of a live request goes, during a pass, to its current endpoint, with the registered descriptor: in daemon mode that of the open socket cached for the endpoint's path, in the kernel that of the single socket |
| `OpenSockets.SendsOnSocketOrZero` | oem/nvidia/handler.hpp:163-165 | in every good run, whatever the sockets do, a first send or retry of a live request goes during a pass to its current endpoint: on this endpoint's open socket if the endpoint is live, on descriptor 0 if not |
| `OpenSockets.LiveIsReached` | oem/nvidia/erot_time_manager.cpp:143-165 | during a pass exactly those endpoints are live that the activation at its beginning reached |
| `SystemTheorems.LiveIsArmed` | oem/nvidia/handler.hpp:213-217 | between events with no removal pending, the request the coroutine waits for has its expiry timer armed |
| `PassTiming.StepKeepsDeadlines` | oem/nvidia/handler.hpp:213-217 | no event moves the deadline of a running expiry timer, and one that an event starts gets the full interval |
| `PassTiming.PassTimeBound` | oem/nvidia/erot_time_manager.cpp:152-165 | in every punctual good run, in either mode and whatever the sockets do, a pass over n endpoints takes at most n expiry intervals |
| `PassProgress.PassIsNeverStuck` | oem/nvidia/erot_time_manager.cpp:152-165 | in no state of a punctual good run is a pass stuck: some move can be taken |
| `PassProgress.EveryStepNears` | oem/nvidia/erot_time_manager.cpp:152-165 | every step of a punctual good run in mid-pass ends the pass, or leaves it going on, no farther from its end and within the same time, and nearer to it if the step is a move |
| `PassProgress.EveryPassEnds` | oem/nvidia/erot_time_manager.cpp:152-165 | in every punctual good run without end, whatever the environment chooses, every pass is finished, within one expiry interval for each endpoint left, as long as moves do not cease while there is a pass |
| `TaskProgress.PassEnds` | oem/nvidia/erot_time_manager.cpp:152-165 | every punctual good run in mid-pass can be continued to one in which this pass is finished, within n expiry intervals for its n endpoints |
| `TaskProgress.TaskEnds` | oem/nvidia/erot_time_manager.cpp:234-250 | every punctual good run with a discovery task in progress can be continued to one in which the task has ended with every delivered batch finished, within one expiry interval for each endpoint still due |
| `SystemScenario.SilentEndpointIsReported` | oem/nvidia/erot_time_manager.cpp:213-251 | for every configuration and either mode a punctual good run with open sockets discovers an endpoint that never answers, reports it when the bound on its pass is reached exactly, and comes to rest with nothing left |
| `Wire.BigEndianRoundTrip` | oem/nvidia/erot_time_manager.cpp:184-187 | a number that fits the width is read back from its big-endian bytes |
| `Wire.FromBigEndianRoundTrip` | oem/nvidia/erot_time_manager.cpp:184-187 | bytes are written back from the number they stand for |
| `Wire.HeaderRoundTrip` | oem/nvidia/types.hpp:55-73 | every header is read back from its eight bytes, whatever follows |
| `Wire.HeaderIsLossless` | oem/nvidia/types.hpp:55-73 | every eight bytes are the encoding of the header read from them |
| `Wire.BuildTimestampRequest` | oem/nvidia/erot_time_manager.cpp:172-187 | filling the zeroed buffer field by field gives the encoded header followed by the big-endian timestamp |
| `Wire.RequestRoundTrip` | oem/nvidia/erot_time_manager.cpp:172-187 | decoding the message returns number, identifier, type, command, version and timestamp, for every identifier and every 64-bit timestamp |
| `Wire.RequestBytes` | oem/nvidia/erot_time_manager.cpp:177-182 | the literal first eight bytes of a request |
| `Wire.FrameBytes` | oem/nvidia/request.hpp:172-178 | the literal three bytes before it in its daemon frame |
| `Wire.DeliveredExactly` | oem/nvidia/socket_handler.cpp:124-140 | a frame is delivered if and only if its third byte is 0x7F and the request bit of its message is clear; its key and reply by their byte positions |
| `Wire.KeyRecovery` | oem/nvidia/socket_handler.cpp:21-35 | a framed response is delivered under the registered key if and only if it comes from that endpoint with the request bit clear and echoes identifier, type and command |
| `Wire.HashIsInjective` | oem/nvidia/handler.hpp:53-60 | different keys have different hashes; the hash is the big-endian number of the four fields, sign-extended for endpoints from 128 on |
| `NtpMirror.TimeManager.constructor` | manager.cpp:28-43 | the stored setting is forced on systemd once |
| `NtpMirror.TimeManager.OnPropertyChanged` | manager.cpp:45-65 | writes the flag and takes the mode over if forced or if the mode differs, otherwise nothing |
| `NtpMirror.TimeManager.OnSettingsChanged` | manager.cpp:67-85 | handles each property of the signal in turn |
| `NtpMirror.TimeManager.OnTimedateChanged` | manager.cpp:87-131 | writes the setting and takes the mode over if the flag differs from the mode; a signal without the flag is rejected |
| `NtpMirror.TimeManager.UpdateNtpSetting` | manager.cpp:133-151 | sends one flag write |
| `NtpMirror.TimeManager.SetCurrentTimeMode` | manager.cpp:153-171 | takes the mode over, leaves it for a string that names none, and tells whether it changed |
| `NtpMirror.SignalExactly` | manager.cpp:79-82 | a settings signal leaves the mode of its last value that names one, with one flag write for each value that differs from the mode held by then, and none to the setting |
| `NtpMirror.EchoIsIgnored` | manager.cpp:50-64 | a settings signal of one value changes nothing if and only if the value agrees with the mode; otherwise the flag is written with what it says |
| `NtpMirror.StepSettles` | manager.cpp:45-131 | each delivery or application brings the mirror nearer to rest, and each change by others costs at most one write, two for a string that names no mode |
| `NtpMirror.Convergence` | manager.cpp:45-131 | over every run in which others change a store only when nothing is queued, every quiet state has setting, flag and mode in agreement, with at most one write per change, and one more for a string that names no mode |
| `NtpMirror.Settles` | manager.cpp:45-131 | after a change at most five steps are left, and until they are done one is enabled |
| `NtpMirror.StartupExactly` | manager.cpp:38-43 | starting leads to agreement if and only if it is not the case that the stored string names no mode while the manager assumes NTP and systemd has it off |
| `NtpMirror.OverlappingChangesEcho` | manager.cpp:45-131 | two changes of the setting in a row come back as the same two signals, four writes later |

## Left out

- D-Bus calls, event log, inventory lookup, the epoch, settings and utility sources and the HMC time sync: I/O. Only whether the time could be obtained is kept, since the task branches on it.
- System calls, sd_event and timer internals: a timer fires only while it is armed and never early; opening a socket yields a negative value or a descriptor that is not open.
- Coroutine frames, handles and references to destroyed objects: not part of this model. An awaiter whose registration failed is not resumed by a late call, and a pass that runs off the end of its coroutine returns.
- An exhausted set of identifiers throws inside a coroutine that swallows exceptions and has result 0: modelled as an attempt without a request and with result success.
- The objects `RequestHandler.Handler`, `SyncDriver.ErotTimeManager` and `Sockets.SocketHandler` are each proved against specification functions, and `TimeSyncSystem` composes these functions, not the objects: aliasing between the objects is not captured.
- The timers and the retry counter of a request are part of its table entry by value: that the source holds them by owning pointer is not captured.
- What a response handler does when it is called is, in `RequestHandler`, a parameter: the requests that it sends. In `TimeSyncSystem` it is the resumed coroutine.
- A medium that is not one of the five names throws in the source; it is not part of this model. Neither are network identifiers and the socket type and protocol beyond being kept.
- Uniqueness of an endpoint within a device, and any order or fairness between requests of one endpoint: the code promises neither.
- Frames and messages that are too short to hold a header and one payload byte. The tag byte of the daemon frame is a parameter, since the constants of libmctp are not part of this model.
- The in-kernel frame, whose address travels outside the message.
- The setting's property name, which the source asserts, and D-Bus writes that fail.
- The mirror under changes that overlap: `NtpMirror.OverlappingChangesEcho` shows that it need not come to rest.
- PassProgress.EveryPassEnds: that moves do not cease is assumed, since the fairness of sd_event is not part of this model.
- The value of the elapsed time that a pass sends.
- PassTiming.PassTimeBound: the retry period plays no part, since a pass is bounded by expiries alone; `RetryTimer.SendsByExpiry` relates period and expiry for one request.
