# ws-proto: a verified model of the runtime

ws-proto runs gRPC-style streams over one WebSocket. Its core is a multiplexer with
per-stream credit windows, written twice: in Go (`wsrpc/`) and in TypeScript
(`packages/ws-proto-transport/src`). This project models both runtimes in Dafny and proves
what they keep over every run.

Each component has two layers. A value layer gives one function per critical section,
channel operation or event-loop turn, and a `Step` that interleaves them; the theorems
quantify over all event sequences. A class layer holds the same state in fields that its
methods update in place, with the source's loops, and every method is proved to do what
the function does. In the components that have both layers, a `Dispatch` method carries
out any event of the value layer on the objects and a `Replay` method any run of them, so
the theorems about runs are theorems about the objects.

| file | what it models |
|---|---|
| `Frames.dfy` | frames, statuses, uint32 arithmetic, byte counts |
| `GoStream.dfy` | the locked sections of `wsrpc/stream.go` and the class `Stream` |
| `CreditFlow.dfy` | one stream direction end to end: sender, FIFO wire, receiver, credit wire |
| `SharedWire.dfy` | many such streams over one pair of shared FIFO wires |
| `StreamSync.dfy` | parked Send and Recv, wakeups, racing terminal paths |
| `GoMux.dfy` | frame routing over heap `Stream` objects, and over runs |
| `GoRuntime.dfy` | the Go mux and the streams its users hold, as shared heap objects that refine `GoMux` |
| `ServerRegistry.dfy` | the registry between the read loop and returning handlers |
| `Reconnect.dfy` | the Go reconnect controller, parked NewStream callers, Close |
| `AsyncQueue.dfy` | the pull queue of `queue.ts` |
| `TsStream.dfy`, `TsMux.dfy`, `TsLog.dfy` | the TypeScript stream and mux as values, and the frames they write |
| `TsClient.dfy` | the TypeScript stream and mux as objects that refine `TsMux` |
| `TsFlow.dfy` | one stream direction towards the TypeScript receiver, end to end |
| `Backoff.dfy` | the capped doubling and the jitter of both runtimes |
| `Supervisor.dfy` | the dial/retry/pause state machine of `transport.ts` |

Where the code does not meet what its documentation or its neighbours suggest, the model
follows the code, a theorem gives the exact condition, and a run from the initial state
shows the failing side (inside the theorem, or in the lemma named last):

- A sender that respects its window is reset by the receiver in some run exactly when its
  window exceeds the receiver's by two or more. This holds of the Go receiver
  (`CreditFlow.FalseResetIff`) and of the TypeScript one (`TsFlow.FalseResetIff`), whose
  checks differ. The comments at `wsrpc/stream.go:477-484` and
  `packages/ws-proto-transport/src/mux.ts:423-430` say never; nothing makes both ends use
  the same window.
- A stream stalls for good in some run exactly when the sender's window is below the
  receiver's flush threshold, or a coalesced delta can pass uint32 (`CreditFlow.StallIff`,
  `TsFlow.StallIff`).
- Credit is lost exactly when a coalesced delta can pass uint32
  (`CreditFlow.ConservationIff`, `TsFlow.ConservationIff`). Go truncates such a delta. What
  the TypeScript encoding library does with it is not part of this model: both truncating
  and rejecting are covered, and only rejecting can make recv fail.
- `signalEnd` closes `ended` and broadcasts outside the mutex. A sender can miss the
  broadcast exactly when it is between its check and its wait (`BroadcastMissedIff`). Seen
  from the arrival of the frame: exactly when nothing is recorded or cancelled yet and no
  sender is parked already (`SignalEndMissedIff`, `MissHappens`). The other wakers cannot
  be missed (`NoLostWakeup`).
- After a terminal frame the results of all later receives are fixed exactly when the peer has not
  half-closed, or the frame is a clean end (`FrameOutcomeStableIff`, `PreemptionHappens`).
- A handler's deferred `remove(id)` can unregister a newer stream exactly when the peer
  reuses an id whose handler still runs (`OwnRemovesIff`, `ReuseHappens`).
- `closeSend` of the TypeScript stream writes HALF_CLOSE at once. Payloads still waiting
  for credit follow it on the wire, unlike the flow at `README.md:39-40`
  (`HalfCloseLastIff`, `WaitingCloseHappens`).
- The TypeScript jitter keeps the documented range exactly for whole-millisecond caps
  (`TsDelayWithinIff`).
- Streams of one mux are independent throughout a run exactly when the stream cap turns
  no OPEN of the run away (`IndependentIff`, `RefusalHappens`).
- Every pull of a TypeScript queue gets what the producer side alone determines exactly
  when no failure follows a clean end that has already settled a pull
  (`PullsGetPushesIff`, `LateFailureHappens`).

## Model

| member | source | states |
|---|---|---|
| `GoStream.Stream.TrySend` | wsrpc/stream.go:188-236 | one pass of SendRaw under the lock: reserve when the window is positive, else the terminal error, else wait; the new state in full |
| `GoStream.Stream.TakeCredit` | wsrpc/stream.go:270-296 | coalesced credit and the uint32 delta that goes on the wire |
| `GoStream.Stream.Deliver` | wsrpc/stream.go:485-500 | false exactly on a non-empty backlog above the window; a cancelled stream drops the payload |
| `GoStream.Stream.Signal` | wsrpc/stream.go:514-522 | the terminal frame is kept only if nothing ended the stream before |
| `GoStream.Stream.Apply` | wsrpc/stream.go:452-463 | records the frame's status, keeps trailers when the frame has none, cancels |
| `GoStream.Stream.ReceiveEnded` | wsrpc/stream.go:381-411 | backlog first, then the outcome of the frame, else of the recorded status |
| `GoStream.DeliverKeepsAccount` | wsrpc/stream.go:477-500 | delivery keeps the exact byte count and the bound window plus one payload |
| `GoStream.PopKeepsAccount` | wsrpc/stream.go:300-311 | popping keeps the exact byte count and the bound |
| `CreditFlow.DeliveryInOrder` | wsrpc/stream.go:342-411 | over every run: received is a prefix of sent; EOF only after all payloads before HALF_CLOSE; the final status only after all payloads, and it is the sender's |
| `CreditFlow.WindowForbidsReset` | wsrpc/stream.go:477-500 | at every reachable arrival, a sender window of at most the receiver's plus one cannot trip the overflow check |
| `CreditFlow.NeverReset` | wsrpc/stream.go:477-500 | hence no run ever resets such a stream |
| `CreditFlow.FalseResetIff` | wsrpc/stream.go:477-500 | some run resets a window-respecting sender if and only if ws >= wr + 2 |
| `CreditFlow.StepKeepsInv` | wsrpc/stream.go:188-311 | every step keeps the joint invariant, and the ledger unless the account step wraps |
| `CreditFlow.AccountMoney` | wsrpc/stream.go:270-296 | the one step that can lose credit does so if and only if it flushes a total of 2^32 or more |
| `CreditFlow.Conservation` | wsrpc/stream.go:188-311 | over every run: window + reserved + on the wire + backlog + in hand + pending + returning = initial window |
| `CreditFlow.ConservationIff` | wsrpc/stream.go:270-296 | the ledger balances in all runs with payloads up to m if and only if no coalesced total that gets flushed can reach 2^32, for all windows |
| `CreditFlow.InternalRunsEnd` | wsrpc/stream.go:188-311 | every schedule of non-sending steps is finite, with an explicit bound |
| `CreditFlow.QuietWindow` | wsrpc/stream.go:267-296 | once everything is worked off, less than the threshold is missing from the window |
| `CreditFlow.BlockedSendResumes` | wsrpc/stream.go:163-214 | with ws at least the threshold, a blocked sender always has an enabled step ahead and finitely many of them |
| `CreditFlow.StallIff` | wsrpc/stream.go:267-296 | for all windows and payload sizes: a stall is reachable if and only if ws is below the receiver's threshold or a flushed total can reach 2^32 |
| `CreditFlow.StalledForever` | wsrpc/stream.go:192-201 | after a stall no payload is ever accepted again |
| `SharedWire.RunProjects` | wsrpc/mux.go:212-325 | stream by stream, every run over shared wires is a CreditFlow run with the same payloads |
| `SharedWire.SharedDelivery` | wsrpc/stream.go:342-411 | whatever the other streams on the wires do: received is a prefix of sent, EOF and the final status come only after the payloads |
| `SharedWire.SharedConservation` | wsrpc/stream.go:188-311 | each stream's window is conserved, its share of both wires included |
| `SharedWire.SharedFalseResetIff` | wsrpc/stream.go:477-500 | on shared wires some run resets a window-respecting sender of this stream if and only if its ws >= wr + 2 |
| `SharedWire.QuietNetQuietLinks` | wsrpc/pipe.go:20-77 | nothing is stuck behind other streams: when the whole connection is quiet, every stream is |
| `SharedWire.SharedStallIff` | wsrpc/stream.go:267-296 | a stream can stall on shared wires if and only if it can stall alone: other streams neither cause nor prevent it |
| `SharedWire.SharedStalledForever` | wsrpc/stream.go:192-201 | such a stall is permanent whatever the other streams do |
| `StreamSync.NoLostWakeup` | wsrpc/stream.go:188-256 | over every interleaving: no receiver parked beside a backlog without its token coming, no sender parked beside credit or a status without its broadcast coming |
| `StreamSync.SignalEndMissedIff` | wsrpc/stream.go:512-522 | for every reachable state in which END or RST arrives first: some continuation leaves a sender parked after the broadcast if and only if no status is recorded, nothing is cancelled and no sender is parked yet |
| `StreamSync.BroadcastMissedIff` | wsrpc/stream.go:216-256 | for every reachable state about to broadcast: the broadcast can be missed if and only if a sender is between its check and its wait |
| `StreamSync.MissHappens` | wsrpc/stream.go:512-522 | an END right after the stream is opened can be missed |
| `StreamSync.MissedSenderStaysParked` | wsrpc/stream.go:216-236 | that sender stays parked in every run without a failWith or an applyEnd |
| `StreamSync.EndFrameStays` | wsrpc/stream.go:514-522 | whoever passes endOne first decides the terminal frame for good |
| `StreamSync.SealedRuns` | wsrpc/stream.go:342-411 | on an ended stream out of reach of half-close, every receive of every run yields the backlog in order, then the outcome |
| `StreamSync.FrameOutcomeStableIff` | wsrpc/stream.go:342-411 | after a frame won, that holds in all runs if and only if the peer has not half-closed or the frame is a clean end |
| `StreamSync.PreemptionHappens` | wsrpc/stream.go:349-358 | a half-close followed by an error END reaches the failing side of FrameOutcomeStableIff |
| `StreamSync.HalfClosePreempts` | wsrpc/stream.go:349-358 | with half-close seen and no backlog, a receive can report a clean end |
| `StreamSync.FailureKeepsFramesOut` | wsrpc/stream.go:465-475 | after a frameless failure won, no run ever records a frame |
| `StreamSync.FailureOutcomeStableIff` | wsrpc/stream.go:378-394 | then, off the registry and without a further failWith, results are fixed if and only if the peer has not half-closed or the status is OK |
| `StreamSync.LastFailureWins` | wsrpc/stream.go:465-475 | a further failWith does change what the next receive reports |
| `GoMux.Mux.Route` | wsrpc/mux.go:273-325 | a frame changes the named stream object alone, as its kind says; unknown kinds count as messages; END, RST and overflow unregister |
| `GoMux.Mux.Deliver` | wsrpc/mux.go:304-324 | overflow fails this stream, posts one RST and unregisters it; otherwise the payload is queued |
| `GoMux.Mux.RouteOpen` | wsrpc/mux.go:212-271 | when an OPEN creates a stream, and the RST posted when it does not; the cap is kept |
| `GoMux.Mux.FailAll` | wsrpc/mux.go:327-334 | every registered stream object fails with the error and the registry is empty |
| `GoMux.DemuxRefines` | wsrpc/mux.go:212-325 | over every run without a cap refusal, each stream is what its own events alone make of it |
| `GoMux.UncappedNeverRefuses` | wsrpc/mux.go:237-253 | clients and servers without a cap never refuse |
| `GoMux.StreamsDoNotInterfere` | wsrpc/mux.go:212-325 | runs that agree on one id's events leave that id's streams equal, whatever the others do |
| `GoMux.IndependentIff` | wsrpc/mux.go:212-325 | over whole runs: after every prefix each id's streams are what its own events make of them, if and only if the cap refuses no OPEN of the run |
| `GoMux.RefusalHappens` | wsrpc/mux.go:237-253 | two OPENs on a server that takes one stream are not independent |
| `GoMux.BacklogBounded` | wsrpc/stream.go:477-500 | against any peer, every stream of every run holds at most its window plus one largest payload, counted exactly |
| `GoRuntime.Runtime.Use` | wsrpc/stream.go:188-411 | a receive, an ended receive, a send or a local end changes the stream it is called on as the machine says |
| `GoRuntime.Runtime.Local` | wsrpc/stream.go:188-411 | a call on one held stream, registered or not, changes that stream alone |
| `GoRuntime.Runtime.Route` | wsrpc/mux.go:273-325 | a routed frame changes at most one of all the streams anybody holds |
| `GoRuntime.Runtime.RouteOpen` | wsrpc/mux.go:212-271 | an OPEN adds a stream exactly when the machine does, and the added object is new |
| `GoRuntime.Runtime.FailEvery` | wsrpc/mux.go:327-334 | a lost connection fails the registered streams and no other held stream |
| `GoRuntime.Runtime.Dispatch` | wsrpc/mux.go:151-334 | the objects follow the value machine on every event; objects that join are new |
| `GoRuntime.Runtime.Replay` | wsrpc/mux.go:151-334 | after any run of events the objects are where the value machine is, so its theorems hold of them |
| `ServerRegistry.RegistrySafe` | wsrpc/mux.go:212-271 | in every interleaving: at most the cap, no insert over a live entry, every entry's handler still runs |
| `ServerRegistry.ForeignRemove` | wsrpc/server.go:118-119 | a remove that finds another stream under its id unregisters it while it runs |
| `ServerRegistry.InsertKeepsOwnRemovesIff` | wsrpc/mux.go:182-186 | the insert keeps all pending removes their own if and only if no running handler has the id |
| `ServerRegistry.OwnRemovesIff` | wsrpc/mux.go:182-186 | over whole runs: removes hit their own stream throughout if and only if no id is reused while its handler runs |
| `ServerRegistry.ReuseHappens` | wsrpc/server.go:118-119 | for every cap, a run in which a pending remove would hit another stream |
| `ServerRegistry.ClientIdsCollideIff` | wsrpc/mux.go:151-171 | allocated ids are odd, and equal if and only if their numbers agree modulo 2^31 |
| `ServerRegistry.ClientIdsKeepRemovesOwn` | wsrpc/mux.go:151-186 | with client-allocated ids arriving in any order and with any gaps, every remove is its own as long as no two allocation numbers agree modulo 2^31 |
| `Reconnect.WaitersAreServed` | wsrpc/reconnect.go:97-141 | in every interleaving: a caller parked on an open channel holds the current one, no mux is installed, the conn is open and the controller is redialing; a closed channel lets it go on |
| `Reconnect.RunFindsMux` | wsrpc/reconnect.go:97-109 | in every interleaving the controller of an open conn finds a mux at the top of its loop |
| `Reconnect.NothingSurvivesClose` | wsrpc/client.go:133-149 | after Close no mux is ever installed and new callers are refused; once Close and the controller are through, no dialed mux still serves |
| `Reconnect.InstallServesEveryWaiter` | wsrpc/reconnect.go:200-227 | an install lets every parked caller go on, and each gets the new mux |
| `Reconnect.StepKeepsNoLeak` | wsrpc/reconnect.go:97-141 | every step keeps each serving mux installed, held by the controller, or held by Close |
| `Reconnect.ClientConn.TryWait` | wsrpc/reconnect.go:200-221 | one pass of the wait loop: refused when closed, else the mux, else the current channel |
| `Reconnect.ClientConn.TryNewStream` | wsrpc/client.go:115-129 | the mux, else a pass of the wait loop |
| `Reconnect.ClientConn.InstallMux` | wsrpc/reconnect.go:132-139 | installs and broadcasts, or refuses on a closed conn |
| `Reconnect.ClientConn.Shutdown` | wsrpc/client.go:133-149 | closes once, broadcasts and hands out the mux to close |
| `Reconnect.ClientRuntime.Dispatch` | wsrpc/reconnect.go:97-227 | the objects follow the machine on every enabled step |
| `Reconnect.ClientRuntime.Replay` | wsrpc/reconnect.go:97-227 | after any run the objects are where the machine is, so its theorems hold of them |
| `Queues.ScheduleIndependent` | packages/ws-proto-transport/src/queue.ts:29-96 | for every interleaving in which no failure comes too late, the state is the one the producer side and the number of pulls determine |
| `Queues.PullsGetPushesIff` | packages/ws-proto-transport/src/queue.ts:64-95 | over every schedule: each pull gets its accepted push, else the terminal, if and only if no failure follows a clean end that has settled a pull |
| `Queues.LateFailureHappens` | packages/ws-proto-transport/src/queue.ts:64-79 | end, pull, fail: a schedule on which a pull does not get what it is owed |
| `Queues.NeverBoth` | packages/ws-proto-transport/src/queue.ts:40-95 | on every schedule, buffered values and waiting pulls exclude each other |
| `Queues.AsyncQueue.PushValue` | packages/ws-proto-transport/src/queue.ts:40-50 | a waiting pull is served before buffering; late pushes are ignored |
| `Queues.AsyncQueue.Finish` | packages/ws-proto-transport/src/queue.ts:52-62 | all waiting pulls are done, once |
| `Queues.AsyncQueue.Break` | packages/ws-proto-transport/src/queue.ts:64-79 | all waiting pulls are rejected; only an earlier failure prevents it |
| `Queues.AsyncQueue.Take` | packages/ws-proto-transport/src/queue.ts:81-95 | values, then the error, then the end, else wait |
| `Queues.AsyncQueue.Dispatch` | packages/ws-proto-transport/src/queue.ts:29-96 | the object follows the schedule functions on every event |
| `Queues.AsyncQueue.Replay` | packages/ws-proto-transport/src/queue.ts:29-96 | after any schedule the object is where the functions say, so the theorems hold of it |
| `TsMux.DefunctMuxIsEmpty` | packages/ws-proto-transport/src/mux.ts:222-356 | over every event sequence: nothing writes into a defunct mux, which has no stream and no frame; registered means unfinished; the owner hears at most once |
| `TsMux.FirstTerminalWins` | packages/ws-proto-transport/src/stream.ts:256-378 | over every event sequence: one terminal per stream, and trailers, leading headers, queue, reset and close callbacks each see it once |
| `TsMux.WritePathSound` | packages/ws-proto-transport/src/stream.ts:143-187 | over every event sequence: sends leave in order, none waits while there is window, the socket sees the written frames in order, all buffers are bounded |
| `TsMux.StepKeeps` | packages/ws-proto-transport/src/mux.ts:262-497 | every event keeps the invariant of the connection and of all its streams |
| `TsMux.Configured` | packages/ws-proto-transport/src/mux.ts:152-156 | limits that are not positive become their defaults, so every configuration is usable |
| `TsLog.MessagesOnTheWire` | packages/ws-proto-transport/src/stream.ts:162-175 | a stream's MSG frames plus what waits for credit are its accepted sends, in order; a lost connection only cuts them short; at most one RST |
| `TsLog.FinishedIsFinal` | packages/ws-proto-transport/src/stream.ts:335-359 | after its terminal a stream's outcome never changes and it writes nothing more |
| `TsLog.HalfCloseLastIff` | packages/ws-proto-transport/src/stream.ts:189-195 | no MSG follows HALF_CLOSE in any continuation if and only if nothing was waiting for credit |
| `TsLog.WaitingCloseHappens` | packages/ws-proto-transport/src/stream.ts:189-195 | two bytes on a one-byte window: a MSG follows HALF_CLOSE in some continuation |
| `TsFlow.DeliveryInOrder` | packages/ws-proto-transport/src/stream.ts:197-224 | over every run: pulls take payloads in the order sent; unless the caller cancelled, a clean end is reported only after the peer's OK and all payloads, an error only after the peer's error and all payloads or an overflow |
| `TsFlow.WindowForbidsReset` | packages/ws-proto-transport/src/mux.ts:419-439 | at every reachable arrival, a sender window of at most the receiver's plus one cannot trip the check, with payloads of unfinished pulls still counted |
| `TsFlow.NeverReset` | packages/ws-proto-transport/src/mux.ts:419-439 | hence no run ever resets such a stream |
| `TsFlow.FalseResetIff` | packages/ws-proto-transport/src/mux.ts:419-439 | some run resets a window-respecting sender if and only if ws >= wr + 2 |
| `TsFlow.Conservation` | packages/ws-proto-transport/src/stream.ts:197-224 | over every run of an open stream: window + reserved + on the wire + backlog + in unfinished pulls + pending + returning = initial window |
| `TsFlow.ConservationIff` | packages/ws-proto-transport/src/stream.ts:213-224 | for a truncating and for a rejecting encoder: the ledger balances in all runs if and only if no flushed total can pass uint32; recv never fails over it if and only if the encoder truncates or that holds |
| `TsFlow.WorksOff` | packages/ws-proto-transport/src/stream.ts:162-224 | while anything is left some step is enabled, and each such step brings the end nearer |
| `TsFlow.StallIff` | packages/ws-proto-transport/src/stream.ts:213-224 | for all windows, payload sizes and encoders: a stall is reachable if and only if ws is below the threshold or a flushed total can pass uint32 |
| `TsFlow.StalledForever` | packages/ws-proto-transport/src/stream.ts:162-187 | after a stall no payload is ever accepted again |
| `TsFlow.ArrivesAsInMux` | packages/ws-proto-transport/src/mux.ts:419-439 | an arrival on the link does to the receiver what the mux does with the MSG frame, even if the connection fails inside the reset |
| `TsStream.ArriveKeepsIn` | packages/ws-proto-transport/src/stream.ts:320-325 | an admitted message keeps the exact byte count and the bound |
| `TsStream.ResumeKeepsIn` | packages/ws-proto-transport/src/stream.ts:197-224 | a finished receive keeps the count, and pending credit stays below the threshold |
| `TsStream.ResetKeepsFate` | packages/ws-proto-transport/src/stream.ts:257-309 | cancel and abort settle everything exactly once |
| `TsStream.OnCloseKeepsFate` | packages/ws-proto-transport/src/stream.ts:275-290 | callbacks run once each, in registration order, before or after the end |
| `TsClient.StreamImpl.constructor` | packages/ws-proto-transport/src/stream.ts:119-141 | a new stream with a full send window, the default for one that is not positive |
| `TsClient.StreamImpl.RunCallbacks` | packages/ws-proto-transport/src/stream.ts:284-290 | the loop runs all waiting callbacks in order and clears them |
| `TsClient.StreamImpl.FinishOk` | packages/ws-proto-transport/src/stream.ts:336-344 | clean end, ignored on a finished stream |
| `TsClient.StreamImpl.FinishError` | packages/ws-proto-transport/src/stream.ts:351-359 | failed end, ignored on a finished stream |
| `TsClient.StreamImpl.TakeBack` | packages/ws-proto-transport/src/stream.ts:197-224 | bytes given back and the delta to announce; none on a finished stream |
| `TsClient.MuxClient.constructor` | packages/ws-proto-transport/src/mux.ts:144-180 | a mux without streams or frames, with the configured limits, open if its socket is |
| `TsClient.MuxClient.FailAll` | packages/ws-proto-transport/src/mux.ts:475-480 | the loop ends every registered stream and empties the map |
| `TsClient.MuxClient.MarkDefunct` | packages/ws-proto-transport/src/mux.ts:222-227 | first cause kept, unsent frames dropped, all streams failed |
| `TsClient.MuxClient.Fail` | packages/ws-proto-transport/src/mux.ts:244-253 | a permanent failure: closed, defunct, owner told |
| `TsClient.MuxClient.OnTransportDrop` | packages/ws-proto-transport/src/mux.ts:229-237 | a lost socket: ignored on a defunct mux |
| `TsClient.MuxClient.CloseMux` | packages/ws-proto-transport/src/mux.ts:486-498 | a deliberate close: once, without telling the owner |
| `TsClient.MuxClient.Write` | packages/ws-proto-transport/src/mux.ts:336-356 | send when open, buffer before, fail the connection past the bound |
| `TsClient.MuxClient.OpenAndFlush` | packages/ws-proto-transport/src/mux.ts:358-367 | the loop sends the buffered frames in order |
| `TsClient.MuxClient.OnOpen` | packages/ws-proto-transport/src/mux.ts:162-169 | flush on the right subprotocol, fail on a wrong one, ignore on a defunct mux |
| `TsClient.MuxClient.PumpStream` | packages/ws-proto-transport/src/stream.ts:168-175 | the loop sends queued payloads while there is window and the stream runs, even if a hook fails the connection |
| `TsClient.MuxClient.Send` | packages/ws-proto-transport/src/stream.ts:143-160 | ignored when closed, abort above the send buffer, else queue and pump |
| `TsClient.MuxClient.Credit` | packages/ws-proto-transport/src/stream.ts:181-187 | a positive delta opens the window and pumps |
| `TsClient.MuxClient.HalfCloseCall` | packages/ws-proto-transport/src/stream.ts:189-195 | one HALF_CLOSE per running stream |
| `TsClient.MuxClient.AbortCall` | packages/ws-proto-transport/src/stream.ts:297-307 | RST, detach, settle, reject the pulls; ignored on a finished stream |
| `TsClient.MuxClient.CancelCall` | packages/ws-proto-transport/src/stream.ts:257-267 | RST, detach, settle, end the pulls; ignored on a finished stream |
| `TsClient.MuxClient.FinishRecv` | packages/ws-proto-transport/src/stream.ts:197-224 | the payload, its bytes given back, and at most one WINDOW_UPDATE |
| `TsClient.MuxClient.Handle` | packages/ws-proto-transport/src/mux.ts:370-473 | an inbound frame reaches the registered stream it names, by kind; all others are ignored |
| `TsClient.MuxClient.OpenCall` | packages/ws-proto-transport/src/mux.ts:262-328 | a fresh odd id every time; registered and announced on a live mux, failed at birth on a defunct one |
| `TsClient.MuxClient.Dispatch` | packages/ws-proto-transport/src/mux.ts:144-498 | the objects follow the value machine on every event; the streams callers hold are handed on, and those that join are new |
| `TsClient.MuxClient.Replay` | packages/ws-proto-transport/src/mux.ts:144-498 | after any run of events the objects are where the value machine is, so its theorems hold of them |
| `Backoff.GoCap` | wsrpc/reconnect.go:66-79 | the early-exit doubling loop computes min(initial * 2^n, max) |
| `Backoff.TsCap` | packages/ws-proto-transport/src/transport.ts:367-375 | so does the TypeScript loop |
| `Backoff.CapNondecreasing` | wsrpc/reconnect.go:66-79 | the schedule never goes down |
| `Backoff.GoDelayWithin` | wsrpc/reconnect.go:80-82 | every Go draw lies in [0, d] |
| `Backoff.TsDelayBound` | packages/ws-proto-transport/src/transport.ts:376-377 | every TypeScript draw lies in [0, d + 1) |
| `Backoff.TsDelayWithinIff` | packages/ws-proto-transport/src/transport.ts:376-377 | all draws lie in the documented [0, d] if and only if d is whole |
| `Supervisor.SupervisorInvariant` | packages/ws-proto-transport/src/transport.ts:242-365 | over every event sequence: each timer is armed only in its phase, the phase matches the socket, at most one socket is alive, closed and paused mean what they say |
| `Supervisor.NoDialWhilePausedOrClosed` | packages/ws-proto-transport/src/transport.ts:242-299 | an event creates at most one socket, and none on a closed or paused transport |
| `Supervisor.ClosedIsTerminal` | packages/ws-proto-transport/src/transport.ts:563-573 | after close: no socket, timer or phase change in any run |
| `Supervisor.RedialsOnSchedule` | packages/ws-proto-transport/src/transport.ts:331-378 | in every run, the k-th redial since the last reset waits within the k-th cap |
| `Supervisor.WsTransport.constructor` | packages/ws-proto-transport/src/transport.ts:169-210 | wrap, start paused, or dial |
| `Supervisor.WsTransport.PauseDialing` | packages/ws-proto-transport/src/transport.ts:242-255 | stops a retry or an unfinished dial, keeps a live connection |
| `Supervisor.WsTransport.ResumeDialing` | packages/ws-proto-transport/src/transport.ts:261-270 | resets the schedule and dials if paused |
| `Supervisor.WsTransport.RetryAtOnce` | packages/ws-proto-transport/src/transport.ts:277-284 | dials at once from waiting or disconnected |
| `Supervisor.WsTransport.ConnectionLost` | packages/ws-proto-transport/src/transport.ts:350-365 | disconnected, paused, or waiting with the next delay |
| `Supervisor.WsTransport.DialTimedOut` | packages/ws-proto-transport/src/transport.ts:292-297 | the unopened socket is dropped and a redial scheduled |
| `Supervisor.WsTransport.MuxOpened` | packages/ws-proto-transport/src/transport.ts:311-316 | only the current mux makes the transport connected |
| `Supervisor.WsTransport.MuxDropped` | packages/ws-proto-transport/src/transport.ts:317-321 | only the current mux makes the transport lose its connection |
| `Supervisor.WsTransport.CloseTransport` | packages/ws-proto-transport/src/transport.ts:563-573 | no timer, no socket, closed |
| `Supervisor.WsTransport.Dispatch` | packages/ws-proto-transport/src/transport.ts:169-573 | the object follows the machine on every event that can happen |
| `Supervisor.WsTransport.Replay` | packages/ws-proto-transport/src/transport.ts:169-573 | after any run the object is where the machine is, so its theorems hold of it |

## Left out

- The WebSocket itself, the HTTP handshake, compression, keepalive pings and the wire bytes of frames: a FIFO channel of frames stands for them, and the size of an encoded frame is a parameter.
- The code generators, which print stubs from service descriptors; the gRPC bridge, which serves gRPC service implementations over a stream; interceptors, which wrap calls; statistics, which count them; metadata helpers, which copy header maps.
- serveStream's panic recovery, deadline handling and single END per handler.
- Blocking loops of SendRaw, RecvRawContext and waitForMux: each pass is a method, and waiting is a step that is not enabled yet, because a method that waits has no termination proof.
- StreamSync covers one sender and one receiver goroutine per stream with any number of failing callers; CreditFlow, SharedWire and TsFlow cover one direction of each stream, with wires that never drop, and SharedWire a fixed set of streams.
- Real time and randomness: timers fire at any moment, jitter draws are parameters.
- TypeScript stream ids above 2^32 - 1, which the frame encoding cannot carry; id is bounded only in HalfCloseLastIff. TsMux and TsClient put window deltas above 2^32 - 1 on the wire unchanged; TsFlow models both things an encoder can do with them.
- The Go wait of a context that ends: a parked NewStream caller may leave at any time, with one Refused outcome for both errors.
- Listeners that call back into the transport while it notifies them.
- The socket close code and reason, and errors thrown by the socket's own send.
- Backoff.GoCap: durations are reals, so int64 overflow of a duration is not modelled.
- Backoff.TsCap: durations are reals; floating-point rounding of the jitter product is not modelled.
- GoMux.Mux.RouteOpen: one call runs without a concurrent remove, and ServerRegistry interleaves the three locked sections; the context deadline taken from ws-timeout-ms and the start of the handler are not stated.
- GoMux.BacklogBounded: the bound is in terms of the largest inbound payload, since the runtime's own frame limit is a transport option.
- TsClient.MuxClient.Send: a stream object holds its queue as a value and groups its fields in three records; the queue object itself is Queues.AsyncQueue.
- TsClient.MuxClient.OnOpen: the call of the owner's open hook is not recorded; Supervisor models what the owner does with it.
- TsClient.MuxClient.constructor: a wrapped socket that is open with the wrong subprotocol fails the mux before it has an owner, which is not modelled.
- TsClient.MuxClient.Dispatch: hooks are calls on the mux rather than closures stored in the stream.
- Supervisor.WsTransport.DialTimedOut: the timer's own guards are the step's condition in the machine.
