# HQQ in Dafny

HQQ is a shared-memory IPC stack in Go. This project models its hard parts, the message
reassembly, the concurrency of calls and of the Serve loop, the claim of a shared segment, protocol
negotiation, the queue of unread tails, the segment layout and two checks of the interface
compiler, and proves what they promise. `dafny verify dfyconfig.toml` checks everything.

Concurrent code is modelled as a state machine over its atomic steps: one load, store,
compare-and-swap, channel operation or mutex region is one step, atomics are sequentially
consistent, and every theorem is about every state of every run, for any number of goroutines,
calls, requests or endpoints. Code that updates fields or arrays step by step is a class or a method
with the same loop, proved equal to a function, and the promises are proved of that function. Time,
contexts, garbage collection, map iteration order and what the peer sends are arbitrary choices of the
environment.

| files | what |
|---|---|
| `Wire` | words, errors, flags, frames |
| `Metadata`, `MessagePool` | the metadata codec; size classes of pooled buffers |
| `Reassembly`, `Receiver` | the receive path as a function and as the class that updates its maps in place |
| `FrameMatrix` | an oracle, not a main result: the rows of the conformance frame matrix, written from the matrix and for every state and frame, which tie the receive function to it |
| `ReceiveHistory` | any sequence of frames: which messages count as idle, how they are reported, when sweeps happen |
| `Delivery`, `Budget`, `SecondNotice` | the send path, interleaved traffic of many senders, and what the receiver makes of it; when the reassembly budget is enough; one counterexample |
| `PendingCalls`, `PendingChannels` | pending calls, their answers and their recycled response channels |
| `Serve`, `ServeInvariant`, `ServeSafety`, `ServeResults` | the Serve loop: steps, invariant, induction over runs, theorems |
| `ServeEscalation`, `ServeWorkers` | how long a slow handler keeps the receiver role; inline handling, workers and timer |
| `ServeOverlap`, `ServeReturn`, `ServeLateTimer` | when callbacks of the Serve loop overlap; how Serve returns and what can outlive it; four counterexamples |
| `Shutdown`, `AcceptSlots`, `AcceptStreams` | graceful shutdown; accept slots and held stream requests; the life of a stream |
| `Negotiation` | protocol negotiation over two queues |
| `Segment`, `SegmentTokens`, `SegmentCrash` | the claim protocol, one access of the first page per step: tokens and epochs, safety with crashes |
| `SegmentClaim`, `SegmentJoin`, `SegmentOwnership`, `SegmentSuspended` | what an endpoint has seen before it claims or joins; what it has written before it is attached; two counterexamples |
| `TailQueue` | unread tails and the reads they serve |
| `Layout` | layout in machine words against the exact one |
| `IdlCheck` | containment cycles and handle ownership |

## Where the code and its words differ

- **Shutdown** is documented as safe for concurrent use (advanced_request.go:480-481). The wake token has
  capacity one, so of two calls that wait for the same requests one can be left waiting although nothing is in
  flight. From every reachable state in which two calls wait, the requests can end in such a way
  (`Shutdown.TwoWaitersCanStick`, and from the start `Shutdown.SecondShutdownCanStick`). A call waits in vain only
  if another call that waited too took the token during its wait (`Shutdown.StuckMeansTokenTaken`), so a call that no other call
  waits beside is always woken, whatever calls came before (`Shutdown.SingleShutdownIsWoken`).
- **stopWatch** is documented to leave no callback running and none to come, so that none touches the server after Serve
  returned (rpc.go:444-447). *None runs* does not hold: a callback that cleared armed and has not yet loaded stopped is not
  waited for, and a run from the start has one when Serve has returned (`ServeLateTimer.CallbackOutlivesServe`). When
  stopWatch returns, every callback still there is no longer in charge of armed (`ServeReturn.StopWatchLeavesNoneInCharge`), and
  from every reachable state in which stopWatch has not returned, each callback that is no longer in charge can still be there
  when it does (`ServeReturn.CallbackCanOutliveStopWatch`), and when Serve returns (`ServeReturn.ServeCanReturn`).
  *None to come* does not hold either: a goroutine that lost the receiver role before its armed check still arms the timer
  afterwards (`ServeLateTimer.TimerComesAfterStopWatch`), which can happen exactly if such a goroutine is left and armed was not
  retired (`ServeResults.NoLateTimer`, `ServeResults.LateTimerPossible`). What a late callback does is harmless: it changes
  nothing but armed and leaves (`ServeResults.LateCallbacksOnlyLeave`).
- **watch** is documented to run one callback at a time (rpc.go:401). A run from the start has two at once
  (`ServeLateTimer.CallbacksOverlap`). Two callbacks run at once only if one of them is no longer in charge of armed
  (`ServeOverlap.OverlapNeedsHandOff`), and as long as Serve receives every callback that is no longer in charge can be
  overtaken by another (`ServeOverlap.OverlapPossible`): the condition is exact.
- A handler that has the role is escalated by the time for which the watchdog already waits, or within a limit from now
  (`ServeEscalation.SlowHandlerIsEscalated`). The first can be later than the second: a callback that read the clock before a run
  stored its start waits for a limit and the time in between, two limits in one run (`ServeLateTimer.WaitCanExceedLimit`).
- **watch** has a branch for "no free slot" (rpc.go:429-434). It is never taken (`ServeResults.RetryIsNeverTaken`).
- A message can get a **second notice**: it was refused or reclaimed, its key was evicted from the refused set, and its
  sender aborts it (`SecondNotice.SecondNoticeHappens` is such traffic). There is no other case (`Delivery.SecondNoticeNeedsEviction`), and an
  abort is reported exactly if its key is not among the refused ones (`Delivery.AbortNoticeIffNotRefused`).
- A **takeover** of a stalled initializer swaps initToken without looking at the state word again (superblock.go:484-487).
  An endpoint that won the state word but was suspended before its begin leaves initToken zero, and so does one that committed:
  a takeover decided in between begins a second initialization of a Ready segment with a live Primary, without any crash
  (`SegmentSuspended.TakeoverOfLiveSegment`). A takeover over any other token of the run replaces an endpoint that began and has
  not committed (`SegmentTokens.TakeoverReplacesInitializer`). `SegmentCrash` assumes that what an endpoint concluded about the life of others still holds at its swap, and of a takeover over zero also that the segment is being initialized; `SegmentTokens`, `SegmentClaim` and `SegmentOwnership` assume nothing.
- A **join** compares the geometry and then swaps its token into the secondary record without looking at the epoch again
  (superblock.go:520-547). If the segment is initialized anew in between, the Secondary has another geometry than the Primary, with
  every verdict right and without a crash (`SegmentSuspended.JoinOfOtherGeometry`). If the epoch is still the one of the first
  comparison, both have one geometry (`SegmentJoin.SecondaryHasGeometry`).
- A handle is reported as having a **cyclic** owner also if it is on no cycle and only its owners are (bindgen/idl/check.go:434-442);
  which handles are reported is exact in `IdlCheck.CutCycles`.

## Model

| member | source | states |
|---|---|---|
| `Metadata.PutMeta` | advanced_request.go:69-91 | the moving offset writes exactly the block of the items a call sends; nothing to send gives size zero |
| `Metadata.ParseMetaBlock` | advanced_request.go:95-132 | the loop over the shrinking slice computes the recursive parser, on any input, and never leaves the data |
| `Metadata.ParseMetaIffBlock` | advanced_request.go:95-132 | the parser accepts exactly the data that start with a block of well-formed items, and returns their values and the block size |
| `Metadata.ParseSound` | advanced_request.go:105-131 | whatever bytes are accepted are the bytes of a well-formed item list |
| `Metadata.ParseFlatten` | advanced_request.go:105-131 | on the bytes of any item list, well-formed lists are applied in order and all others are refused |
| `Metadata.ParseReadsOnlyBlock` | advanced_request.go:95-104 | what follows the block does not matter |
| `Metadata.MetaRoundTrip` | advanced_request.go:69-132 | parsing the block of a call in front of any payload gives back budget, caller, trace and exactly the block size |
| `Metadata.UnknownTagsAreSkipped` | advanced_request.go:110-131 | an unknown item between any two items changes neither acceptance nor values |
| `Metadata.ItemsOnTheWire` | advanced_request.go:73-131 | the three items as literal bytes: tags 1, 2 and 3, lengths 8, 8 and 16, values least significant byte first, the budget capped |
| `Metadata.LittleEndianRoundTrip` | advanced_request.go:73-88 | little-endian encoding and decoding are inverse |
| `MessagePool.ClassOfIsSmallest` | message.go:110-115 | classOf is the smallest class whose buffers hold n bytes |
| `MessagePool.ClassFits` | message.go:95-121 | every size up to the limit has a class whose capped buffers hold it |
| `MessagePool.Pool.Get` | message.go:125-129 | a message from the pool, fresh or recycled, has a buffer of its class size that holds n bytes |
| `MessagePool.Pool.Put` | message.go:131-133 | a message goes back to its own class |
| `Reassembly.ConsumeKeeps` | advanced_io.go:424-557 | any frame, malformed or not, keeps the reassembly invariant |
| `Reassembly.AnyTrafficKeepsInvariant` | advanced_io.go:424-640 | after any frames: budget counter = sum of size + 256 over the assemblies, within the limit; the refused set is its duplicate-free FIFO of at most 1024 keys, disjoint from the assemblies; next <= size <= buffer |
| `Reassembly.DeliveredBytesAreReceivedBytes` | advanced_io.go:476-557 | a delivered message has the header of its Begin frame and exactly the chunks received for its key since then, under arbitrary traffic |
| `Reassembly.ErrorsLeaveNoState` | advanced_io.go:455-475 | a frame that is an error leaves neither an assembly nor a refusal of its key; one with unknown flags changes nothing |
| `Reassembly.SweepComplete` | advanced_io.go:576-593 | a sweep over all assemblies ends with room for the message or with no idle assembly left |
| `Reassembly.DropKeeps` | advanced_io.go:561-569 | dropping an assembly returns its charge and keeps the invariant |
| `Reassembly.RejectKeeps` | advanced_io.go:617-627 | refusing a key evicts the oldest one when full and keeps the invariant |
| `Reassembly.ForgetKeeps` | advanced_io.go:631-640 | forgetting a refused key keeps set and order equal |
| `Reassembly.ReclaimKeeps` | advanced_io.go:597-606 | reclaiming turns an assembly into a refused key and keeps the invariant |
| `ReceiveHistory.ReclaimedWasSilent` | advanced_io.go:531-593 | a message given up for another had no frame among the last 65536, told from the frames alone |
| `ReceiveHistory.RefusedAmongActive` | advanced_io.go:500-593 | a message refused by a frame that swept: every message left had a frame among the last 65536 |
| `ReceiveHistory.SweepsAreApart` | advanced_io.go:576-593 | between two sweeps lie at least 65536 frames, and as many as the later one has messages to visit |
| `ReceiveHistory.EveryReclaimIsReported` | advanced_io.go:571-640 | at every frame: which messages were given up, one notice for each request or response among them, the counter, and the refused keys as the youngest 1024 refusals |
| `ReceiveHistory.ArrivalIsFirstFrame` | advanced_io.go:500-557 | the arrival time of a delivered request is that of its Begin frame |
| `ReceiveHistory.EveryMessageIsMarked` | advanced_io.go:531-557 | the mark of each assembly is the number of its latest frame |
| `FrameMatrix.OneFrameMessage` | conformance/vectors_frames.go:140-145 | a message of one frame is delivered at once, byte for byte, in any state |
| `FrameMatrix.AbortAlwaysCounts` | conformance/vectors_frames.go:159-167 | an abort is accepted whatever its operands, drops the message, and is reported unless it was refused |
| `FrameMatrix.ForbiddenFlags` | conformance/vectors_frames.go:187-218 | unknown bits, Request with Response, Error without Response and metadata where it is not allowed are protocol errors that change nothing |
| `FrameMatrix.BadMetadata` | conformance/vectors_frames.go:193-209 | a request with a malformed metadata block is a protocol error |
| `FrameMatrix.ContradictorySizes` | conformance/vectors_frames.go:225-269 | sizes that contradict each other, the flags or aux are size errors in any state |
| `FrameMatrix.TooLarge` | conformance/vectors_frames.go:240-242 | a message above the limit overflows |
| `FrameMatrix.BrokenContinuation` | conformance/vectors_frames.go:243-275 | a second Begin, a gap or an early End is a size error and ends the message |
| `FrameMatrix.Orphan` | conformance/vectors_frames.go:249-251 | a continuation of nothing is a protocol error, unless an eviction may explain it |
| `FrameMatrix.RefusedAndDrained` | conformance/vectors_frames.go:276-293 | a message the budget cannot hold is refused once and drained |
| `Receiver.Link.constructor` | advanced.go:375-386 | a new link has the empty reassembly state, for a configuration the limits of which are valid |
| `Receiver.Link.Drop` | advanced_io.go:561-569 | the in-place update is the drop function |
| `Receiver.Link.Reject` | advanced_io.go:617-627 | the in-place update is the refuse function |
| `Receiver.Link.Forget` | advanced_io.go:631-640 | the in-place update is the forget function, and it reports whether the key was refused |
| `Receiver.Link.ReclaimOne` | advanced_io.go:597-606 | the in-place update is the reclaim function |
| `Receiver.Link.MakeRoom` | advanced_io.go:576-593 | the loop over the map, in any iteration order, is a sweep, and a sweep that is due ends with room for the message or with no idle assembly left |
| `Receiver.Link.ConsumeChunk` | advanced_io.go:424-557 | the whole in-place method equals the transition function and keeps its invariant; what this means for idle messages is in `ReceiveHistory` |
| `Receiver.Link.BeginChunk` | advanced_io.go:476-518 | the branch for a Begin frame equals its function |
| `Receiver.Link.OpenChunk` | advanced_io.go:500-518 | the branch that opens a message of several chunks equals its function; a message refused after a due sweep leaves no idle assembly behind |
| `Receiver.Link.AppendChunk` | advanced_io.go:531-557 | the branch for a further chunk equals its function |
| `Delivery.CutChunk` | advanced_io.go:279-286 | the parts of prefix and payload that make up the bytes of one chunk |
| `Delivery.Sender.SendChunk` | advanced_io.go:302-317 | one slot is filled with head and tail and published with its header, or nothing is published |
| `Delivery.Sender.SendPayload` | advanced_io.go:249-298 | publishes a well-formed emission: chunks in order, Begin first and End last; it succeeds exactly if the ring has room for all of them, and otherwise leaves those that fit and an abort |
| `Delivery.Sender.SendChunks` | advanced_io.go:262-298 | the send loop of a non-empty message, with the abort after a failure |
| `Delivery.CallsAreWellFormed` | advanced_request.go:69-91 | every request a call sends, with or without metadata, on a link with or without the feature, is a message the receive path accepts |
| `Delivery.EveryFrameGetsItsVerdict` | advanced_io.go:424-557 | for every interleaving of emissions and any budget, sweeps and evictions: no frame is an error, a message neither refused nor reclaimed is delivered intact by its End frame, and lost ones are drained |
| `Delivery.CompleteMessagesAreDelivered` | advanced_io.go:249-557 | every message whose frames all arrived and that was not lost was delivered with first header and prefix ++ payload, metadata stripped |
| `Budget.NoneLostIffFits` | advanced_io.go:424-593 | no message is refused or reclaimed exactly if the messages open at the same time fit the budget together, whatever the interleaving, the sweeps and the iteration order |
| `Budget.FittingMessagesAreDelivered` | advanced_io.go:249-557 | if they fit, every message whose frames all arrived was delivered |
| `Budget.OpenIsAssembled` | advanced_io.go:424-557 | while nothing is lost, the budget counter is the demand of the open messages |
| `Delivery.FinishedMessagesLeaveNoState` | advanced_io.go:446-557 | after End or Abort neither the assemblies nor the refused set hold the key |
| `Delivery.SecondNoticeNeedsEviction` | advanced_io.go:571-640 | a key gets at most one of delivered, aborted, refused, reclaimed until it is evicted from the refused set |
| `Delivery.AbortNoticeIffNotRefused` | advanced_io.go:446-460 | the abort of a message is reported exactly if its key is not among the refused ones |
| `SecondNotice.SecondNoticeHappens` | advanced_io.go:571-640 | well-formed traffic in which one message gets two notices |
| `Delivery.OwnFrame` | advanced_io.go:446-557 | the next frame of a message gets its verdict and leaves the state its progress calls for |
| `Delivery.ConsumeFate` | advanced_io.go:424-557 | a frame of one message leaves any other as it is, or reclaims it, or evicts its refused key |
| `PendingCalls.EveryRunIsSafe` | advanced_dispatch.go:180-277 | a pooled channel is empty, mapped by no call and held by no sender; sends never block; no call gets the response of another key; no response is lost |
| `PendingCalls.StepKeepsInvariant` | advanced_io.go:152-211 | every atomic step of register, route, unregister, abandon, fail and receive keeps the channel invariant |
| `PendingCalls.InvariantIsSafe` | advanced_dispatch.go:206-258 | the invariant gives channel safety and the bound on remembered late responses |
| `PendingCalls.WaitersStep` | advanced_dispatch.go:180-204 | a call whose table entry is gone has its result in the channel or with a sender |
| `PendingCalls.AbandonedStep` | advanced_dispatch.go:239-258 | the FIFO of abandoned calls stays duplicate-free, bounded and made of finished calls |
| `PendingCalls.AnswersArrived` | advanced_dispatch.go:180-204 | the answer a call has, body included, was routed to it or failed it while its entry was there |
| `PendingCalls.AnswersStay` | advanced_dispatch.go:180-204 | an answer a call has received is the one it ends with |
| `PendingCalls.AnsweredOnce` | advanced_dispatch.go:180-204 | no call is answered twice |
| `PendingCalls.YoungestAreRemembered` | advanced_dispatch.go:239-258 | the remembered calls are the youngest 4096 of those that gave up, in order |
| `PendingCalls.LateResponsesAreRecognized` | advanced_dispatch.go:180-258 | a key counts as abandoned exactly if its call is among those and no late response has come |
| `PendingChannels.ChannelsAreReused` | advanced_io.go:55-62 | no channel is wasted: each is pooled or in use, unless the collector took it or its call ended while a result might come |
| `PendingChannels.CallGetsItsResponse` | advanced_io.go:152-211 | from every reachable state a call whose response arrives ends with exactly this response, the channel in the pool, everything else as before |
| `ServeResults.OneReceiver` | rpc.go:344-380 | in every state exactly one goroutine, or the callback about to start one, has the receiver role until receiving ends, then none |
| `ServeResults.HandlersBounded` | rpc.go:460-539 | never more than BufferCount handlers run |
| `ServeResults.SomeWorkerComesFree` | rpc.go:500-517 | when every worker is started and the dispatcher has a slot, one of them is idle or has only its response left to send |
| `ServeResults.OneWinner` | rpc.go:362-380 | no inline run is decided twice, by receiver or watchdog |
| `ServeResults.EveryRunIsDecided` | rpc.go:362-378 | every inline run before the current one was decided by some step |
| `ServeResults.RequestsFinishOnce` | rpc.go:490-576 | no request is answered or released twice |
| `ServeResults.ServeReturnsDrained` | rpc.go:255-268 | when Serve returns no handler runs, receiving has ended and every request received was answered or released |
| `ServeResults.OnlyOldHandlersEscalate` | rpc.go:417-436 | the role moves only from a run whose stored start is at least the limit ago |
| `ServeEscalation.WaitIsTheRest` | rpc.go:417-428 | a callback escalates exactly if the times it read are a limit apart, and otherwise waits for exactly the rest |
| `ServeEscalation.SlowHandlerIsEscalated` | rpc.go:393-442 | from every reachable state a handler that has the role is escalated without a step of its own, by the time already waited for or within a limit |
| `ServeLateTimer.WaitCanExceedLimit` | rpc.go:417-428 | a run from the start in which the time already waited for is two limits ahead |
| `ServeWorkers.TimerRunsItsTime` | rpc.go:386-442 | no callback starts before the time for which the timer was last set is over |
| `ServeWorkers.InlineIffAlone` | rpc.go:350-362 | a request runs inline exactly if nothing is in flight when the receiver looks |
| `ServeWorkers.WorkersMeetDemand` | rpc.go:487-510 | no more workers are started than were ever busy at once |
| `ServeResults.StartsAreStored` | rpc.go:362-366 | the start recorded for a run is never changed by a later store |
| `ServeResults.InlineHandlersAreWatched` | rpc.go:393-442 | an inline handler past its armed check is covered by an armed watchdog or by a callback about to look again |
| `ServeResults.OneCallbackInCharge` | rpc.go:399-442 | at most one callback is in charge of armed, and none while the timer is scheduled |
| `ServeOverlap.OverlapNeedsHandOff` | rpc.go:399-442 | of two callbacks at once one is no longer in charge of armed |
| `ServeOverlap.OverlapPossible` | rpc.go:399-442 | conversely, from every reachable state in which Serve receives, any callback that is no longer in charge can be overtaken by another |
| `ServeLateTimer.CallbacksOverlap` | rpc.go:399-442 | a run from the start with two callbacks at once |
| `ServeResults.LateCallbacksOnlyLeave` | rpc.go:444-455 | after stopWatch returned a callback takes no slot, moves no role, starts no goroutine and schedules no timer |
| `ServeLateTimer.CallbackOutlivesServe` | rpc.go:436-455 | a run from the start in which Serve has returned and a callback has yet to load stopped |
| `ServeReturn.StopWatchLeavesNoneInCharge` | rpc.go:444-455 | in every run, when stopWatch returns every callback still there has given up armed |
| `ServeReturn.CallbackCanOutliveStopWatch` | rpc.go:436-455 | conversely, from every reachable state in which stopWatch has not returned, any callback that has given up armed can still be there when it does |
| `ServeReturn.ServeCanReturn` | rpc.go:255-539 | the end of Serve never gets stuck: from every reachable state some steps let Serve return, and a callback that has given up armed need not take any of them |
| `ServeReturn.RunKeepsReturn` | rpc.go:255-539 | once receiving ended, the result is on its way to the goroutine of Serve or has arrived, and the work channel is closed exactly when the ender is done |
| `ServeResults.NoLateTimer` | rpc.go:444-455 | after stopWatch returned the timer stays off for good if no displaced goroutine has its armed check before it |
| `ServeResults.LateTimerPossible` | rpc.go:366-391 | otherwise some steps schedule it: the condition is exact |
| `ServeLateTimer.TimerComesAfterStopWatch` | rpc.go:366-455 | a run from the start in which the timer is scheduled after stopWatch returned |
| `ServeResults.RetryIsNeverTaken` | rpc.go:429-434 | escalate never fails while the run it saw goes on: the retry branch is dead |
| `ServeInvariant.EscalateFindsSlot` | rpc.go:460-465 | while the run it saw goes on, escalate finds every slot free |
| `ServeSafety.StepKeepsInvariant` | rpc.go:255-539 | every step of every goroutine, callback, timer and clock keeps the invariant of the Serve loop |
| `ServeSafety.RunKeepsInvariant` | rpc.go:255-539 | the invariant holds in every state of every run |
| `Shutdown.CompletedShutdownAcceptsNothing` | advanced_request.go:373-406 | the counter is the number of unreleased requests, and after a completed Shutdown no request is ever accepted |
| `Shutdown.SingleShutdownIsWoken` | advanced_request.go:386-393 | a Shutdown that waits alone, whatever calls came before it, has the token or its sender there as soon as nothing is in flight |
| `Shutdown.StuckMeansTokenTaken` | advanced_request.go:490-508 | a call waits with nothing in flight and no wake-up to come only if another waiting call took the token during its wait |
| `Shutdown.TwoWaitersCanStick` | advanced_request.go:490-508 | from every reachable state with two waiting calls the requests can end so that one of them waits for ever |
| `Shutdown.SecondShutdownCanStick` | advanced_request.go:490-508 | a run in which a second concurrent Shutdown waits for ever |
| `Shutdown.StuckStays` | advanced_request.go:490-508 | such a call stays stuck until a request arrives or its context ends |
| `Shutdown.WakesUnlessStuck` | advanced_request.go:386-393 | every other waiting call can still be woken without a new request: the stuck state is exact |
| `Shutdown.StepKeepsInvariant` | advanced_request.go:353-406 | every step keeps counter, flag and wake-up in order |
| `Shutdown.AcceptedBeforeShutdown` | advanced_request.go:396-406 | a request is refused exactly if Shutdown had begun when it looked |
| `Shutdown.DecisionHolds` | advanced_request.go:396-406 | a decision is never taken back |
| `Shutdown.CompletesIffDrained` | advanced_request.go:490-508 | a call completes exactly if nothing is in flight when it looks |
| `Shutdown.CanceledIffGivenUp` | advanced_request.go:490-508 | a call is canceled exactly if its context ended or the link was closed while it waited |
| `AcceptSlots.EveryRunIsSafe` | advanced_control.go:70-119 | slots taken = accept jobs + queued streams + acceptors about to release, so the control sender never waits; held requests always find a slot; AcceptStream returns the streams in order of admission |
| `AcceptSlots.StepKeepsInvariant` | advanced_stream.go:222-360 | every step of dispatcher, control sender, acceptors and listener, and every refusal, conserves the slots |
| `AcceptSlots.HeldRequestsAreAdmittedInOrder` | advanced_stream.go:297-330 | held requests are admitted in arrival order as far as the control queue has room: new streams of the peer are accepted, all others refused, and nothing else changes |
| `AcceptSlots.ListenAdmitsHeld` | advanced_stream.go:222-330 | in every run ListenStreams does exactly this with the requests held by then |
| `AcceptSlots.AcceptedAreNew` | advanced_stream.go:297-330 | the accepted ones are the new streams of the peer, once each and in arrival order |
| `AcceptSlots.AdmitAllKeeps` | advanced_stream.go:297-330 | admitting the held requests conserves the slots |
| `AcceptSlots.ConnectionIdsDoNotCollide` | advanced_stream.go:174-196 | each side recognizes every ID of the peer and none of its own |
| `AcceptSlots.RequestBeforeListen` | advanced_stream.go:222-287 | a request that nobody listens for is held behind the others if there is room, and refused otherwise |
| `AcceptSlots.RequestWhileListening` | advanced_stream.go:222-243 | an ID in use or not of the peer is refused, any other registered |
| `AcceptSlots.HeldStays` | advanced_stream.go:276-360 | a held request leaves only by being admitted, expiring or being released |
| `AcceptSlots.RegisteredIsAdmitted` | advanced_stream.go:268-274 | a stream with a slot is queued behind the others or, if the queue is full, dropped |
| `AcceptStreams.NoStreamLeaks` | advanced_stream.go:222-330 | every registered stream is being accepted, on its way to AcceptStream or was returned by it |
| `AcceptStreams.StreamsLeave` | advanced_stream.go:143-274 | a stream is removed exactly when it is closed, finds no slot or no room, or its accept could not be sent |
| `AcceptStreams.AcceptedWasAnswered` | advanced_control.go:94-112 | AcceptStream returns only streams whose accept was sent before |
| `AcceptStreams.ListensSinceListen` | advanced_stream.go:18-50 | a link listens exactly if ListenStreams was called and it has not stopped since |
| `AcceptStreams.HeldIsRefused` | advanced_stream.go:332-360 | expiry refuses one held request and keeps the others, release refuses as many as the queue has room for or none |
| `AcceptStreams.OnlySlotsAreWaitedFor` | advanced_stream.go:222-274 | nobody waits but a stream for a slot, and then every slot is taken |
| `AcceptStreams.IdentifiersAreFresh` | advanced_stream.go:174-185 | each side allocates its IDs upwards |
| `AcceptStreams.IdentifiersAreAllUsed` | advanced_stream.go:174-185 | and every ID of its side |
| `Negotiation.NegotiationAgrees` | advanced.go:631-740 | when both endpoints are Negotiated they hold the same version and features: the features both offer, without the 1.1 ones exactly if the minor is 0, and the smaller minor of this implementation and of the request that wins; no packet of the negotiation is left |
| `Negotiation.FailuresComeFromOutside` | advanced.go:572-593 | Failed is terminal, and has a cause outside the protocol: the caller gave up or a request has another major version |
| `Negotiation.NegotiationNeverSticks` | advanced.go:631-718 | also after crossing requests one endpoint can always go on until both are done |
| `Negotiation.StepKeepsInvariant` | advanced.go:572-740 | every send, receive and store keeps the relation between both endpoints and both queues |
| `Negotiation.WhatArrives` | advanced.go:647-683 | a negotiating endpoint only ever finds the request of its peer or the answer to its own |
| `Negotiation.AnswerIsValid` | advanced.go:720-734 | an answer always passes the checks of the endpoint that asked |
| `Negotiation.VersionRoundTrip` | advanced.go:105-111 | version encoding and decoding are inverse |
| `Segment.ForeignSegmentsStayUntouched` | superblock.go:369-405 | a non-zero page while Empty, an unknown state or a conflicting layout stays as it is in every run of any endpoints, and nobody gets past the claim |
| `Segment.OpenersWriteOnlySecondary` | superblock.go:437-547 | in every run on any segment an opener writes nothing but the secondary record |
| `Segment.EndpointsNeverBlock` | superblock.go:369-379 | every access of every running endpoint is inside the page |
| `SegmentTokens.CommitNeedsOwnBegin` | superblock.go:591-599 | a commit is preceded by a begin of the same endpoint with initToken untouched in between |
| `SegmentTokens.DisplacedNeverCommits` | superblock.go:697-704 | an endpoint whose initToken was changed after its begin never commits |
| `SegmentTokens.CommitsAreSeparated` | superblock.go:591-704 | between two commits lies a new begin |
| `SegmentTokens.EpochCountsCommits` | superblock.go:697-704 | the epoch never exceeds the number of commits |
| `SegmentTokens.BeginsOnce` | superblock.go:591-599 | an endpoint begins at most once |
| `SegmentTokens.TakeoverReplacesInitializer` | superblock.go:481-487 | a begin over a token of the run replaces that of an endpoint that began and has not committed |
| `SegmentClaim.ClaimedPageWasZero` | superblock.go:369-379 | who claims an empty segment has found every word of the page zero |
| `SegmentClaim.JoinsLivePrimary` | superblock.go:491-547 | who joins judged the Primary alive, and is no creator |
| `SegmentClaim.ClaimsDeadSegment` | superblock.go:491-518 | who claims a Ready segment judged both endpoints dead, and is no opener |
| `SegmentClaim.TakeoverSawNoProgress` | superblock.go:437-487 | who takes over saw token and heartbeat twice without change, and the segment being initialized all along |
| `SegmentOwnership.OwnerHasStamped` | superblock.go:579-604 | an initializer marked the layout before it took the token, and left its name and heartbeat before it formats |
| `SegmentOwnership.PrimaryHasPublished` | superblock.go:666-704 | a Primary has stored every word of the superblock after it took the token, the magic number last |
| `SegmentOwnership.SecondaryHasFilled` | superblock.go:313-317 | a Secondary attaches after process, interval and heartbeat are in its record |
| `SegmentOwnership.PublisherHasChecked` | superblock.go:666-691 | each group of stores is preceded by a look that found the own token |
| `SegmentOwnership.HeartbeatHasChecked` | superblock.go:763-774 | so is every heartbeat, with nothing in between |
| `SegmentOwnership.AttachedWritesOwnRecord` | standard.go:729-746 | an attached endpoint changes only its heartbeat and, on close, its own token |
| `SegmentOwnership.RefusesOrRetries` | superblock.go:369-547 | a segment that does not fit is refused at once; a lost race is tried again |
| `SegmentSuspended.TakeoverOfLiveSegment` | superblock.go:481-599 | a run without a crash in which a takeover begins a second initialization of a Ready segment with a live Primary |
| `SegmentCrash.OneInitializer` | superblock.go:416-568 | with right verdicts at most one endpoint is responsible for the initialization, and then nobody is attached |
| `SegmentCrash.OneEndpointPerSlot` | superblock.go:491-547 | at most one live Primary and one live Secondary, each in its record |
| `SegmentCrash.SameEpoch` | superblock.go:697-704 | attached endpoints are on the same epoch of a Ready segment |
| `SegmentCrash.ReadyRecordsGeometry` | superblock.go:666-694 | a Ready segment records exactly the geometry of its Primary |
| `SegmentJoin.SecondaryComparedGeometry` | superblock.go:520-547 | a Secondary compared all four words with its own geometry, in order, before it joined |
| `SegmentJoin.SecondaryHasGeometry` | superblock.go:520-547 | if the epoch is still the one of the first comparison, segment, Secondary and Primary have one geometry |
| `SegmentSuspended.JoinOfOtherGeometry` | superblock.go:520-547 | a run with right verdicts and no crash in which it is not, and they do not |
| `SegmentCrash.ActKeeps` | superblock.go:416-704 | every access keeps the invariant |
| `TailQueue.Remainder.constructor` | standard.go:755-762 | a new queue is empty |
| `TailQueue.Remainder.Store` | standard.go:776-790 | appends the bytes to the FIFO, with prefix compaction and recycled buffers |
| `TailQueue.Remainder.Read` | standard.go:794-811 | reads from the oldest tail only, keeps or drops the rest, and touches nothing else of dst |
| `TailQueue.Remainder.Take` | standard.go:815-827 | lends out the oldest tail; its buffer is in no other place |
| `TailQueue.Remainder.GiveBack` | standard.go:829-833 | the lent buffer becomes spare or is dropped; the FIFO does not change |
| `TailQueue.Remainder.Pop` | standard.go:836-844 | drops the oldest tail |
| `TailQueue.Remainder.GetBuf` | standard.go:847-856 | a long enough buffer that is nowhere in use |
| `TailQueue.Remainder.PutBuf` | standard.go:859-863 | keeps at most four spare buffers |
| `TailQueue.Reader.ReceiveMessage` | standard.go:482-517 | a read serves the oldest unread bytes of one message; tombstones are skipped; a refused packet loses nothing |
| `TailQueue.Reader.NextPacket` | standard.go:492-508 | takes the tombstones and the next packet off the ring and loses no message |
| `TailQueue.Reader.Arrive` | standard.go:492-508 | a packet that arrives adds its message behind all unread ones |
| `TailQueue.Reader.ReadOnce` | standard.go:482-517 | one read serves the first unread message, and comes back without data only if nothing is ahead or a refused packet is used up |
| `TailQueue.Reader.Session` | standard.go:482-517 | reads and arrivals in any order give back all messages and nothing else, byte for byte and in order, and what is still unread is the rest of them |
| `TailQueue.RunsRebuildMessages` | standard.go:482-517 | the same for every run of reads and arrivals, as a statement about the reads alone |
| `TailQueue.RunIsReadAll` | standard.go:482-517 | reads with arrivals in between are the reads of all messages at once |
| `TailQueue.ReadsRebuildMessages` | standard.go:482-517 | successive reads of any sizes give back the messages, and no read spans two |
| `TailQueue.ReadAllServes` | standard.go:482-517 | these successive reads are the reads the link serves |
| `Layout.LayoutIsExact` | superblock.go:158-206 | computeLayout in machine words succeeds exactly if the geometry is valid and the exact total fits int, and then is the exact layout |
| `Layout.RegionsAreDisjoint` | conformance/layout.go:100-119 | regions are page-aligned, ordered, disjoint and long enough |
| `Layout.AlignedSumExact` | superblock.go:188-198 | the two carries detect exactly the sums that do not fit |
| `Layout.AlwaysFits64` | superblock.go:140-185 | on 64 bits every valid geometry has a layout |
| `Layout.BitTrick` | superblock.go:204-206 | v&(v-1) == 0 holds exactly for powers of two |
| `Layout.UpIsDown` | superblock.go:200-202 | rounding up is rounding x + page - 1 down |
| `Layout.RoundDownFormula` | superblock.go:188-202 | x / page * page is the greatest multiple of page not above x |
| `Layout.SplitBuffers` | standard.go:287-295 | the loop cuts the region into consecutive slots of the given size |
| `Layout.SlotsPartition` | standard.go:287-295 | every byte of the region is in exactly one slot |
| `IdlCheck.CycleCheck.Check` | bindgen/idl/check.go:559-612 | the colouring search reports something exactly if some struct or union contains itself; every reported member closes a cycle, every cycle has a reported member, and without these containment has a rank |
| `IdlCheck.CycleCheck.Visit` | bindgen/idl/check.go:567-603 | a visit blackens its declaration and leaves the stack of visits as it was |
| `IdlCheck.CycleCheck.VisitMember` | bindgen/idl/check.go:569-590 | a member that leads back to the stack is reported, any other ends up black |
| `IdlCheck.TypeDeps` | bindgen/idl/check.go:542-557 | the loop through arrays finds the contained declaration |
| `IdlCheck.RankedMeansClean` | bindgen/idl/check.go:559-612 | declarations ranked along all members but some have no containment cycle without those |
| `IdlCheck.ClosesCycle` | bindgen/idl/check.go:583-585 | a grey dependency is a real cycle |
| `IdlCheck.ResolveHandleParents` | bindgen/idl/check.go:418-443 | bad names and self-ownership are reported; of the others exactly the handles whose owned_by chain does not end and meets no handle reported before lose their parent; afterwards every chain ends |
| `IdlCheck.CutCycles` | bindgen/idl/check.go:434-442 | in place; a handle is reported, once and in order, exactly if its chain does not end and meets no handle reported before |
| `IdlCheck.IsCyclic` | bindgen/idl/check.go:435-441 | the bounded walk decides whether the chain ends |
| `IdlCheck.EndsSoon` | bindgen/idl/check.go:435-436 | a chain that ends does so within as many steps as there are handles: the step bound is right |

## Left out

- Buffer aliasing between pooled messages: message buffers and ring slots are values, so that two owners of one pooled buffer overwrite each other is not expressible; `TailQueue` does model its buffers as arrays.
- Message IDs, owner tokens and channel identities are pairwise distinct; the chance that random tokens collide is not modelled, nor the wrap-around of the 62-bit epoch of the Serve loop.
- Real time: clocks are arbitrary monotone values, timers fire at any time after they are due, liveness verdicts of heartbeats are choices, constrained only in `SegmentCrash`.
- Liveness under a fair scheduler: the theorems say what every reachable state satisfies and that nobody is stuck, not that goroutines are scheduled.
- receiveNextLocked and receiveQueued (advanced_io.go:70-145, 322-420): who drives the ring and how notices are reported.
- reqCtx deadlines and cancellation, and the contents of a response; a handler is a step that takes time.
- The mpmc ring, its wait words and stuck-slot recovery: a ring is a FIFO.
- Ring formatting and zeroing of buffers by an initializer: one step that checks ownership, and writes outside the first page are not modelled.
- listener.go, named_link.go, connect.go, launching and the Mux: near copies, operating-system handles or thin mappings.
- The other rules of the interface compiler, and code generation.
- SegmentJoin.SecondaryComparedGeometry: the words are loaded in the order of the page and compared one by one; claimSuperblock loads the page size last and compares all four at once, with the same verdict on the same words.
- Segment.OpenersWriteOnlySecondary: the first page only; an attached opener writes the rings and buffers through the ring.
- ServeResults.OneCallbackInCharge: the comment says one callback at a time, which does not hold; the exact condition for two is in `ServeOverlap`.
- SegmentCrash.OneInitializer: starts from a zero page and assumes that each verdict about the life of others still holds at its compare-and-swap, and for a takeover over an initToken of zero that the state word is still Initializing; an initializer suspended for longer than the window is outside that assumption, and `SegmentSuspended.TakeoverOfLiveSegment` shows what happens then.
- TailQueue.Reader.Session: one reader of the byte stream; with several readers the tails are served in the order in which they were queued, and ReadFrom drops what does not fit.
- Layout.AlwaysFits64: pages of at most a GiB.
