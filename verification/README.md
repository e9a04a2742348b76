# A verified model of go-jsonrpc's WebSocket connection

go-jsonrpc runs JSON-RPC calls and typed Go channels over one WebSocket. On each connection an event loop, a
frame executor, an output-channel loop and one goroutine per call share three tables (`inflight`, `handling`,
`chanHandlers`), a subscription counter and a pair of parallel slices. This project models that protocol as
transition systems whose atomic steps are critical sections, single atomic operations, channel operations and
callbacks, and proves what holds after every run, that is, under every interleaving. Beside each system stand the
objects that the code really updates in place: classes whose methods are the loops and critical sections of the
source, each shown to be a run of the system.

## Layout

| files | what they model |
|---|---|
| `Runs`, `Options`, `Slices`, `SelectCases` | runs of a transition system and induction over them; optional values; swap-removal; the size of a select |
| `RequestIds` | request identifiers: an int64 counter keyed as float64 |
| `ClientProtocol`, `ClientInvariant`, `ClientTheorems` | the client half: requests, reconnect, teardown, channel sinks |
| `ClientRuns`, `ClientEffects`, `ClientConn` | the same as an object with fields, its methods and loops, and what each of them does |
| `ServerProtocol`, `ServerInvariant`, `ServerSteps`, `ServerTheorems` | the server half: calls, reused identifiers, subscription slots, the lifetime of a stream |
| `ServerRuns`, `ServerConn` | the same as an object, with the compare-and-swap loop under interference |
| `OutputLoop`, `OutputTheorems`, `OutChans` | the output loop: its two slices, what each stream looks like on the wire, and channels that several calls share |
| `OutputBound` | server half and output loop step by step together, so that the slots of the one bound the slices of the other |
| `StreamWorker` | the client's goroutine behind one stream, its sink, and who sends `xrpc.cancel` |
| `EndToEnd` | output loop, wire, frame executor and stream workers together |
| `LockOrder` | the mutexes: every critical section as its lock operations |
| `MessageWriter` | `nextWriter` and `lazyWriter` |
| `Handler`, `Batch` | `handle` with every early return; the framing of a batch |
| `Caller`, `Backoff` | one call with its retries; retry delays |
| `ErrorRegistry` | typed errors from `createError` to `val` |
| `Rendezvous` | `httpio`: posted bodies and the decoders waiting for them |

How a transition system reads: `Enabled(s, e)` says when step `e` may be taken, `Next(s, e)` what it does,
`After(Init, Step, run)` is the state a run leads to. History that the program does not keep (every answer a request
got, every operation on a sink, every frame tried) is part of the state, because the theorems are about it.

## What is proved, and where the code falls short

The main results are statements about every run: what no interleaving can break, and that some step is always possible
(`LoopNeverStuck`, `HandlerNeverStuck`, `StreamNeverStuck`, `NeverStuck`). Where the code keeps a promise only under a
condition, the condition is stated and shown to be exact, or a run is given that breaks the promise:

* A response read before a reconnect but still on its way after it does reach the retry, which uses the same identifier:
  any queued response can (`PendingFrameReachesAttempt`, and a run from the start in `OldFrameReachesRetry`). Only such
  frames cross: if none is pending, all later answers come over the new connection (`OnlyPendingFramesCross`). And in every
  case no cleanup lies between looking a request up and answering it (`ResponsesStayInEpoch`).
* A sink is left open for good exactly if the peer reuses a channel ID that is still in use (`AllSinksClosedIff`), and a
  peer that opens two streams under one ID brings that about (`ReuseLeavesSinkOpen`).
* Requests are conserved in all runs with n calls exactly if n is at most 2^53 (`ConservedIff`), because exactly so long
  their identifiers have distinct keys (`KeysDistinctIff`).
* If several calls return the same Go channel, each value received goes to exactly one of their streams (`ValuesAreDealt`).
  A stream has its channel's values in order exactly if no other stream has received any of them (`InOrderIffAlone`). That
  stays so as long as no other call returns the channel (`UnsharedKeepsOrder`), and can end as soon as another stream of it
  is registered (`SharedBreaksOrder`). What the caller receives is in order in any case: it is the stream's share
  (`ReceivedIsShare`, `CloseMeansShareComplete`).
* A retry delay reaches the maximum at a first attempt and stays there exactly as long as the conversion to
  `time.Duration` is defined (`DelaySettles`, `DefinedIff`); with the default bounds that is from attempt 10 to attempt 62
  (`DefaultSettlesAt10`, `DefaultDefinedIff`).

Two more concern errors. A type that implements its JSON pair only through the pointer and is registered as a value
comes back without its payload (`ValueTypeLosesPayload`). And an unregistered error comes back generic only if nobody
registered the reserved code 1 (`UnregisteredIsGenericIff`).

## Model

| member | source | states |
|---|---|---|
| RequestIds.ExactBelow | websocket.go:1254-1263 | up to 2^53 the conversion to float64 changes no identifier |
| RequestIds.KeysDistinctIff | client.go:614-629 | identifiers up to n have pairwise distinct keys if and only if n <= 2^53 |
| ClientTheorems.StepKeeps | websocket.go:548-664 | every step of callers, event loop, cleanup and frame executor keeps the invariant that ties requests, table, sinks and handlers together |
| ClientTheorems.RequestConservation | websocket.go:1119-1174 | a request that was taken and not answered is either in the table under its own key or held by the one step moving it, never both |
| ClientTheorems.EntriesAreOwn | websocket.go:1142-1158 | storing a request overwrites no entry; after a failed write only the own entry is deleted |
| ClientTheorems.ResponseOwnsEntry | websocket.go:626-659 | from the second check to the delete, the entry handleResponse works on is that of the attempt it looked up, of the current epoch |
| ClientTheorems.FirstAnswerWins | websocket.go:789-795 | a caller returns the first of all answers given to its request, with its own identifier; an exit error only if the loop never took the request |
| ClientTheorems.ExitAnswersEverything | websocket.go:1040-1051 | after exit both tables are empty, every request taken is answered, and a caller still waiting finds the first answer in its buffer |
| ClientTheorems.ConservedIff | websocket.go:1142-1145 | every run with n calls conserves its requests if and only if n <= 2^53 |
| ClientTheorems.LoseRequest | websocket.go:1142-1145 | for every larger n there is a run with n calls that leaves a taken, unanswered request neither in the table nor in the loop's hands |
| ClientTheorems.ResponsesStayInEpoch | websocket.go:604-636 | a peer response is delivered only to an attempt stored in the epoch in which it was looked up, under its own key, and never comes from a frame read later |
| ClientTheorems.OnlyPendingFramesCross | websocket.go:971-977 | if no frame of an earlier connection is with a reader, in the queue or with the executor, then on every continuation all new answers come from frames read since |
| ClientTheorems.ReadersAreCurrent | websocket.go:954-984 | while the event loop is not leaving, the one frame a reader may hold is from the current connection, and there is none during a reconnect |
| ClientTheorems.OldHeadReachesAttempt | websocket.go:994-1010 | for an idle executor, a loop in its select and a response at the head of the queue: an attempt with its key and without a channel result, waiting to be sent, can be sent and gets that answer, however old the frame |
| ClientRuns.PendingFrameReachesAttempt | websocket.go:971-1010 | any response in the queue, however old and whatever the executor is doing, has a continuation in which it answers an attempt with its key waiting to be sent to a loop in its select, unless it is a channel response that does not decode or comes after failure; so has one that a reader holds |
| ClientTheorems.OldFrameReachesRetry | websocket.go:986-1010 | there is a run in which a frame read and queued on the old connection answers the retry of the same call on the new one |
| ClientTheorems.NoStaleSink | websocket.go:878-888 | outside of the stretch between dropping requests and dropping sinks, every published sink belongs to a request of the current epoch |
| ClientTheorems.SinkClosedOnce | websocket.go:548-602 | nothing happens to a sink after its close, in particular no second close |
| ClientTheorems.SinkGetsItsFrames | websocket.go:548-573 | after any run a sink was given exactly the values of the frames handled while it was published under their channel ID, each once and in order |
| ClientTheorems.SinksPublishedOrClosed | websocket.go:613-650 | in every state with an idle executor and no reused channel ID each sink ever built is closed, or about to be closed by closeChans, or the entry of the table under its channel ID |
| ClientTheorems.OverwrittenIffReused | websocket.go:638-650 | a sink was overwritten in the handler table if and only if the peer published a channel ID still in use |
| ClientTheorems.AllSinksClosedIff | websocket.go:797-809 | after exit, with the executor idle, all sinks ever built are closed if and only if no open channel ID was reused |
| ClientTheorems.ReusedChannelLeaksSink | websocket.go:648 | an overwritten sink is open and out of reach of everything that could close it |
| ClientRuns.ReuseLeavesSinkOpen | websocket.go:648 | there is a run in which a peer opens two streams under one channel ID and after exit, with an idle executor, the first sink is open |
| ClientTheorems.LoopNeverStuck | websocket.go:1122-1168 | an event loop in the middle of a request, a reconnect or the teardown can take a step that brings it nearer to its end if the executor is idle; and if not, the executor can, and is then closer to being idle |
| ClientTheorems.ExitReleasesCallers | client.go:370-381 | after exit a caller that still waits can return its answer if the loop took the request, and an exit error if and only if it did not |
| ClientTheorems.TeardownIsFinal | websocket.go:1046-1051 | from the teardown's closeChans on no handler, and from its closeInFlight on no request, is ever stored again on any continuation |
| ClientRuns.ServedIsRun | websocket.go:1119-1174 | serving one request, on any of its four paths, is a run of the protocol |
| ClientRuns.DrainIsRun | websocket.go:769-778 | the loop of closeInFlight is a run that answers every dropped request once, in any order |
| ClientRuns.SweepIsRun | websocket.go:802-808 | the loop of closeChans is a run that closes every handler once, in any order |
| ClientRuns.FinishedIsRun | websocket.go:613-664 | the second half of handleResponse is a run on every path: bad channel ID, request gone, connection failed, published, plain |
| ClientRuns.ReconnectIsRun | websocket.go:866-887 | the cleanup of tryReconnect is a run that leaves no request and no handler |
| ClientRuns.RightOrderLeavesNoSink | websocket.go:881-882 | after requests and then sinks were dropped, finishing any response publishes nothing |
| ClientRuns.WrongOrderLeavesSink | websocket.go:881-882 | with sinks dropped first, a stream opened in between always leaves the sink of a dropped request |
| ClientRuns.UnlockedPublishLeavesSink | websocket.go:626-650 | without the lock held from check to publication, a cleanup in between always leaves one as well |
| ClientRuns.ExitIsRun | websocket.go:1046-1051 | the deferred calls of handleWsConn are a run that ends with both tables empty |
| ClientRuns.PerformKeepsBetween | websocket.go:604-664 | any stretch of event loop, executor or callers keeps the invariant, also between the two halves of handleResponse |
| ClientEffects.ServedEffect | websocket.go:1119-1174 | a notification is answered when written; a request is answered as refused, or stored, or, if the write fails, removed and answered |
| ClientEffects.DroppedEffect | websocket.go:764-778 | each request in the table gets one temporary error with its identifier, and nobody else any |
| ClientEffects.ClosedEffect | websocket.go:797-809 | each published sink gets its close and nothing else happens to any sink |
| ClientEffects.LookedUpEffect | websocket.go:604-611 | the next frame is taken, and the entry under its identifier remembered; an unknown one is dropped |
| ClientEffects.FinishedAnswers | websocket.go:628-659 | the request gets exactly this response and leaves the table if and only if it is still the one looked up and a stream it opens can be opened |
| ClientEffects.FinishedBuilds | websocket.go:613-650 | a stream response with a channel ID builds one sink, published under that ID or closed at once |
| ClientEffects.HandledEffect | websocket.go:548-602 | a value is appended to the sink under its channel ID, a close is that sink's last operation and takes it out of the table, and an unknown channel changes nothing |
| ClientEffects.CallerEffect | client.go:614-731 | a call takes the next identifier, a retry keeps its own, and the answer returned is the one in the buffer |
| ClientEffects.RetryIff | client.go:725-728 | a call may be tried again if and only if its last attempt returned a temporary error: one the peer marked so, a closed connection or a failed write |
| ClientConn.WsConn.ServeRequest | websocket.go:1119-1174 | in place: the entry is stored, refused, or stored and removed again, and the request answered accordingly |
| ClientConn.WsConn.CloseInFlight | websocket.go:764-778 | the table becomes empty, the requests in it get one answer each, no other request changes |
| ClientConn.WsConn.CloseChans | websocket.go:797-809 | the handler table becomes empty, its sinks are closed once each, no other sink changes |
| ClientConn.WsConn.ReceiveFrame | websocket.go:954-984 | a frame read is queued behind those before it |
| ClientConn.WsConn.FindRequest | websocket.go:604-611 | the first half of handleResponse takes the next frame and remembers exactly the entry under its identifier |
| ClientConn.WsConn.FinishResponse | websocket.go:613-664 | the response answers its request exactly if that is still in the table (and a stream can be opened); a sink that was built is published or closed |
| ClientConn.WsConn.OpenSink | websocket.go:616-650 | a sink is built, and published if the request is still in the table and the connection works, closed otherwise |
| ClientConn.WsConn.HandleChanFrame | websocket.go:548-602 | in place: the value is appended to the sink published under its channel ID and no other sink changes; a close is that sink's last operation and takes it out of the table |
| ClientConn.WsConn.TryReconnect | websocket.go:866-887 | unless the connection failed: all requests answered, all sinks closed, both tables empty |
| ClientConn.WsConn.Exit | websocket.go:1046-1051 | the same at the end, in the opposite order and for good |
| ClientConn.WsConn.StartCall | client.go:614-629 | one more identifier, converted to float64, or none for a notification |
| ClientConn.WsConn.Run | websocket.go:1069-1174 | whatever the order of stretches, the object is in the state the specification gives and the invariant holds |
| Caller.DoRequest | client.go:354-408 | at most one xrpc.cancel is sent, exactly if the context ends before the answer and the event loop takes it, and cancelling does not change what is returned |
| Caller.AwaitedIsFirst | client.go:370-404 | the first wake that is not the end of the context decides: the answer, one still queued at exit, or the exit |
| Caller.HandleRpcCall | client.go:698-733 | one request for each attempt, all with the same identifier, up to the first answer that is not to be repeated, whose result is returned; the sleeps are the delays of the backoff |
| Caller.AgainIff | client.go:703-728 | an attempt is repeated if and only if its answer has the right identifier, decodes, is a temporary error, and the method is marked for retries |
| ServerProtocol.EffectiveLimit | websocket.go:1021-1027 | the limit is the configured one if that is positive and leaves room for the two internal select cases, the default if it is not positive, and the most that leaves room if it is too large |
| ServerTheorems.RunKeeps | websocket.go:666-742 | every run of executor, handlers, output loop and sweeps keeps the invariant |
| ServerTheorems.SubscriptionsCounted | websocket.go:274-297 | the counter is the number of reservations not released, between 0 and the limit; each is released at most once |
| ServerTheorems.ThroughIsReleased | handler.go:343-533 | on every way out a call that is through has finished, is cancelled, and has released its reservation exactly once if it had one |
| ServerTheorems.NoLeak | websocket.go:424-453 | when all calls are through the counter is zero |
| ServerTheorems.ActiveHoldsSlot | websocket.go:319-351 | every registered stream is an accepted call that holds its own reservation |
| ServerTheorems.SelectTableBound | websocket.go:335-351 | active streams plus the arriving registration never exceed the reservations: the refusal is unreachable and there are at most 65536 select cases |
| ServerInvariant.ActiveWithinHolders | websocket.go:371-384 | active streams and an arriving one hold distinct reservations |
| ServerTheorems.HandlingIsNewest | websocket.go:680-727 | the table maps an identifier to a call if and only if that is the newest call with it, unfinished and not swept |
| ServerTheorems.DisplacedIsCancelled | websocket.go:720-726 | an unfinished call that left the table is cancelled, or the step that removed it is about to cancel it |
| ServerTheorems.CancelReachesNewest | websocket.go:536-541 | xrpc.cancel reaches only the newest call with its identifier |
| ServerTheorems.SuccessorWaits | websocket.go:720-741 | a handler does not start before the call it displaced is cancelled |
| ServerTheorems.HandlerNeverStuck | websocket.go:424-453 | for a call that is not running its method, streaming or over, a step of its own is possible, or one of the executor or of the output loop, with the stream that is being cleaned up, that it waits for |
| ServerTheorems.TeardownIsFinal | websocket.go:709-722 | after the final sweep the table stays empty on every continuation, and every unfinished call is cancelled or about to be by the step that displaced it |
| ServerSteps.ForgetOnlyOwn | websocket.go:691-697 | finishing a call changes no entry but its own: a successor under the same identifier stays |
| ServerRuns.CalledIsRun | websocket.go:701-727 | accepting a call, with or without displacing another, is a run |
| ServerRuns.CalledKeeps | websocket.go:666-727 | a call that arrives takes its place by a run that keeps the invariant |
| ServerRuns.CancelledByKeeps | websocket.go:536-541 | xrpc.cancel is a run that keeps the invariant |
| ServerRuns.FinishedCallIsRun | websocket.go:684-699 | the body of finish is a run of its three parts |
| ServerRuns.FinishedCallKeeps | websocket.go:684-699 | a finished call is cancelled and holds no slot, and the invariant is kept |
| ServerRuns.SweepIsRun | websocket.go:784-786 | the second loop of closeInFlight is a run that cancels every swept call, in any order |
| ServerRuns.WithoutCallsKeeps | websocket.go:780-786 | sweeping all calls is a run that keeps the invariant |
| ServerRuns.OthersLeave | websocket.go:285-296 | between Load and CompareAndSwap no other goroutine moves the call |
| ServerRuns.CalledEffect | websocket.go:666-727 | an arriving call is stored as a new one and started, under its identifier if it has one, and only the call it displaces is cancelled; on a failed connection nothing changes |
| ServerRuns.CancelledByEffect | websocket.go:536-541 | the call stored under the identifier is cancelled, and no other |
| ServerRuns.FinishedCallEffect | websocket.go:684-699 | the first finish cancels the call, gives back its slot and takes out its own entry; a second does nothing |
| ServerRuns.WithoutCallsEffect | websocket.go:780-786 | exactly the calls in the table are cancelled, and it is empty |
| ServerRuns.HandlerAdvances | websocket.go:274-297 | every step of its goroutine takes a call further, except for a swap that fails because the counter changed; the counter rises only with a reservation |
| ServerRuns.FinishAdvances | websocket.go:684-699 | every step of finish takes it further, and the goroutine returns only after the last |
| ServerConn.WsConn.constructor | websocket.go:1021-1038 | the connection starts with the clamped limit, in a good state |
| ServerConn.WsConn.HandleCall | websocket.go:666-742 | in place: a call that is started is stored as a new one, under its identifier if it has one, and only a call it displaces is cancelled; a call with an identifier is not started on a failed connection |
| ServerConn.WsConn.CancelCtx | websocket.go:516-542 | cancels exactly the call the table holds for the identifier |
| ServerConn.WsConn.FinishCall | websocket.go:684-699 | once: cancels, releases the slot, and removes the entry only if it is still this call |
| ServerConn.WsConn.CloseHandling | websocket.go:780-786 | the table becomes empty and exactly the calls in it are cancelled |
| ServerConn.WsConn.TryReserve | websocket.go:286-296 | one Load and CompareAndSwap with any steps of others in between: it fails only if one of those steps changed the counter |
| ServerConn.WsConn.ReserveSubscription | websocket.go:274-297 | under any interference between Load and CompareAndSwap the loop reserves at most once, stays within the limit and ends when the interference does |
| ServerConn.WsConn.Run | websocket.go:666-742 | in whatever order the object's methods and single steps of other goroutines come, it is in a state that a run of the protocol reaches, so every theorem about runs holds of it |
| OutputTheorems.ForwardAligned | websocket.go:402-403 | the channel ID put on the wire belongs to the channel the value was received from |
| OutputTheorems.RegisterRefines | websocket.go:346-350 | registering adds exactly the new channel ID to the map the loop implements |
| OutputTheorems.RetireRefines | websocket.go:371-384 | swap-removal in both slices removes exactly the ended stream from the map |
| OutputTheorems.RetireLosesOne | websocket.go:371-384 | swap-removal reorders the registrations but loses exactly that of the ended stream |
| OutputTheorems.SlicesAgree | websocket.go:319-384 | after any run cases[i+2] and registrations[i] name the same channel, and channel IDs are distinct |
| OutputTheorems.InOrderIffAlone | websocket.go:402-403 | after any run a stream has exactly the values received from its channel, in order, if and only if no other stream has received any of them |
| OutputTheorems.UnsharedKeepsOrder | websocket.go:424-441 | if no other call has returned the channel of a stream and none does, the stream has exactly the channel's values in order on every continuation |
| OutputTheorems.SharedBreaksOrder | websocket.go:346-350 | once another stream of the same channel is registered, and the channel is open or holds a value, some continuation breaks the order |
| OutputTheorems.ValuesAreDealt | websocket.go:328-403 | after any run each value received from a channel went to exactly one of the streams of that channel: none is lost or sent twice, and each stream has its share in order |
| OutputTheorems.TriedIsStory | websocket.go:328-421 | for a stream alone on its channel the frames tried are a prefix of response, its encodable values in order, one close; and the whole of it once the close is tried |
| OutputTheorems.WireIsStory | websocket.go:299-422 | for a stream alone on its channel the frames on every connection continue its story; on a server, which never replaces its connection (websocket.go:874-876), they are a prefix of it |
| OutputTheorems.ServerStopsIff | websocket.go:413-417 | after any run a server's loop is done if and only if it was told to quit or a value was lost to a failed write; a loop at work has lost no value |
| OutputTheorems.ClientStopsIff | websocket.go:413-420 | the loop of a reconnecting client is done if and only if it was told to quit |
| OutputTheorems.SharedChannelSplits | websocket.go:346-350 | there is a run in which two calls return the same channel and a stream's frames are no prefix of its story |
| OutputBound.CasesBounded | websocket.go:309-351 | for every configured limit the slice of select cases never has more than 65536 entries, and an arriving registration always finds room |
| OutputBound.CasesAreActiveCalls | websocket.go:346-350 | while the loop is at work, case i + 2 receives from the channel of the i-th active call, which was accepted, holds its reservation and has the request ID of the registration |
| OutputBound.DecisionPossible | websocket.go:340-351 | a registration the loop has received it can always decide |
| OutChans.ForwardEffect | websocket.go:402-420 | the value is taken for the stream at the chosen position and sent under its channel ID if it encodes; the loop ends exactly if it is a server's and the write fails |
| OutChans.RegisterEffect | websocket.go:346-361 | both slices grow by the same stream, and its response is sent with its channel and request identifiers |
| OutChans.RetireEffect | websocket.go:368-399 | the last entries move into the gap of both slices and the close is sent |
| OutChans.WriteEffect | websocket.go:256-268 | a write goes out exactly if the connection works and goes on working |
| OutChans.ExitEffect | websocket.go:364-366 | a loop at work that is told to quit does |
| OutChans.OutLoop.Accept | websocket.go:332-363 | a full table refuses and changes nothing; otherwise both slices grow by the same stream and its response is sent |
| OutChans.OutLoop.ForwardMessage | websocket.go:402-420 | in place: one value is received and sent unless it does not encode; a failed write ends the loop of a server |
| OutChans.OutLoop.RetireChannel | websocket.go:368-399 | in place: the last entries move into the gap of both slices, the stream is cleaned up and its close sent |
| OutChans.OutLoop.CleanUp | websocket.go:322-326 | every registration left is cleaned up once |
| OutChans.OutLoop.HandleOutChans | websocket.go:301-422 | for every schedule the slices stay in step and the traces as promised; on leaving, exactly the streams that have not ended are cleaned up, once each |
| StreamWorker.StepKeeps | client.go:446-546 | delivered, list and queued input make up the accepted values, in order, at every step |
| StreamWorker.DeliveryInOrder | client.go:456-522 | the caller has a prefix of what the sink was given; if its channel closes without its context ending, the input was closed and it has everything |
| StreamWorker.CancelOnlyForCaller | websocket.go:460-489 | xrpc.cancel is sent only if the caller's context ended before the worker's own cancel |
| StreamWorker.CancelIffCaller | websocket.go:460-489 | once handleCtxAsync has decided, and unless the connection ended first, xrpc.cancel is sent if and only if the caller's context ended before the worker's own cancel |
| StreamWorker.WatchProgress | websocket.go:465-474 | once the context has ended, handleCtxAsync wakes and decides |
| StreamWorker.SinkProgress | client.go:541-544 | a sink holding a value can put it, drop it, or the worker can take one |
| StreamWorker.LoopEffect | client.go:463-521 | the oldest value queued moves to the end of the list and the front of the list to the caller; the goroutine leaves when cancelled or when the input is closed and all is delivered |
| StreamWorker.SinkEffect | client.go:524-545 | a value is held unless the context has ended, and goes to the end of the queue or is dropped |
| StreamWorker.OutChan.Select | client.go:463-521 | in place: one pass of the select loop |
| StreamWorker.OutChan.Callback | client.go:524-545 | the sink callback: decode, check the context, put or drop, close |
| StreamWorker.OutChan.Deferred | client.go:457-458 | the channel is closed before the context is cancelled with errChannelClosed |
| StreamWorker.OutChan.Run | client.go:456-522 | for every schedule the invariant of the buffer holds |
| EndToEnd.StepKeeps | websocket.go:548-602 | every step of methods, output loop, wire, executor and workers keeps what each worker knows in line with the frames handled |
| EndToEnd.CallbackIsSafe | client.go:524-545 | a frame for a published stream always finds its sink open and free |
| EndToEnd.ReceivedIsShare | websocket.go:299-422 | at every moment and for every stream the caller's values are a prefix of what the loop has taken for it, less those that fail to encode or decode |
| EndToEnd.CloseMeansShareComplete | client.go:439-549 | if the caller's channel closes without cancel or loss of the connection, the method closed its channel, all of it was taken, and the caller has all of its share |
| EndToEnd.ReceivedIsPrefix | websocket.go:299-422 | at every moment the caller's values are a prefix of what the remote method wrote, less those that fail to encode or decode, as long as no other stream has taken from the method's channel |
| EndToEnd.CloseMeansComplete | client.go:439-549 | if the caller's channel closes without cancel or loss of the connection, the method closed its channel and the caller has all of it |
| EndToEnd.StreamNeverStuck | client.go:463-521 | while connection and context live, as long as the method's channel is closed or holds values or the caller lacks some of its share, this stream can move: its registration is served, the next frame or the callback is handled, or its worker, or the one the callback waits for, takes or delivers |
| EndToEnd.MovesAdvance | client.go:463-521 | every such step gets the stream on: a value or the end is taken for it, a frame handled, the callback returned, or the worker has less to do |
| EndToEnd.AloneOnItsWay | client.go:463-521 | for a stream alone on its channel that is the case whenever the caller lacks something the method wrote |
| LockOrder.SectionsRanked | websocket.go:548-602 | every critical section, early exits included, takes locks in increasing rank, releases only what it holds, and ends with none |
| LockOrder.SectionsTake | websocket.go:548-659 | which locks each critical section takes, and inside of which others |
| LockOrder.MutualExclusion | websocket.go:925-948 | a lock is held by one goroutine at a time |
| LockOrder.NoDeadlock | websocket.go:626-659 | in no reachable state, with any number of goroutines, is there a cycle of lock waits |
| LockOrder.NeverStuck | websocket.go:1122-1146 | while some goroutine is in a critical section, one can perform its next lock operation |
| MessageWriter.MessagesAreAtomic | websocket.go:238-268 | every message on the wire holds all the bytes of exactly one request or response, which has at most that one |
| MessageWriter.AcquiredOnFirstWrite | handler.go:556-570 | a lazy writer is acquired at most once and only if Write was called; nothing is written before; and a first Write that has not got it waits for it |
| MessageWriter.WaitingWriterIsServed | handler.go:538-570 | a waiting writer can go on, or its acquirer can, or the holder of writeLk is still encoding |
| MessageWriter.UnlockEffect | websocket.go:245-253 | at the end of the callback the message goes out with what was written, if NextWriter and Close worked, and writeLk is free |
| MessageWriter.Connection.Write | handler.go:556-570 | the first write acquires, later ones only write |
| MessageWriter.Connection.WithLazyWriter | handler.go:538-547 | for any chunks one message with all of them, or none at all without chunks, and writeLk is free again |
| Handler.Handle | handler.go:343-533 | which reply, whether the context is kept and whether a slot was reserved, each as an if-and-only-if over the method, the parameters, the call and the encoder |
| Handler.ConditionsPlain | handler.go:351-435 | when a method is known, supported, admitted and reached, in terms of the method table, the subscription limit and the parameters |
| Batch.BatchItemWriter.Write | handler.go:246-267 | whatever the chunks, a write goes to this item's own element, opened with the right separator, also when the output fails; and it reports success exactly if all written so far fits, an empty write to a begun item aside |
| Batch.FramedStands | handler.go:222-266 | the output is empty without elements; otherwise it begins and ends with a bracket and holds each element in its place, separated by commas, and nothing else |
| Batch.HandleBatch | handler.go:205-224 | an empty batch is answered with one error; otherwise the output is nothing, or exactly the elements in brackets with commas; all cut off where the output fails |
| Batch.ElementsInOrder | handler.go:214-220 | the elements' identifiers are those of exactly the requests that reply, in their order, one element each |
| Batch.SilenceIff | handler.go:439-450 | a request gets no element if and only if its identifier is valid, its method known, its parameters decode and the call does not panic, and it is a notification or its result does not encode |
| Backoff.DelayInRange | util.go:65-81 | a defined delay lies between the minimum and the maximum |
| Backoff.DelayIsExponential | util.go:65-81 | below the maximum the delay is minimum times 1.5^attempt plus jitter, up to a nanosecond; for a negative attempt it is the minimum |
| Backoff.DelayGrows | util.go:70-72 | with the same jitter a later attempt never waits less |
| Backoff.DefinedIff | util.go:70-74 | for any bounds, every jitter gives a defined delay if and only if the delay without jitter plus the minimum is at most 2^63 |
| Backoff.SettledIff | util.go:70-80 | for 0 < min <= max < 2^63, no jitter gives a delay below the maximum if and only if the delay without jitter has reached the maximum |
| Backoff.DelaySettles | util.go:65-81 | there is a first attempt k from which that is so; the delay is the maximum with every jitter exactly from k on while the conversion is defined; and at k itself whenever 1.5*max + min <= 2^63 |
| Backoff.DefaultSettlesAt10 | options.go:40-43 | with the defaults that attempt is 10, and not 9, for every jitter |
| Backoff.DefaultDefinedIff | util.go:74 | with the defaults the conversion is defined if and only if the attempt is at most 62 |
| ErrorRegistry.Errors.constructor | errors.go:38-45 | a new registry knows the connection error's code and no type |
| ErrorRegistry.Errors.Register | errors.go:47-55 | both maps are updated for the pointer's element type, or nothing is and the call panics |
| ErrorRegistry.LastWins | errors.go:53 | a type has the code of its last registration |
| ErrorRegistry.CodeLeadsBackIff | errors.go:53-54 | the last code of a type leads back to it if and only if no later registration took the code over |
| ErrorRegistry.UserCodesLeaveOne | errors.go:36 | codes from FirstUserCode on leave the reserved code 1 unregistered |
| ErrorRegistry.RoundTripIff | handler.go:309-341 | a registered error comes back with type and payload if and only if its code leads back and its JSON restores the payload, or none is used and the payload is the zero value |
| ErrorRegistry.CodecRoundTripIff | response.go:69-73 | a type with its own conversion comes back as itself if and only if its code leads back and the conversions restore the payload; a failed one gives a generic error |
| ErrorRegistry.WithoutConversion | handler.go:323-329 | a failed conversion on the server sends code and message alone; without a registry everything is generic |
| ErrorRegistry.RegisteredComesBack | response.go:58-89 | after any registrations with distinct types and codes a pointer type with inverse JSON pair keeps type and payload |
| ErrorRegistry.UnregisteredIsGenericIff | response.go:58-89 | an unregistered error keeps its message, and comes back generic if and only if code 1 is unregistered or its type cannot read the metadata |
| ErrorRegistry.ValueTypeLosesPayload | handler.go:323-338 | a value type whose JSON pair is on the pointer comes back with the zero payload |
| Rendezvous.BodiesGoHome | httpio/reader.go:125-150 | a decoder gets only a body posted under its own UUID, and no body goes to two decoders |
| Rendezvous.MeetEffect | httpio/reader.go:106-146 | meeting hands the body to the decoder, whose reads and closes are then those of this post |
| Rendezvous.OkMeansConsumed | httpio/reader.go:114-122 | in every run `wait` is closed if and only if the body hit a read error or its end or was closed, and at most once; only then can a taken post be answered 200 |
| Rendezvous.SameUuidMeets | httpio/reader.go:93-112 | a waiting post and a waiting decoder can meet if and only if they have the same UUID |
| Rendezvous.PostCanBeServed | httpio/reader.go:85-150 | from any state a body posted under any UUID and a decoder asking for it can meet, be read to the end, and the post answered 200 |
| Rendezvous.PostEffect | httpio/reader.go:93-120 | an arriving post looks its channel up and offers its body; a cancelled one is answered 500 |
| Rendezvous.DecoderEffect | httpio/reader.go:136-149 | an arriving decoder looks its channel up and waits; a cancelled one fails |
| Rendezvous.BodyStays | httpio/reader.go:62-79 | reading and closing in any order and number close `wait` once |
| Rendezvous.BodyEffect | httpio/reader.go:62-79 | a failed read and a close close `wait`, and a read that does not fail leaves it alone |
| Rendezvous.Readers.ChannelOf | httpio/reader.go:136-142 | the channel of a UUID is made once and never replaced |
| Rendezvous.WaitReadCloser.Read | httpio/reader.go:68-74 | in place: an error closes `wait` unless it is closed |
| Rendezvous.WaitReadCloser.Close | httpio/reader.go:76-79 | in place: closing after the end or twice is safe |

## Left out

- JSON encoding and decoding, reflection and user callbacks: only whether they succeed, fail or panic is modelled.
- The transport: a FIFO of messages per connection that can break, after which every write fails. Dialling, timeouts, pings and read deadlines are not part of this model.
- Scheduling fairness: liveness is stated as "some step is enabled" or as a loop that ends.
- Logging, metrics, tracing, `auth/`, `method_formatter.go`, options and `server.go`: they do not change the state modelled here.
- `response.MarshalJSON` and the top level of `handleReader` (size limit, telling a batch from a single request): one branch each.
- float64 beyond non-negative integer keys, and string identifiers: keys are numbers.
- Durations outside of int64: the conversion is undefined in the model, as it is in the language.
- The classes run one stretch of code at a time; interleavings inside a stretch are covered by the transition systems, of which every stretch is a run. ReserveSubscription alone takes the interference as a parameter, and ServerConn.WsConn.Run single steps of others.
- Channel operations made while holding a mutex (a sink that waits for room holds its handler's lock, a lazy writer holds `writeLk`) are not lock waits: `LockOrder` is about mutexes, and `StreamWorker.SinkProgress` and `MessageWriter.WaitingWriterIsServed` about those two waits.
- Cancellation of a call's parent context by the end of the connection: calls without identifier are cancelled by nothing else.
- EndToEnd.ReceivedIsPrefix: one connection; after its loss the client reads what was already on the wire, but a reconnected client's new streams are a new instance.
- EndToEnd.CloseMeansComplete: publishing a sink is one step there; its interleaving with reconnect and teardown is in the client half.
- Handler.Handle: a panic in a parameter decoder ends the goroutine before any reply; it is one of the ways out in `ServerProtocol` and not in `Handle`.
- ClientTheorems.OnlyPendingFramesCross: its converse, ClientRuns.PendingFrameReachesAttempt, is about a loop in its select; one that is leaving takes no more requests.
- ClientTheorems.ConservedIff: as in ClientTheorems.LoseRequest, the counter is unbounded here; past 2^63-1 calls the source's int64 would wrap to negative identifiers.
- Caller.HandleRpcCall: answers come as a list, so a caller that retries forever is the result `Retrying` for every finite list.
