/**
 The client half of a WebSocket connection as a transition system.

 One event loop sends requests and runs reconnect cleanup and teardown, one frame executor handles
 what the peer sends, and any number of callers wait for answers. Every atomic step is one critical
 section, one channel operation or one callback, so a run is an arbitrary interleaving of those.
 */
module ClientProtocol {
  import opened Options
  import opened RequestIds

  // ---------- requests ----------

  // Who produced an answer. A peer answer remembers the epoch in which its frame was read and the
  // epoch in which handleResponse looked its request up.
  datatype Source =
    | Peer(frameEpoch: nat, lookupEpoch: nat, temporary: bool)
    | ConnectionClosed
    | WriteFailed
    | NotificationSent

  datatype Response = Response(key: Option<nat>, source: Source) {
    // The error code is eTempWSError, which the retry loop of handleRpcCall looks for.
    predicate Temporary() {
      match source
      case Peer(_, _, temporary) => temporary
      case NotificationSent => false
      case _ => true
    }
  }

  datatype Outcome = Answer(response: Response) | ExitError

  // The caller's view: waiting to hand the request over, waiting for an answer, or returned.
  datatype Stage = Offered | Accepted | Returned(outcome: Outcome)

  /** One clientRequest. Its index stands for the identity of its `ready` channel, which buffers one answer;
      `answers` is the history of all calls to respond, `taken` says the event loop received it, and
      `epoch` is the epoch in which it was stored in the in-flight table, if it was. */
  datatype Attempt = Attempt(
    key: Option<nat>,
    stream: bool,
    stage: Stage,
    taken: bool,
    ready: Option<Response>,
    answers: seq<Response>,
    epoch: Option<nat>)
  {
    function Respond(r: Response): Attempt {
      this.(ready := if ready.None? then Some(r) else ready, answers := answers + [r])
    }
  }

  // ---------- channel sinks ----------

  datatype SinkOp = Item(value: int) | End

  // Where a sink is: in the hands of the frame executor alone, in chanHandlers, taken by closeChans,
  // closed, or dropped because another sink was published under its channel ID.
  datatype Place = Private | Published(channel: nat) | Sweeping(channel: nat) | Closed | Overwritten

  datatype Sink = Sink(attempt: nat, place: Place, ops: seq<SinkOp>)

  // ---------- goroutines ----------

  // handleWsConn; `final` distinguishes the deferred teardown from tryReconnect.
  datatype Loop =
    | Select
    | Taken(attempt: nat)
    | Stored(attempt: nat)
    | Unsent(attempt: nat)
    | Removed(attempt: nat)
    | DropRequests(final: bool)
    | Draining(requests: map<nat, nat>, final: bool)
    | DropSinks(final: bool)
    | Sweep(sinks: map<nat, nat>, final: bool)
    | Gone

  // ---------- frames ----------

  // The result of a response, if it has one: a channel ID, or something that does not decode to one.
  datatype Result = Absent | Garbled | Channel(channel: nat)

  datatype Content =
    | Answered(key: nat, temporary: bool, result: Result)
    | ChanValue(chid: nat, value: int)
    | ChanClosed(chid: nat)

  // A frame, with the epoch in which it was read.
  datatype Frame = Frame(epoch: nat, content: Content)

  // websocket.go: maxQueuedFrames
  const MAX_QUEUED_FRAMES: nat := 256

  datatype Reply = Reply(
    key: nat,
    attempt: nat,
    frameEpoch: nat,
    lookupEpoch: nat,
    temporary: bool,
    result: Result,
    sink: Option<nat>)
  {
    function ChannelId(): nat {
      if result.Channel? then result.channel else 0
    }
  }

  // frameExecutor: handleResponse from lookup to delete, handleChanMessage and handleChanClose.
  datatype Executor =
    | Idle
    | Found(reply: Reply)
    | Built(reply: Reply)
    | Checked(reply: Reply)
    | Gate(reply: Reply)
    | Shown(reply: Reply)
    | Replied(reply: Reply)
    | Rejecting(sink: nat)
    | MessageFound(channel: nat, sink: nat, value: int)
    | MessageLocked(sink: nat, value: int)
    | EndFound(channel: nat, sink: nat)
    | EndLocked(sink: nat)

  /** `reading` are frames that readFrame has read but not queued yet, `queue` is frameExecQueue. */
  datatype Client = Client(
    idCtr: nat,
    attempts: seq<Attempt>,
    inflight: map<nat, nat>,
    chanHandlers: map<nat, nat>,
    sinks: seq<Sink>,
    failed: bool,
    epoch: nat,
    loop: Loop,
    reading: seq<Frame>,
    queue: seq<Frame>,
    exec: Executor)
  {
    // inflightLk is held by handleResponse from the second check to the delete.
    predicate InflightHeld() { exec.Checked? || exec.Gate? || exec.Shown? || exec.Replied? }

    // chanHandlersLk is held while publishing and while waiting for a handler's own lock.
    predicate HandlersHeld() { exec.Gate? || exec.MessageFound? || exec.EndFound? }

    // chanHandler.lk is held while its callback runs.
    predicate SinkHeld(k: nat) { (exec.MessageLocked? || exec.EndLocked?) && exec.sink == k }

    predicate Exited() { loop.Gone? }
  }

  const INIT := Client(0, [], map[], map[], [], false, 0, Select, [], [], Idle)

  // What callers do.
  datatype CallerEvent =
    | NewCall(stream: bool)
    | NewNotification
    | Retry(attempt: nat)
    | Receive(attempt: nat)
    | GiveUp(attempt: nat)

  // What the event loop does with one request.
  datatype SendEvent = Accept(attempt: nat) | Refuse | Store | WriteOk | WriteFail | Unstore | AnswerUnsent

  // Reconnect and teardown, and the closing of `failed` by any goroutine.
  datatype CleanupEvent =
    | BeginReconnect
    | BeginExit
    | TakeRequests
    | DrainOne(key: nat)
    | DrainDone
    | TakeSinks
    | SweepOne(channel: nat)
    | SweepDone
    | Fail

  // handleResponse in the frame executor.
  datatype ResponseEvent =
    | Lookup
    | BadChannelId
    | Build
    | Check
    | Enter
    | Publish
    | AnswerPeer
    | Delete
    | Reject

  // handleChanMessage and handleChanClose in the frame executor.
  datatype MessageEvent =
    | Message
    | LockMessage
    | Deliver
    | ChannelEnd
    | LockEnd
    | DeliverEnd

  // nextMessage and readFrame.
  datatype ReadEvent = Read(content: Content) | Queue(index: nat)

  datatype Event =
    | Reader(reader: ReadEvent)
    | Caller(caller: CallerEvent)
    | Send(send: SendEvent)
    | Cleanup(cleanup: CleanupEvent)
    | PeerResponse(response: ResponseEvent)
    | Stream(message: MessageEvent)

  function Respond(attempts: seq<Attempt>, a: nat, r: Response): seq<Attempt> {
    if a < |attempts| then attempts[a := attempts[a].Respond(r)] else attempts
  }

  // One call of a sink's callback.
  function Emit(sinks: seq<Sink>, k: nat, op: SinkOp): seq<Sink> {
    if k < |sinks| then
      sinks[k := Sink(sinks[k].attempt, if op.End? then Closed else sinks[k].place, sinks[k].ops + [op])]
    else sinks
  }

  function Move(sinks: seq<Sink>, k: nat, place: Place): seq<Sink> {
    if k < |sinks| then sinks[k := sinks[k].(place := place)] else sinks
  }

  // closeChans takes every published sink at once.
  function TakePublished(sinks: seq<Sink>): (r: seq<Sink>)
    ensures |r| == |sinks|
  {
    seq(|sinks|, k requires 0 <= k < |sinks| =>
      if sinks[k].place.Published? then sinks[k].(place := Sweeping(sinks[k].place.channel)) else sinks[k])
  }

  function KeyOf(s: Client, a: nat): Option<nat> {
    if a < |s.attempts| then s.attempts[a].key else None
  }

  predicate IsStream(s: Client, a: nat) {
    a < |s.attempts| && s.attempts[a].stream
  }

  // The caller of attempt a got a temporary error and has not tried again yet.
  predicate MayRetry(s: Client, a: nat) {
    && a < |s.attempts|
    && s.attempts[a].key.Some?
    && s.attempts[a].stage.Returned?
    && s.attempts[a].stage.outcome.Answer?
    && s.attempts[a].stage.outcome.response.Temporary()
    && forall b | a < b < |s.attempts| :: s.attempts[b].key != s.attempts[a].key
  }

  predicate CallerEnabled(s: Client, e: CallerEvent) {
    match e
    case NewCall(_) => true
    case NewNotification => true
    case Retry(a) => MayRetry(s, a)
    case Receive(a) => a < |s.attempts| && s.attempts[a].stage.Accepted? && s.attempts[a].ready.Some?
    case GiveUp(a) =>
      a < |s.attempts| && s.Exited() &&
      (s.attempts[a].stage.Offered? || (s.attempts[a].stage.Accepted? && s.attempts[a].ready.None?))
  }

  predicate SendEnabled(s: Client, e: SendEvent) {
    match e
    case Accept(a) => s.loop.Select? && a < |s.attempts| && s.attempts[a].stage.Offered?
    case Refuse => s.loop.Taken? && KeyOf(s, s.loop.attempt).Some?
    case Store => s.loop.Taken? && (KeyOf(s, s.loop.attempt).Some? ==> !s.InflightHeld())
    case WriteOk => s.loop.Stored?
    case WriteFail => s.loop.Stored?
    case Unstore => s.loop.Unsent? && (KeyOf(s, s.loop.attempt).Some? ==> !s.InflightHeld())
    case AnswerUnsent => s.loop.Removed?
  }

  predicate CleanupEnabled(s: Client, e: CleanupEvent) {
    match e
    // nextMessage or readFrame has failed, and no reader is left.
    case BeginReconnect => s.loop.Select? && !s.failed && s.reading == []
    case BeginExit => s.loop.Select?
    case TakeRequests => s.loop.DropRequests? && !s.InflightHeld()
    case DrainOne(key) => s.loop.Draining? && key in s.loop.requests
    case DrainDone => s.loop.Draining? && s.loop.requests == map[]
    case TakeSinks => s.loop.DropSinks? && !s.HandlersHeld()
    case SweepOne(channel) => s.loop.Sweep? && channel in s.loop.sinks && !s.SinkHeld(s.loop.sinks[channel])
    case SweepDone => s.loop.Sweep? && s.loop.sinks == map[]
    case Fail => true
  }

  predicate ResponseEnabled(s: Client, e: ResponseEvent) {
    match e
    case Lookup => s.exec.Idle? && s.queue != [] && s.queue[0].content.Answered?
    case BadChannelId => s.exec.Found? && IsStream(s, s.exec.reply.attempt) && s.exec.reply.result.Garbled?
    case Build => s.exec.Found? && !(IsStream(s, s.exec.reply.attempt) && s.exec.reply.result.Garbled?)
    case Check => s.exec.Built?
    case Enter => s.exec.Checked? && s.exec.reply.sink.Some?
    case Publish => s.exec.Gate?
    case AnswerPeer => s.exec.Shown? || (s.exec.Checked? && s.exec.reply.sink.None?)
    case Delete => s.exec.Replied?
    case Reject => s.exec.Rejecting?
  }

  predicate MessageEnabled(s: Client, e: MessageEvent) {
    match e
    case Message => s.exec.Idle? && s.queue != [] && s.queue[0].content.ChanValue?
    case LockMessage => s.exec.MessageFound?
    case Deliver => s.exec.MessageLocked?
    case ChannelEnd => s.exec.Idle? && s.queue != [] && s.queue[0].content.ChanClosed?
    case LockEnd => s.exec.EndFound?
    case DeliverEnd => s.exec.EndLocked?
  }

  // The event loop drops what belongs to the connection that has failed.
  predicate Reconnecting(l: Loop) {
    (l.DropRequests? || l.Draining? || l.DropSinks? || l.Sweep?) && !l.final
  }

  // One frame at a time is read: the next one only after readFrame has queued it, and none while reconnecting.
  predicate ReadEnabled(s: Client, e: ReadEvent) {
    match e
    case Read(_) => s.reading == [] && !Reconnecting(s.loop)
    case Queue(i) => i < |s.reading| && |s.queue| < MAX_QUEUED_FRAMES
  }

  predicate Enabled(s: Client, e: Event) {
    match e
    case Reader(c) => ReadEnabled(s, c)
    case Caller(c) => CallerEnabled(s, c)
    case Send(c) => SendEnabled(s, c)
    case Cleanup(c) => CleanupEnabled(s, c)
    case PeerResponse(c) => ResponseEnabled(s, c)
    case Stream(c) => MessageEnabled(s, c)
  }

  // ---------- callers ----------

  function Call(s: Client, stream: bool): Client {
    var key := ToFloat64(s.idCtr + 1);
    s.(idCtr := s.idCtr + 1, attempts := s.attempts + [Attempt(Some(key), stream, Offered, false, None, [], None)])
  }

  function Notify(s: Client): Client {
    s.(attempts := s.attempts + [Attempt(None, false, Offered, false, None, [], None)])
  }

  function TryAgain(s: Client, a: nat): Client
    requires a < |s.attempts|
  {
    s.(attempts := s.attempts + [Attempt(s.attempts[a].key, s.attempts[a].stream, Offered, false, None, [], None)])
  }

  function ReceiveAnswer(s: Client, a: nat): Client
    requires a < |s.attempts| && s.attempts[a].ready.Some?
  {
    var t := s.attempts[a];
    s.(attempts := s.attempts[a := t.(stage := Returned(Answer(t.ready.value)), ready := None)])
  }

  function GiveUpAtExit(s: Client, a: nat): Client
    requires a < |s.attempts|
  {
    s.(attempts := s.attempts[a := s.attempts[a].(stage := Returned(ExitError))])
  }

  // ---------- event loop: one request ----------

  function TakeRequest(s: Client, a: nat): Client
    requires a < |s.attempts|
  {
    s.(attempts := s.attempts[a := s.attempts[a].(stage := Accepted, taken := true)], loop := Taken(a))
  }

  function RefuseRequest(s: Client, a: nat): Client {
    s.(attempts := Respond(s.attempts, a, Response(KeyOf(s, a), ConnectionClosed)), loop := Select)
  }

  function StoreRequest(s: Client, a: nat): Client {
    if KeyOf(s, a).None? then s.(loop := Stored(a))
    else
      s.(attempts := s.attempts[a := s.attempts[a].(epoch := Some(s.epoch))],
         inflight := s.inflight[KeyOf(s, a).value := a],
         loop := Stored(a))
  }

  // A notification is answered as soon as it is written.
  function RequestWritten(s: Client, a: nat): Client {
    if KeyOf(s, a).None? then
      s.(attempts := Respond(s.attempts, a, Response(None, NotificationSent)), loop := Select)
    else s.(loop := Select)
  }

  function RemoveUnsent(s: Client, a: nat): Client {
    var key := KeyOf(s, a);
    s.(inflight := if key.Some? then s.inflight - {key.value} else s.inflight, loop := Removed(a))
  }

  function ReportUnsent(s: Client, a: nat): Client {
    s.(attempts := Respond(s.attempts, a, Response(KeyOf(s, a), WriteFailed)), loop := Select)
  }

  // ---------- event loop: closeInFlight and closeChans ----------

  function TakeInflight(s: Client, final: bool): Client {
    s.(inflight := map[], epoch := s.epoch + 1, loop := Draining(s.inflight, final))
  }

  function AnswerDropped(s: Client, requests: map<nat, nat>, final: bool, key: nat): Client
    requires key in requests
  {
    s.(attempts := Respond(s.attempts, requests[key], Response(Some(key), ConnectionClosed)),
       loop := Draining(requests - {key}, final))
  }

  function TakeHandlers(s: Client, final: bool): Client {
    s.(chanHandlers := map[], sinks := TakePublished(s.sinks), loop := Sweep(s.chanHandlers, final))
  }

  function CloseSwept(s: Client, sinks: map<nat, nat>, final: bool, channel: nat): Client
    requires channel in sinks
  {
    s.(sinks := Emit(s.sinks, sinks[channel], End), loop := Sweep(sinks - {channel}, final))
  }

  // ---------- frame executor: handleResponse ----------

  function Popped(s: Client): Client
    requires s.queue != []
  {
    s.(queue := s.queue[1..])
  }

  function LookupRequest(s: Client, frameEpoch: nat, key: nat, temporary: bool, result: Result): Client {
    if key !in s.inflight then s
    else s.(exec := Found(Reply(key, s.inflight[key], frameEpoch, s.epoch, temporary, result, None)))
  }

  function BuildSink(s: Client, r: Reply): Client {
    if IsStream(s, r.attempt) && !r.result.Absent? then
      s.(sinks := s.sinks + [Sink(r.attempt, Private, [])], exec := Built(r.(sink := Some(|s.sinks|))))
    else s.(exec := Built(r))
  }

  function CheckCurrent(s: Client, r: Reply): Client {
    if r.key in s.inflight && s.inflight[r.key] == r.attempt then s.(exec := Checked(r))
    else if r.sink.Some? then s.(exec := Rejecting(r.sink.value))
    else s.(exec := Idle)
  }

  function EnterGate(s: Client, r: Reply): Client
    requires r.sink.Some?
  {
    s.(exec := if s.failed then Rejecting(r.sink.value) else Gate(r))
  }

  function PublishSink(s: Client, r: Reply): Client {
    if r.sink.None? then s
    else
      var channel := r.ChannelId();
      var sinks := if channel in s.chanHandlers then Move(s.sinks, s.chanHandlers[channel], Overwritten) else s.sinks;
      s.(sinks := Move(sinks, r.sink.value, Published(channel)),
         chanHandlers := s.chanHandlers[channel := r.sink.value],
         exec := Shown(r))
  }

  function AnswerRequest(s: Client, r: Reply): Client {
    var answer := Response(Some(r.key), Peer(r.frameEpoch, r.lookupEpoch, r.temporary));
    s.(attempts := Respond(s.attempts, r.attempt, answer), exec := Replied(r))
  }

  function RejectSink(s: Client, k: nat): Client {
    s.(sinks := Emit(s.sinks, k, End), exec := Idle)
  }

  // ---------- frame executor: handleChanMessage and handleChanClose ----------

  function FindForMessage(s: Client, channel: nat, value: int): Client {
    if channel in s.chanHandlers then s.(exec := MessageFound(channel, s.chanHandlers[channel], value)) else s
  }

  function DeliverMessage(s: Client, k: nat, value: int): Client {
    s.(sinks := Emit(s.sinks, k, Item(value)), exec := Idle)
  }

  function FindForEnd(s: Client, channel: nat): Client {
    if channel in s.chanHandlers then s.(exec := EndFound(channel, s.chanHandlers[channel])) else s
  }

  function RemoveHandler(s: Client, channel: nat, k: nat): Client {
    s.(chanHandlers := s.chanHandlers - {channel}, sinks := Move(s.sinks, k, Private), exec := EndLocked(k))
  }

  function CallerNext(s: Client, e: CallerEvent): Client
    requires CallerEnabled(s, e)
  {
    match e
    case NewCall(stream) => Call(s, stream)
    case NewNotification => Notify(s)
    case Retry(a) => TryAgain(s, a)
    case Receive(a) => ReceiveAnswer(s, a)
    case GiveUp(a) => GiveUpAtExit(s, a)
  }

  function SendNext(s: Client, e: SendEvent): Client
    requires SendEnabled(s, e)
  {
    match e
    case Accept(a) => TakeRequest(s, a)
    case Refuse => RefuseRequest(s, s.loop.attempt)
    case Store => StoreRequest(s, s.loop.attempt)
    case WriteOk => RequestWritten(s, s.loop.attempt)
    case WriteFail => s.(loop := Unsent(s.loop.attempt))
    case Unstore => RemoveUnsent(s, s.loop.attempt)
    case AnswerUnsent => ReportUnsent(s, s.loop.attempt)
  }

  function CleanupNext(s: Client, e: CleanupEvent): Client
    requires CleanupEnabled(s, e)
  {
    match e
    case BeginReconnect => s.(loop := DropRequests(false))
    case BeginExit => s.(failed := true, loop := DropSinks(true))
    case TakeRequests => TakeInflight(s, s.loop.final)
    case DrainOne(key) => AnswerDropped(s, s.loop.requests, s.loop.final, key)
    case DrainDone => s.(loop := if s.loop.final then Gone else DropSinks(false))
    case TakeSinks => TakeHandlers(s, s.loop.final)
    case SweepOne(channel) => CloseSwept(s, s.loop.sinks, s.loop.final, channel)
    case SweepDone =>
      s.(loop := if s.loop.final then DropRequests(true) else if s.failed then DropSinks(true) else Select)
    case Fail => s.(failed := true)
  }

  function ResponseNext(s: Client, e: ResponseEvent): Client
    requires ResponseEnabled(s, e)
  {
    match e
    case Lookup =>
      var f := s.queue[0];
      LookupRequest(Popped(s), f.epoch, f.content.key, f.content.temporary, f.content.result)
    case BadChannelId => s.(exec := Idle)
    case Build => BuildSink(s, s.exec.reply)
    case Check => CheckCurrent(s, s.exec.reply)
    case Enter => EnterGate(s, s.exec.reply)
    case Publish => PublishSink(s, s.exec.reply)
    case AnswerPeer => AnswerRequest(s, s.exec.reply)
    case Delete => s.(inflight := s.inflight - {s.exec.reply.key}, exec := Idle)
    case Reject => RejectSink(s, s.exec.sink)
  }

  function MessageNext(s: Client, e: MessageEvent): Client
    requires MessageEnabled(s, e)
  {
    match e
    case Message => FindForMessage(Popped(s), s.queue[0].content.chid, s.queue[0].content.value)
    case LockMessage => s.(exec := MessageLocked(s.exec.sink, s.exec.value))
    case Deliver => DeliverMessage(s, s.exec.sink, s.exec.value)
    case ChannelEnd => FindForEnd(Popped(s), s.queue[0].content.chid)
    case LockEnd => RemoveHandler(s, s.exec.channel, s.exec.sink)
    case DeliverEnd => RejectSink(s, s.exec.sink)
  }

  function ReadNext(s: Client, e: ReadEvent): Client
    requires ReadEnabled(s, e)
  {
    match e
    case Read(content) => s.(reading := s.reading + [Frame(s.epoch, content)])
    case Queue(i) => s.(reading := s.reading[..i] + s.reading[i + 1..], queue := s.queue + [s.reading[i]])
  }

  function Next(s: Client, e: Event): Client
    requires Enabled(s, e)
  {
    match e
    case Reader(c) => ReadNext(s, c)
    case Caller(c) => CallerNext(s, c)
    case Send(c) => SendNext(s, c)
    case Cleanup(c) => CleanupNext(s, c)
    case PeerResponse(c) => ResponseNext(s, c)
    case Stream(c) => MessageNext(s, c)
  }

  function Step(s: Client, e: Event): Option<Client> {
    if Enabled(s, e) then Some(Next(s, e)) else None
  }
}
