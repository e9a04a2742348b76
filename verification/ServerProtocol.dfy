/**
 The server half of a WebSocket connection as a transition system.

 The frame executor starts one goroutine per call, the output loop owns the registered streams, the
 event loop sweeps on reconnect and teardown, and a call is finished once, by whichever of handler
 and output loop gets there first. Atomic steps are critical sections, single atomic operations on
 the subscription counter and channel operations.
 */
module ServerProtocol {
  import opened Options
  import opened Slices
  import opened SelectCases

  const DEFAULT_MAX_SUBSCRIPTIONS: int := 16384

  // The limit handleWsConn works with.
  function EffectiveLimit(configured: int): (limit: int)
    ensures 0 < limit && limit + INTERNAL_CASES <= MAX_SELECT_CASES
    ensures configured <= 0 ==> limit == DEFAULT_MAX_SUBSCRIPTIONS
    ensures configured > 0 && configured + INTERNAL_CASES <= MAX_SELECT_CASES ==> limit == configured
    ensures configured + INTERNAL_CASES > MAX_SELECT_CASES ==> limit + INTERNAL_CASES == MAX_SELECT_CASES
  {
    var limit := if configured <= 0 then DEFAULT_MAX_SUBSCRIPTIONS else configured;
    if limit > MAX_SELECT_CASES - INTERNAL_CASES then MAX_SELECT_CASES - INTERNAL_CASES else limit
  }

  // Where the goroutine running handler.handle is.
  datatype Phase =
    | Waiting           // stored in `handling`, not started yet
    | Started
    | Admitting         // in the compare-and-swap loop of reserveSubscription
    | Counted(count: int)
    | Admitted          // holds a reservation; decodes parameters and calls the method
    | Running           // the same for a method without a channel result
    | Offering          // sending its registration to the output loop
    | HandedOver        // waiting for the output loop's decision
    | Leaving           // done(false): finish comes next
    | Streaming         // done(true): the output loop will finish
    | Over

  // Progress of finish, whose body runs once.
  datatype Finish = Live | Stopped | Released | Finished

  datatype Call = Call(
    id: Option<nat>,
    phase: Phase,
    finish: Finish,
    reserved: bool,
    releases: nat,
    cancelled: bool,
    swept: bool,
    accepted: Option<bool>)

  // Why a handler leaves without a stream.
  datatype Reason =
    | ParamsNotArray
    | WrongCount
    | DecoderFailed
    | Panicked
    | NotificationDone
    | MethodFailed
    | NilChannel
    | Answered

  datatype Executor = Idle | Gate(id: nat) | Displacing(previous: nat, call: nat) | Cancelling(call: nat)

  datatype Sweep = Resting | Sweeping(calls: map<nat, nat>, final: bool) | Torn

  datatype Output =
    | Unborn
    | Selecting
    | Received(call: nat)
    | Cleaning(call: nat)
    | Draining
    | DrainCleaning(call: nat)
    | Done

  datatype Server = Server(
    limit: int,
    calls: seq<Call>,
    handling: map<nat, nat>,
    subscriptions: int,
    failed: bool,
    exec: Executor,
    sweep: Sweep,
    out: Output,
    active: seq<nat>)

  function Init(limit: int): Server {
    Server(limit, [], map[], 0, false, Idle, Resting, Unborn, [])
  }

  // handleCall and cancelCtx
  datatype ExecEvent = Arrive(id: Option<nat>) | Insert | CancelDisplaced | XCancel(target: nat) | DoCancel

  // handler.handle, reserveSubscription and handleChanOut
  datatype HandlerEvent =
    | NoMethod
    | StartPlain
    | RefuseReserve
    | StartReserve
    | LoadCount
    | CompareAndSwap
    | Leave(reason: Reason)
    | Register
    | OfferFails
    | SeeAccepted
    | HandoverLost

  // finish, and the handler's return from it
  datatype FinishEvent = Stop | Release | Forget | Return

  // handleOutChans
  datatype OutputEvent =
    | HandOff(call: nat)
    | Decide
    | StreamEnds(index: nat)
    | CleanDone
    | Quit
    | DrainNext
    | DrainCleaned
    | QuitDone

  // the second half of closeInFlight, and the closing of `failed`
  datatype SweepEvent = BeginSweep(final: bool) | SweepOne(id: nat) | SweepDone | Fail

  datatype Event =
    | Frame(frame: ExecEvent)
    | Handler(call: nat, handler: HandlerEvent)
    | Finishing(call: nat, finish: FinishEvent)
    | Out(out: OutputEvent)
    | Cleanup(cleanup: SweepEvent)

  // ---------- frame executor ----------

  function NewCall(id: Option<nat>, phase: Phase): Call {
    Call(id, phase, Live, false, 0, false, false, None)
  }

  predicate ExecEnabled(s: Server, e: ExecEvent) {
    match e
    case Arrive(_) => s.exec.Idle?
    case Insert => s.exec.Gate?
    case CancelDisplaced => s.exec.Displacing?
    case XCancel(_) => s.exec.Idle?
    case DoCancel => s.exec.Cancelling?
  }

  function Cancel(calls: seq<Call>, n: nat): seq<Call> {
    if n < |calls| then calls[n := calls[n].(cancelled := true)] else calls
  }

  function Start(calls: seq<Call>, n: nat): seq<Call> {
    if n < |calls| then calls[n := calls[n].(phase := Started)] else calls
  }

  function InsertCall(s: Server, id: nat): Server {
    var n := |s.calls|;
    var displaced := id in s.handling;
    s.(calls := s.calls + [NewCall(Some(id), if displaced then Waiting else Started)],
       handling := s.handling[id := n],
       exec := if displaced then Displacing(s.handling[id], n) else Idle)
  }

  function ExecNext(s: Server, e: ExecEvent): Server
    requires ExecEnabled(s, e)
  {
    match e
    case Arrive(id) =>
      if id.None? then s.(calls := s.calls + [NewCall(None, Started)])
      else if s.failed then s
      else s.(exec := Gate(id.value))
    case Insert => InsertCall(s, s.exec.id)
    case CancelDisplaced => s.(calls := Start(Cancel(s.calls, s.exec.previous), s.exec.call), exec := Idle)
    case XCancel(id) => if id in s.handling then s.(exec := Cancelling(s.handling[id])) else s
    case DoCancel => s.(calls := Cancel(s.calls, s.exec.call), exec := Idle)
  }

  // ---------- handler goroutines ----------

  predicate HandlerEnabled(s: Server, n: nat, e: HandlerEvent) {
    && n < |s.calls|
    && var c := s.calls[n];
       match e
       case NoMethod => c.phase.Started?
       case StartPlain => c.phase.Started?
       case RefuseReserve => c.phase.Started?
       case StartReserve => c.phase.Started? && !s.failed && !c.cancelled
       case LoadCount => c.phase.Admitting?
       case CompareAndSwap => c.phase.Counted?
       case Leave(reason) => (c.phase.Admitted? || c.phase.Running?) && (reason.NotificationDone? ==> c.id.None?)
       case Register => c.phase.Admitted? && c.id.Some?
       case OfferFails => c.phase.Offering? && (s.failed || s.out.Done?)
       case SeeAccepted => c.phase.HandedOver? && c.accepted.Some?
       case HandoverLost => c.phase.HandedOver? && s.out.Done?
  }

  function At(s: Server, n: nat, phase: Phase): Server
    requires n < |s.calls|
  {
    s.(calls := s.calls[n := s.calls[n].(phase := phase)])
  }

  function HandlerNext(s: Server, n: nat, e: HandlerEvent): Server
    requires HandlerEnabled(s, n, e)
  {
    var c := s.calls[n];
    match e
    case NoMethod => At(s, n, Leaving)
    case StartPlain => At(s, n, Running)
    case RefuseReserve => At(s, n, Leaving)
    case StartReserve => At(s, n, Admitting)
    case LoadCount => At(s, n, if s.subscriptions >= s.limit then Leaving else Counted(s.subscriptions))
    case CompareAndSwap =>
      if s.subscriptions == c.phase.count then
        s.(calls := s.calls[n := c.(phase := Admitted, reserved := true)], subscriptions := s.subscriptions + 1)
      else At(s, n, Admitting)
    case Leave(_) => At(s, n, Leaving)
    case Register => At(s, n, Offering).(out := if s.out.Unborn? then Selecting else s.out)
    case OfferFails => At(s, n, Leaving)
    case SeeAccepted => At(s, n, if c.accepted.value then Streaming else Leaving)
    case HandoverLost => At(s, n, Leaving)
  }

  // ---------- finish ----------

  predicate OutputCleans(s: Server, n: nat) {
    (s.out.Cleaning? || s.out.DrainCleaning?) && s.out.call == n
  }

  predicate FinishEnabled(s: Server, n: nat, e: FinishEvent) {
    && n < |s.calls|
    && match e
       case Stop => s.calls[n].finish.Live? && (s.calls[n].phase.Leaving? || OutputCleans(s, n))
       case Release => s.calls[n].finish.Stopped?
       case Forget => s.calls[n].finish.Released? && !s.exec.Gate?
       case Return => s.calls[n].phase.Leaving? && s.calls[n].finish.Finished?
  }

  function FinishNext(s: Server, n: nat, e: FinishEvent): Server
    requires FinishEnabled(s, n, e)
  {
    var c := s.calls[n];
    match e
    case Stop => s.(calls := s.calls[n := c.(finish := Stopped, cancelled := true)])
    case Release =>
      if c.reserved then
        s.(calls := s.calls[n := c.(finish := Released, releases := c.releases + 1)],
           subscriptions := s.subscriptions - 1)
      else s.(calls := s.calls[n := c.(finish := Released)])
    case Forget =>
      s.(calls := s.calls[n := c.(finish := Finished)],
         handling := if c.id.Some? && c.id.value in s.handling && s.handling[c.id.value] == n
                     then s.handling - {c.id.value} else s.handling)
    case Return => At(s, n, Over)
  }

  // ---------- output loop ----------

  predicate OutEnabled(s: Server, e: OutputEvent) {
    match e
    case HandOff(n) => s.out.Selecting? && n < |s.calls| && s.calls[n].phase.Offering?
    case Decide => s.out.Received? && s.out.call < |s.calls|
    case StreamEnds(i) => s.out.Selecting? && i < |s.active|
    case CleanDone => s.out.Cleaning? && s.out.call < |s.calls| && s.calls[s.out.call].finish.Finished?
    case Quit => s.out.Selecting?
    case DrainNext => s.out.Draining? && s.active != []
    case DrainCleaned => s.out.DrainCleaning? && s.out.call < |s.calls| && s.calls[s.out.call].finish.Finished?
    case QuitDone => s.out.Draining? && s.active == []
  }

  function OutNext(s: Server, e: OutputEvent): Server
    requires OutEnabled(s, e)
  {
    match e
    case HandOff(n) => At(s, n, HandedOver).(out := Received(n))
    case Decide =>
      var n := s.out.call;
      var taken := |s.active| < s.limit;
      s.(calls := s.calls[n := s.calls[n].(accepted := Some(taken))],
         active := if taken then s.active + [n] else s.active,
         out := Selecting)
    case StreamEnds(i) => s.(active := SwapRemove(s.active, i), out := Cleaning(s.active[i]))
    case CleanDone => s.(out := Selecting)
    case Quit => s.(out := Draining)
    case DrainNext => s.(active := s.active[1..], out := DrainCleaning(s.active[0]))
    case DrainCleaned => s.(out := Draining)
    case QuitDone => s.(failed := true, out := Done)
  }

  // ---------- sweeping ----------

  predicate CleanupEnabled(s: Server, e: SweepEvent) {
    match e
    case BeginSweep(final) => s.sweep.Resting? && !s.exec.Gate? && (final ==> s.failed)
    case SweepOne(id) => s.sweep.Sweeping? && id in s.sweep.calls
    case SweepDone => s.sweep.Sweeping? && s.sweep.calls == map[]
    case Fail => true
  }

  function MarkSwept(calls: seq<Call>, handling: map<nat, nat>): (r: seq<Call>)
    ensures |r| == |calls|
  {
    seq(|calls|, n requires 0 <= n < |calls| =>
      if calls[n].id.Some? && calls[n].id.value in handling && handling[calls[n].id.value] == n
      then calls[n].(swept := true) else calls[n])
  }

  function CleanupNext(s: Server, e: SweepEvent): Server
    requires CleanupEnabled(s, e)
  {
    match e
    case BeginSweep(final) =>
      s.(calls := MarkSwept(s.calls, s.handling), handling := map[], sweep := Sweeping(s.handling, final))
    case SweepOne(id) =>
      s.(calls := Cancel(s.calls, s.sweep.calls[id]), sweep := Sweeping(s.sweep.calls - {id}, s.sweep.final))
    case SweepDone => s.(sweep := if s.sweep.final then Torn else Resting)
    case Fail => s.(failed := true)
  }

  predicate Enabled(s: Server, e: Event) {
    match e
    case Frame(f) => ExecEnabled(s, f)
    case Handler(n, h) => HandlerEnabled(s, n, h)
    case Finishing(n, f) => FinishEnabled(s, n, f)
    case Out(o) => OutEnabled(s, o)
    case Cleanup(c) => CleanupEnabled(s, c)
  }

  function Next(s: Server, e: Event): Server
    requires Enabled(s, e)
  {
    match e
    case Frame(f) => ExecNext(s, f)
    case Handler(n, h) => HandlerNext(s, n, h)
    case Finishing(n, f) => FinishNext(s, n, f)
    case Out(o) => OutNext(s, o)
    case Cleanup(c) => CleanupNext(s, c)
  }

  function Step(s: Server, e: Event): Option<Server> {
    if Enabled(s, e) then Some(Next(s, e)) else None
  }
}
