/**
 client.makeOutChan: the sink that accepts values of one stream, the goroutine that buffers them without
 bound and hands them to the caller, and handleCtxAsync, which watches the stream's context.
 */
module StreamWorker {
  import opened Options
  import opened Runs

  // The capacity of `incoming`.
  const CAPACITY: nat := 32

  // Whether and why chanCtx ended; the first cause stays.
  datatype Cause = Alive | CallerDone | ChannelClosed

  // The goroutine: in its select loop, out of it, with the caller's channel closed, with chanCtx cancelled as well.
  datatype Stage = Looping | Left | Closed | Ended

  // The sink callback: idle, or past its check of chanCtx with a value in hand.
  datatype Sink = Free | Holding(value: int)

  // handleCtxAsync
  datatype Watch = Waiting | Woken | CancelSent | Stopped

  datatype Worker = Worker(
    offered: seq<int>,     // decoded values given to the sink
    accepted: seq<int>,    // those that went into `incoming`
    queue: seq<int>,       // now in `incoming`
    inputClosed: bool,
    sawClose: bool,        // incomingCh == nil
    list: seq<int>,        // the unbounded buffer
    delivered: seq<int>,   // received by the caller
    cause: Cause,
    stage: Stage,
    sink: Sink,
    watch: Watch)

  const INIT := Worker([], [], [], false, false, [], [], Alive, Looping, Free, Waiting)

  datatype SinkEvent = Offer(value: int) | Put | Drop | CloseInput

  datatype LoopEvent = TakeCancel | TakeInput | TakeClose | Deliver | CloseChan | CancelSelf

  datatype ContextEvent = CallerCancels | Wake | Quit | Decide

  datatype Event = ToSink(sink: SinkEvent) | ToLoop(loop: LoopEvent) | ToContext(context: ContextEvent)

  predicate SinkEnabled(w: Worker, e: SinkEvent) {
    match e
    case Offer(_) => w.sink.Free? && !w.inputClosed
    case Put => w.sink.Holding? && |w.queue| < CAPACITY
    case Drop => w.sink.Holding? && !w.cause.Alive?
    case CloseInput => w.sink.Free? && !w.inputClosed
  }

  function SinkNext(w: Worker, e: SinkEvent): Worker
    requires SinkEnabled(w, e)
  {
    match e
    case Offer(v) => w.(offered := w.offered + [v], sink := if !w.cause.Alive? then Free else Holding(v))
    case Put => w.(queue := w.queue + [w.sink.value], accepted := w.accepted + [w.sink.value], sink := Free)
    case Drop => w.(sink := Free)
    case CloseInput => w.(inputClosed := true)
  }

  predicate LoopEnabled(w: Worker, e: LoopEvent) {
    match e
    case TakeCancel => w.stage.Looping? && !w.cause.Alive?
    case TakeInput => w.stage.Looping? && !w.sawClose && w.queue != []
    case TakeClose => w.stage.Looping? && !w.sawClose && w.queue == [] && w.inputClosed
    case Deliver => w.stage.Looping? && w.list != []
    case CloseChan => w.stage.Left?
    case CancelSelf => w.stage.Closed?
  }

  // The loop ends by itself once the input is closed and the buffer is empty.
  function Settle(w: Worker): Worker {
    if w.sawClose && w.list == [] then w.(stage := Left) else w
  }

  function LoopNext(w: Worker, e: LoopEvent): Worker
    requires LoopEnabled(w, e)
  {
    match e
    case TakeCancel => w.(stage := Left)
    case TakeInput => Settle(w.(queue := w.queue[1..], list := w.list + [w.queue[0]]))
    case TakeClose => Settle(w.(sawClose := true))
    case Deliver => Settle(w.(list := w.list[1..], delivered := w.delivered + [w.list[0]]))
    case CloseChan => w.(stage := Closed)
    case CancelSelf => w.(stage := Ended, cause := if w.cause.Alive? then ChannelClosed else w.cause)
  }

  predicate ContextEnabled(w: Worker, e: ContextEvent) {
    match e
    case CallerCancels => true
    case Wake => w.watch.Waiting? && !w.cause.Alive?
    case Quit => w.watch.Waiting?
    case Decide => w.watch.Woken?
  }

  function ContextNext(w: Worker, e: ContextEvent): Worker
    requires ContextEnabled(w, e)
  {
    match e
    case CallerCancels => w.(cause := if w.cause.Alive? then CallerDone else w.cause)
    case Wake => w.(watch := Woken)
    case Quit => w.(watch := Stopped)
    case Decide => w.(watch := if w.cause == ChannelClosed then Stopped else CancelSent)
  }

  predicate Enabled(w: Worker, e: Event) {
    match e
    case ToSink(x) => SinkEnabled(w, x)
    case ToLoop(x) => LoopEnabled(w, x)
    case ToContext(x) => ContextEnabled(w, x)
  }

  function Next(w: Worker, e: Event): Worker
    requires Enabled(w, e)
  {
    match e
    case ToSink(x) => SinkNext(w, x)
    case ToLoop(x) => LoopNext(w, x)
    case ToContext(x) => ContextNext(w, x)
  }

  function Step(w: Worker, e: Event): Option<Worker> {
    if Enabled(w, e) then Some(Next(w, e)) else None
  }

  // ---------- the invariant ----------

  function InHand(w: Worker): seq<int> {
    if w.sink.Holding? then [w.sink.value] else []
  }

  // What has been delivered, buffered and queued is what was accepted, in order; and nothing is lost
  // unless the caller's context ended.
  ghost predicate Inv(w: Worker) {
    && w.accepted == w.delivered + w.list + w.queue
    && w.accepted + InHand(w) <= w.offered
    && (w.cause != CallerDone ==> w.accepted + InHand(w) == w.offered)
    && (w.inputClosed ==> w.sink.Free?)
    && (w.sawClose ==> w.inputClosed && w.queue == [])
    && (w.sink.Holding? ==> w.accepted + InHand(w) == w.offered)
    && (!w.stage.Looping? && w.cause != CallerDone ==> w.sawClose && w.list == [])
    && (w.stage.Looping? && w.sawClose ==> w.list != [])
    && (w.cause == ChannelClosed ==> w.stage.Ended?)
    && (w.watch.Woken? ==> !w.cause.Alive?)
    && (w.watch.CancelSent? ==> w.cause == CallerDone)
  }

  lemma SinkKeeps(w: Worker, e: SinkEvent)
    requires Inv(w) && SinkEnabled(w, e)
    ensures Inv(SinkNext(w, e))
  {
  }

  // The head of one queue moves to the end of the one before it.
  lemma Shift(before: seq<int>, a: seq<int>, b: seq<int>)
    requires b != []
    ensures before + (a + [b[0]]) + b[1..] == before + a + b
  {
    assert b == [b[0]] + b[1..];
  }

  lemma LoopKeeps(w: Worker, e: LoopEvent)
    requires Inv(w) && LoopEnabled(w, e)
    ensures Inv(LoopNext(w, e))
  {
    if e.TakeInput? {
      Shift(w.delivered, w.list, w.queue);
    } else if e.Deliver? {
      Shift([], w.delivered, w.list);
    }
  }

  lemma StepKeeps(w: Worker, e: Event)
    requires Inv(w) && Enabled(w, e)
    ensures Inv(Next(w, e))
  {
    match e
    case ToSink(x) => SinkKeeps(w, x);
    case ToLoop(x) => LoopKeeps(w, x);
    case ToContext(x) =>
  }

  lemma RunKeeps(run: seq<Event>, w: Worker)
    requires After(INIT, Step, run) == Some(w)
    ensures Inv(w)
  {
    forall u, e | Inv(u) && Step(u, e).Some? ensures Inv(Step(u, e).value) {
      StepKeeps(u, e);
    }
    Invariant(INIT, Step, u => Inv(u), run);
  }

  // The caller always has a prefix of what the sink was given. If its channel closes and its context has
  // not ended, then the input was closed and the caller has everything.
  lemma DeliveryInOrder(run: seq<Event>, w: Worker)
    requires After(INIT, Step, run) == Some(w)
    ensures w.delivered <= w.offered
    ensures !w.stage.Looping? && w.cause != CallerDone ==> w.inputClosed && w.delivered == w.offered
  {
    RunKeeps(run, w);
  }

  // xrpc.cancel is sent only if the caller's context ended before the worker ended the context itself.
  lemma CancelOnlyForCaller(run: seq<Event>, w: Worker)
    requires After(INIT, Step, run) == Some(w) && w.watch.CancelSent?
    ensures w.cause == CallerDone
  {
    RunKeeps(run, w);
  }

  ghost predicate Quits(run: seq<Event>) {
    ToContext(Quit) in run
  }

  // And it is sent whenever handleCtxAsync has decided so: unless the connection ended first, xrpc.cancel is sent
  // if and only if the caller's context ended before the worker's own cancel.
  lemma CancelIffCaller(run: seq<Event>, w: Worker)
    requires After(INIT, Step, run) == Some(w) && !Quits(run) && (w.watch == Stopped || w.watch == CancelSent)
    ensures w.watch == CancelSent <==> w.cause == CallerDone
    ensures w.watch == Stopped <==> w.cause == ChannelClosed
  {
    var inv := (r: seq<Event>, u: Worker) => Inv(u) && (u.watch == Stopped && !Quits(r) ==> u.cause == ChannelClosed);
    forall r, u, e | After(INIT, Step, r) == Some(u) && inv(r, u) && Step(u, e).Some?
      ensures inv(r + [e], Step(u, e).value)
    {
      assert Quits(r + [e]) <==> Quits(r) || e == ToContext(Quit);
      StepKeeps(u, e);
    }
    HistoryInvariant(INIT, Step, inv, run);
  }

  // It never waits for good once the context has ended.
  lemma WatchProgress(w: Worker)
    ensures w.watch == Waiting && w.cause != Alive ==> ContextEnabled(w, Wake) && ContextNext(w, Wake).watch == Woken
    ensures w.watch == Woken ==>
              ContextEnabled(w, Decide) &&
              ContextNext(w, Decide).watch == if w.cause == ChannelClosed then Stopped else CancelSent
  {
  }

  // While the goroutine loops, the sink is never stuck: it can put its value, or the loop can take one, or the
  // context ended.
  lemma SinkProgress(run: seq<Event>, w: Worker)
    requires After(INIT, Step, run) == Some(w) && w.sink.Holding?
    ensures SinkEnabled(w, Put) || SinkEnabled(w, Drop) || LoopEnabled(w, TakeInput)
  {
    RunKeeps(run, w);
  }

  // ---------- what each step does, in plain terms ----------

  // The goroutine: the oldest value queued moves to the end of the list, the front of the list to the caller; and
  // it leaves when it is cancelled, or when the input is closed and everything delivered.
  lemma LoopEffect(w: Worker, e: LoopEvent)
    requires LoopEnabled(w, e)
    ensures var v := LoopNext(w, e);
            && v.offered == w.offered && v.accepted == w.accepted && v.sink == w.sink && v.watch == w.watch
            && v.inputClosed == w.inputClosed
            && match e
               case TakeCancel => v == w.(stage := Left)
               case TakeInput =>
                 && v.list == w.list + [w.queue[0]] && v.queue == w.queue[1..] && v.delivered == w.delivered
                 && v.stage == Looping && v.cause == w.cause
               case TakeClose =>
                 && v.sawClose && v.list == w.list && v.queue == w.queue && v.delivered == w.delivered
                 && v.stage == (if w.list == [] then Left else Looping) && v.cause == w.cause
               case Deliver =>
                 && v.delivered == w.delivered + [w.list[0]] && v.list == w.list[1..] && v.queue == w.queue
                 && v.stage == (if w.sawClose && |w.list| == 1 then Left else Looping) && v.cause == w.cause
               case CloseChan => v == w.(stage := Closed)
               case CancelSelf => v.stage == Ended && v.cause == (if w.cause == Alive then ChannelClosed else w.cause)
  {
  }

  // The sink: a value offered is held unless the context has ended, and goes to the end of the queue or is dropped.
  lemma SinkEffect(w: Worker, e: SinkEvent)
    requires SinkEnabled(w, e)
    ensures var v := SinkNext(w, e);
            match e
            case Offer(value) =>
              v == w.(offered := w.offered + [value], sink := if w.cause == Alive then Holding(value) else Free)
            case Put =>
              v == w.(queue := w.queue + [w.sink.value], accepted := w.accepted + [w.sink.value], sink := Free)
            case Drop => v == w.(sink := Free) && w.cause != Alive
            case CloseInput => v == w.(inputClosed := true)
  {
  }

  lemma ContextEffect(w: Worker, e: ContextEvent)
    requires ContextEnabled(w, e)
    ensures var v := ContextNext(w, e);
            match e
            case CallerCancels => v == w.(cause := if w.cause == Alive then CallerDone else w.cause)
            case Wake => v == w.(watch := Woken) && w.cause != Alive
            case Quit => v == w.(watch := Stopped)
            case Decide => v == w.(watch := if w.cause == ChannelClosed then Stopped else CancelSent)
  {
  }

  // ---------- the goroutine itself ----------

  /** The goroutine with its buffer and its two channels. A schedule resolves every select and says what the
      sink, the caller and the context do in between. */
  class OutChan {
    var queue: seq<int>
    var inputClosed: bool
    var sawClose: bool
    var list: seq<int>
    var delivered: seq<int>
    var cause: Cause
    var stage: Stage
    var sink: Sink
    var watch: Watch
    var offered: seq<int>
    var accepted: seq<int>

    function View(): Worker
      reads this
    {
      Worker(offered, accepted, queue, inputClosed, sawClose, list, delivered, cause, stage, sink, watch)
    }

    constructor ()
      ensures View() == INIT
    {
      queue, list, delivered, offered, accepted := [], [], [], [], [];
      inputClosed, sawClose := false, false;
      cause, stage, sink, watch := Alive, Looping, Free, Waiting;
    }

    // One pass of the select loop, in the order of its cases.
    method Select(chosen: LoopEvent) returns (fired: bool)
      requires !chosen.CloseChan? && !chosen.CancelSelf?
      modifies this
      ensures fired == LoopEnabled(old(View()), chosen)
      ensures View() == if fired then LoopNext(old(View()), chosen) else old(View())
    {
      fired := false;
      if chosen.TakeCancel? && stage.Looping? && !cause.Alive? {
        stage := Left;
        return true;
      }
      if chosen.TakeInput? && stage.Looping? && !sawClose && queue != [] {
        var value := queue[0];
        queue := queue[1..];
        list := list + [value];
        fired := true;
      } else if chosen.TakeClose? && stage.Looping? && !sawClose && queue == [] && inputClosed {
        sawClose := true;
        fired := true;
      } else if chosen.Deliver? && stage.Looping? && list != [] {
        delivered := delivered + [list[0]];
        list := list[1..];
        fired := true;
      }
      if fired && sawClose && list == [] {
        stage := Left;
      }
    }

    // The two deferred calls: close the caller's channel, then cancel chanCtx with errChannelClosed.
    method Deferred(call: LoopEvent) returns (fired: bool)
      requires call.CloseChan? || call.CancelSelf?
      modifies this
      ensures fired == LoopEnabled(old(View()), call)
      ensures View() == if fired then LoopNext(old(View()), call) else old(View())
    {
      fired := false;
      if call.CloseChan? && stage.Left? {
        stage := Closed;
        fired := true;
      } else if call.CancelSelf? && stage.Closed? {
        stage := Ended;
        if cause.Alive? {
          cause := ChannelClosed;
        }
        fired := true;
      }
    }

    // The sink callback, split where it may wait.
    method Callback(e: SinkEvent) returns (fired: bool)
      modifies this
      ensures fired == SinkEnabled(old(View()), e)
      ensures View() == if fired then SinkNext(old(View()), e) else old(View())
    {
      fired := false;
      match e
      case Offer(value) =>
        if sink.Free? && !inputClosed {
          offered := offered + [value];
          if cause.Alive? {
            sink := Holding(value);
          }
          fired := true;
        }
      case Put =>
        if sink.Holding? && |queue| < CAPACITY {
          queue, accepted := queue + [sink.value], accepted + [sink.value];
          sink := Free;
          fired := true;
        }
      case Drop =>
        if sink.Holding? && !cause.Alive? {
          sink := Free;
          fired := true;
        }
      case CloseInput =>
        if sink.Free? && !inputClosed {
          inputClosed := true;
          fired := true;
        }
    }

    // The caller's context, and handleCtxAsync.
    method Context(e: ContextEvent) returns (fired: bool)
      modifies this
      ensures fired == ContextEnabled(old(View()), e)
      ensures View() == if fired then ContextNext(old(View()), e) else old(View())
    {
      fired := true;
      if e.CallerCancels? {
        if cause.Alive? {
          cause := CallerDone;
        }
      } else if e.Wake? && watch.Waiting? && !cause.Alive? {
        watch := Woken;
      } else if e.Quit? && watch.Waiting? {
        watch := Stopped;
      } else if e.Decide? && watch.Woken? {
        watch := if cause == ChannelClosed then Stopped else CancelSent;
      } else {
        fired := false;
      }
    }

    // Somebody's turn, in which nothing happens if the step is not possible.
    method Turn(e: Event)
      modifies this
      ensures View() == if Enabled(old(View()), e) then Next(old(View()), e) else old(View())
    {
      match e
      case ToLoop(chosen) =>
        if chosen.CloseChan? || chosen.CancelSelf? {
          var _ := Deferred(chosen);
        } else {
          var _ := Select(chosen);
        }
      case ToSink(x) =>
        var _ := Callback(x);
      case ToContext(x) =>
        var _ := Context(x);
    }

    method Run(schedule: seq<Event>)
      requires Inv(View())
      modifies this
      ensures View() == Play(old(View()), Step, schedule)
      ensures Inv(View()) && delivered + list + queue == accepted
    {
      var i := 0;
      while i < |schedule|
        invariant 0 <= i <= |schedule|
        invariant View() == Play(old(View()), Step, schedule[..i])
        invariant Inv(View())
      {
        var e := schedule[i];
        assert schedule[..i + 1][..i] == schedule[..i];
        if Enabled(View(), e) {
          StepKeeps(View(), e);
        }
        Turn(e);
        i := i + 1;
      }
      assert schedule[..i] == schedule;
    }
  }
}
