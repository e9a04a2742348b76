/**
 One connection end to end: methods writing to their channels, the server's output loop, the wire as a
 FIFO, the client's frame executor and one stream worker per published channel, all interleaved freely.
 */
module EndToEnd {
  import opened Options
  import opened Runs
  import opened SelectCases
  import O = OutputLoop
  import T = OutputTheorems
  import W = StreamWorker

  // The client's frame executor: idle, or in the sink callback of a stream.
  datatype Executor = Idle | InSink(chID: nat)

  /** `read` frames of out.log have been handled; `handlers` are the published streams, `closing` those
      that closeChans has taken after a loss of the connection. */
  datatype System = System(
    out: O.Loop,
    read: nat,
    workers: map<nat, W.Worker>,
    handlers: set<nat>,
    closing: set<nat>,
    exec: Executor,
    lost: bool)

  function Init(limit: int): System {
    System(O.Init(true, limit), 0, map[], {}, {}, Idle, false)
  }

  datatype Event =
    | Server(server: O.Event)
    | Read
    | InCallback(sink: W.SinkEvent)
    | Worker(chID: nat, loop: W.LoopEvent)
    | Context(chID: nat, context: W.ContextEvent)
    | Lose
    | CloseOne(chID: nat)

  predicate Enabled(s: System, e: Event) {
    match e
    case Server(x) => O.Enabled(s.out, x)
    case Read => s.exec.Idle? && s.read < |s.out.log|
    case InCallback(x) =>
      s.exec.InSink? && s.exec.chID in s.workers && (x.Put? || x.Drop?) && W.SinkEnabled(s.workers[s.exec.chID], x)
    case Worker(c, x) => c in s.workers && W.LoopEnabled(s.workers[c], x)
    case Context(c, x) => c in s.workers && W.ContextEnabled(s.workers[c], x)
    case Lose => true
    case CloseOne(c) =>
      c in s.closing && c in s.workers && s.exec != InSink(c) && W.SinkEnabled(s.workers[c], W.CloseInput)
  }

  // A response with a channel ID publishes its sink, unless the request went with the connection.
  function HandleOpened(s: System, c: nat): System {
    if s.lost then s else s.(workers := s.workers[c := W.INIT], handlers := s.handlers + {c})
  }

  // A value that does not decode is logged and skipped.
  function HandleValue(s: System, c: nat, item: O.Item): System {
    if c !in s.handlers || c !in s.workers || !item.decodes || !W.SinkEnabled(s.workers[c], W.Offer(item.value)) then s
    else
      var w := W.SinkNext(s.workers[c], W.Offer(item.value));
      s.(workers := s.workers[c := w], exec := if w.sink.Holding? then InSink(c) else Idle)
  }

  function HandleEnded(s: System, c: nat): System {
    if c !in s.handlers || c !in s.workers || !W.SinkEnabled(s.workers[c], W.CloseInput) then s
    else s.(handlers := s.handlers - {c}, workers := s.workers[c := W.SinkNext(s.workers[c], W.CloseInput)])
  }

  function HandleFrame(s: System, m: O.Msg): System {
    match m
    case Opened(c, _) => HandleOpened(s, c)
    case Value(c, item) => HandleValue(s, c, item)
    case Ended(c) => HandleEnded(s, c)
  }

  function Next(s: System, e: Event): System
    requires Enabled(s, e)
  {
    match e
    case Server(x) => s.(out := O.Next(s.out, x))
    case Read => HandleFrame(s, s.out.log[s.read]).(read := s.read + 1)
    case InCallback(x) =>
      var c := s.exec.chID;
      s.(workers := s.workers[c := W.SinkNext(s.workers[c], x)], exec := Idle)
    case Worker(c, x) => s.(workers := s.workers[c := W.LoopNext(s.workers[c], x)])
    case Context(c, x) => s.(workers := s.workers[c := W.ContextNext(s.workers[c], x)])
    case Lose => s.(handlers := {}, closing := s.closing + s.handlers, lost := true)
    case CloseOne(c) =>
      s.(closing := s.closing - {c}, workers := s.workers[c := W.SinkNext(s.workers[c], W.CloseInput)])
  }

  function Step(s: System, e: Event): Option<System> {
    if Enabled(s, e) then Some(Next(s, e)) else None
  }

  // ---------- what a stretch of frames carries ----------

  // The values a client decodes from the frames of one stream.
  function Decoded(frames: seq<O.Msg>): seq<int> {
    if frames == [] then []
    else
      var last := frames[|frames| - 1];
      Decoded(frames[..|frames| - 1]) + (if last.Value? && last.item.decodes then [last.item.value] else [])
  }

  // What a method wrote, less the values that fail to encode or to decode.
  function Clean(items: seq<O.Item>): seq<int> {
    if items == [] then []
    else
      var last := items[|items| - 1];
      Clean(items[..|items| - 1]) + (if last.encodes && last.decodes then [last.value] else [])
  }

  lemma DecodedSnoc(frames: seq<O.Msg>, m: O.Msg)
    ensures Decoded(frames + [m]) == Decoded(frames) + (if m.Value? && m.item.decodes then [m.item.value] else [])
  {
    assert (frames + [m])[..|frames|] == frames;
  }

  lemma {:induction false} DecodedPrefix(a: seq<O.Msg>, b: seq<O.Msg>)
    requires a <= b
    ensures Decoded(a) <= Decoded(b)
  {
    if a != b {
      DecodedPrefix(a, b[..|b| - 1]);
      assert b == b[..|b| - 1] + [b[|b| - 1]];
    }
  }

  // Encoding, sending and decoding loses exactly the values that do not encode or decode.
  lemma {:induction false} DecodedValues(c: nat, head: O.Msg, items: seq<O.Item>)
    requires head.Opened?
    ensures Decoded([head] + O.Values(c, O.Encodable(items))) == Clean(items)
  {
    if items == [] {
      assert [head] + O.Values(c, []) == [] + [head];
      DecodedSnoc([], head);
    } else {
      var front, last := items[..|items| - 1], items[|items| - 1];
      assert items == front + [last];
      DecodedValues(c, head, front);
      O.EncodableSnoc(front, last);
      if last.encodes {
        O.ValuesSnoc(c, O.Encodable(front), last);
        var frames := [head] + O.Values(c, O.Encodable(front));
        assert [head] + O.Values(c, O.Encodable(items)) == frames + [O.Value(c, last)];
        DecodedSnoc(frames, O.Value(c, last));
      } else {
        assert O.Encodable(items) == O.Encodable(front);
        assert Clean(items) == Clean(front);
      }
    }
  }

  // ---------- the shape of a stream ----------

  // One response first, one end last, values in between.
  ghost predicate Shaped(frames: seq<O.Msg>) {
    forall i | 0 <= i < |frames| ::
      (frames[i].Opened? <==> i == 0) && (frames[i].Ended? ==> i == |frames| - 1)
  }

  lemma ExpectedShaped(s: O.Loop, c: nat)
    requires T.OffersOk(s)
    ensures Shaped(T.Expected(s, c))
  {
  }

  // The frames of stream c the client has handled.
  function Seen(s: System, c: nat): seq<O.Msg> {
    if s.read <= |s.out.log| then O.Trace(s.out.log[..s.read], c) else []
  }

  lemma SeenNext(s: System, c: nat)
    requires T.Inv(s.out) && s.out.base == 0 && s.read < |s.out.log|
    ensures var m := s.out.log[s.read];
            var t := O.Trace(s.out.log[..s.read + 1], c);
            t == Seen(s, c) + (if m.chID == c then [m] else []) && t <= T.Expected(s.out, c) && Shaped(t)
  {
    var log := s.out.log;
    var m := log[s.read];
    assert log[..s.read + 1] == log[..s.read] + [m];
    O.TraceSnoc(log[..s.read], m, c);
    O.TracePrefix(log[..s.read + 1], log, c);
    O.TracePrefix(log, s.out.tried, c);
    assert O.Trace(s.out.tried, c) == T.Expected(s.out, c);
    ExpectedShaped(s.out, c);
  }

  // ---------- the invariant ----------

  // What the worker of stream c knows, given the frames handled so far.
  ghost predicate StreamOk(s: System, c: nat, frames: seq<O.Msg>) {
    && Shaped(frames)
    && (c in s.workers ==> frames != [] && W.Inv(s.workers[c]) && s.workers[c].offered <= Decoded(frames))
    && (!s.lost ==> (c in s.workers <==> frames != []))
    && (!s.lost && c in s.workers ==>
          && s.workers[c].offered == Decoded(frames)
          && (s.workers[c].inputClosed <==> frames[|frames| - 1].Ended?)
          && (c in s.handlers <==> !s.workers[c].inputClosed))
    && (c in s.handlers || c in s.closing ==> c in s.workers && !s.workers[c].inputClosed)
    && (c in s.workers ==> (s.workers[c].sink.Holding? <==> s.exec == InSink(c)))
    && (s.exec == InSink(c) ==> c in s.workers)
    && (c in s.handlers ==> !s.lost)
    && (c in s.closing ==> s.lost)
  }

  ghost predicate Inv(s: System) {
    && T.Inv(s.out) && s.out.serverSide && s.out.base == 0
    && s.read <= |s.out.log|
    && forall c: nat :: StreamOk(s, c, Seen(s, c))
  }

  lemma InitInv(limit: int)
    ensures Inv(Init(limit))
  {
    T.InitInv(true, limit);
  }

  lemma ServerKeeps(s: System, e: O.Event)
    requires Inv(s) && O.Enabled(s.out, e)
    ensures Inv(Next(s, Server(e)))
  {
    var t := Next(s, Server(e));
    T.StepKeeps(s.out, e);
    LogGrows(s.out, e);
    assert t.out.log[..s.read] == s.out.log[..s.read];
    forall c: nat ensures StreamOk(t, c, Seen(t, c)) {
      assert StreamOk(s, c, Seen(s, c));
    }
  }

  lemma LogGrows(s: O.Loop, e: O.Event)
    requires O.Enabled(s, e) && s.serverSide && s.base == 0
    ensures s.log <= O.Next(s, e).log && O.Next(s, e).serverSide && O.Next(s, e).base == 0
  {
    match e
    case Source(x) =>
    case Select(x) =>
    case Link(x) =>
  }

  lemma FrameKeeps(s: System, m: O.Msg, c: nat, frames: seq<O.Msg>)
    requires s.exec.Idle? && StreamOk(s, c, frames)
    requires Shaped(frames + (if m.chID == c then [m] else []))
    ensures StreamOk(HandleFrame(s, m), c, frames + (if m.chID == c then [m] else []))
  {
    if m.chID == c {
      DecodedSnoc(frames, m);
      assert (frames + [m])[|frames|] == m;
      assert m.Opened? <==> |frames| == 0;
      assert frames != [] ==> !frames[|frames| - 1].Ended? by {
        if frames != [] { assert (frames + [m])[|frames| - 1] == frames[|frames| - 1]; }
      }
      if m.Value? && c in s.handlers && m.item.decodes {
        W.SinkKeeps(s.workers[c], W.Offer(m.item.value));
      }
      if m.Ended? && c in s.handlers {
        W.SinkKeeps(s.workers[c], W.CloseInput);
      }
    } else {
      assert frames + [] == frames;
    }
  }

  // StreamOk says nothing about how far the client has read.
  lemma ReadingOn(s: System, c: nat, frames: seq<O.Msg>, read: nat)
    requires StreamOk(s, c, frames)
    ensures StreamOk(s.(read := read), c, frames)
  {
  }

  lemma FrameLeavesServer(s: System, m: O.Msg)
    ensures HandleFrame(s, m).out == s.out
  {
  }

  lemma ReadStream(s: System, c: nat)
    requires Inv(s) && Enabled(s, Read)
    ensures StreamOk(Next(s, Read), c, O.Trace(s.out.log[..s.read + 1], c))
  {
    SeenNext(s, c);
    assert StreamOk(s, c, Seen(s, c));
    FrameKeeps(s, s.out.log[s.read], c, Seen(s, c));
    ReadingOn(HandleFrame(s, s.out.log[s.read]), c, O.Trace(s.out.log[..s.read + 1], c), s.read + 1);
  }

  lemma ReadKeeps(s: System)
    requires Inv(s) && Enabled(s, Read)
    ensures Inv(Next(s, Read))
  {
    var t := Next(s, Read);
    FrameLeavesServer(s, s.out.log[s.read]);
    forall c: nat ensures StreamOk(t, c, Seen(t, c)) {
      ReadStream(s, c);
    }
  }

  // A step inside one worker that neither offers to it nor closes its input.
  lemma WorkerKeeps(s: System, t: System, c: nat, w: W.Worker)
    requires Inv(s) && c in s.workers && t == s.(workers := s.workers[c := w], exec := t.exec)
    requires W.Inv(w) && w.offered == s.workers[c].offered && w.inputClosed == s.workers[c].inputClosed
    requires (t.exec == s.exec && w.sink == s.workers[c].sink) || (s.exec == InSink(c) && t.exec.Idle? && w.sink.Free?)
    ensures Inv(t)
  {
    forall d: nat ensures StreamOk(t, d, Seen(t, d)) {
      assert StreamOk(s, d, Seen(s, d)) && StreamOk(s, c, Seen(s, c));
    }
  }

  lemma LossKeeps(s: System, e: Event)
    requires Inv(s) && Enabled(s, e) && (e.Lose? || e.CloseOne?)
    ensures Inv(Next(s, e))
  {
    var t := Next(s, e);
    if e.CloseOne? {
      assert StreamOk(s, e.chID, Seen(s, e.chID));
      W.SinkKeeps(s.workers[e.chID], W.CloseInput);
    }
    forall c: nat ensures StreamOk(t, c, Seen(t, c)) {
      assert StreamOk(s, c, Seen(s, c));
    }
  }

  lemma StepKeeps(s: System, e: Event)
    requires Inv(s) && Enabled(s, e)
    ensures Inv(Next(s, e))
  {
    match e
    case Server(x) => ServerKeeps(s, x);
    case Read => ReadKeeps(s);
    case InCallback(x) =>
      assert StreamOk(s, s.exec.chID, Seen(s, s.exec.chID));
      W.SinkKeeps(s.workers[s.exec.chID], x);
      WorkerKeeps(s, Next(s, e), s.exec.chID, W.SinkNext(s.workers[s.exec.chID], x));
    case Worker(c, x) =>
      assert StreamOk(s, c, Seen(s, c));
      W.LoopKeeps(s.workers[c], x);
      WorkerKeeps(s, Next(s, e), c, W.LoopNext(s.workers[c], x));
    case Context(c, x) =>
      assert StreamOk(s, c, Seen(s, c));
      W.StepKeeps(s.workers[c], W.ToContext(x));
      WorkerKeeps(s, Next(s, e), c, W.ContextNext(s.workers[c], x));
    case Lose => LossKeeps(s, e);
    case CloseOne(_) => LossKeeps(s, e);
  }

  ghost predicate Reaches(limit: int, run: seq<Event>, s: System) {
    After(Init(limit), Step, run) == Some(s)
  }

  lemma RunKeeps(limit: int, run: seq<Event>, s: System)
    requires Reaches(limit, run, s)
    ensures Inv(s)
  {
    InitInv(limit);
    forall u, e | Inv(u) && Step(u, e).Some? ensures Inv(Step(u, e).value) {
      StepKeeps(u, e);
    }
    Invariant(Init(limit), Step, u => Inv(u), run);
  }

  // A frame for a published stream always finds its sink free and open: nothing is put into, or closed, twice.
  lemma CallbackIsSafe(limit: int, run: seq<Event>, s: System, c: nat)
    requires Reaches(limit, run, s) && s.exec.Idle? && c in s.handlers
    ensures c in s.workers && s.workers[c].sink.Free? && !s.workers[c].inputClosed
  {
    RunKeeps(limit, run, s);
    assert StreamOk(s, c, Seen(s, c));
  }

  // ---------- the stream theorems ----------

  // What the method behind stream c has written so far.
  function Written(s: System, c: nat): seq<O.Item> {
    if 0 < c <= |s.out.offers| && s.out.offers[c - 1].ch < |s.out.chans|
    then s.out.chans[s.out.offers[c - 1].ch].written else []
  }

  predicate SourceClosed(s: System, c: nat) {
    0 < c <= |s.out.offers| && s.out.offers[c - 1].ch < |s.out.chans| && s.out.chans[s.out.offers[c - 1].ch].closed
  }

  // What the loop has taken from the method's channel for stream c, its share if other streams take from it too, less
  // what does not encode or decode.
  function Share(s: System, c: nat): seq<int> {
    Clean(O.Got(s.out, c))
  }

  lemma DecodedExpected(s: O.Loop, c: nat)
    requires T.OffersOk(s)
    ensures Decoded(T.Expected(s, c)) == Clean(O.Got(s, c))
  {
    if c in s.got {
      var head := O.Opened(c, s.offers[c - 1].reqID);
      var begun := [head] + O.Values(c, O.Encodable(s.got[c]));
      DecodedValues(c, head, s.got[c]);
      if c in s.ended {
        assert T.Expected(s, c) == begun + [O.Ended(c)];
        DecodedSnoc(begun, O.Ended(c));
      } else {
        assert T.Expected(s, c) == begun;
      }
    }
  }

  lemma SeenIsExpected(s: System, c: nat)
    requires Inv(s)
    ensures Seen(s, c) <= T.Expected(s.out, c)
  {
    O.TracePrefix(s.out.log[..s.read], s.out.log, c);
    O.TracePrefix(s.out.log, s.out.tried, c);
    assert O.Trace(s.out.tried, c) == T.Expected(s.out, c);
  }

  // At every moment and for every stream, what the caller has received is a prefix of what the loop has taken for it.
  lemma ReceivedIsShare(limit: int, run: seq<Event>, s: System, c: nat)
    requires Reaches(limit, run, s) && c in s.workers
    ensures s.workers[c].delivered <= Share(s, c)
  {
    RunKeeps(limit, run, s);
    SeenIsExpected(s, c);
    DecodedPrefix(Seen(s, c), T.Expected(s.out, c));
    DecodedExpected(s.out, c);
    assert StreamOk(s, c, Seen(s, c));
  }

  // The end of a stream is the last frame expected for it.
  lemma EndIsLast(s: O.Loop, c: nat, frames: seq<O.Msg>)
    requires T.OffersOk(s) && frames <= T.Expected(s, c) && frames != [] && frames[|frames| - 1].Ended?
    ensures c in s.got && c in s.ended && frames == T.Expected(s, c)
  {
    assert T.Expected(s, c)[|frames| - 1] == frames[|frames| - 1];
  }

  // If the caller's channel closes although its context did not end and the connection was not lost, then the
  // remote method closed its channel, the loop has taken everything from it, and the caller has received all of the
  // stream's share.
  lemma CloseMeansShareComplete(limit: int, run: seq<Event>, s: System, c: nat)
    requires Reaches(limit, run, s) && c in s.workers
    requires !s.workers[c].stage.Looping? && s.workers[c].cause != W.CallerDone && !s.lost
    ensures SourceClosed(s, c) && !Untaken(s, c) && s.workers[c].delivered == Share(s, c)
  {
    RunKeeps(limit, run, s);
    var frames := Seen(s, c);
    assert StreamOk(s, c, frames);
    assert frames != [] && frames[|frames| - 1].Ended?;
    SeenIsExpected(s, c);
    EndIsLast(s.out, c, frames);
    DecodedExpected(s.out, c);
    assert T.ShareOk(s.out, c);
  }

  // The loop has not taken everything the method wrote.
  predicate Untaken(s: System, c: nat) {
    && 0 < c <= |s.out.offers| && s.out.offers[c - 1].ch < |s.out.chans|
    && s.out.chans[s.out.offers[c - 1].ch].Taken() < |s.out.chans[s.out.offers[c - 1].ch].written|
  }

  lemma {:induction false} CleanPrefix(a: seq<O.Item>, b: seq<O.Item>)
    requires a <= b
    ensures Clean(a) <= Clean(b)
  {
    if a != b {
      CleanPrefix(a, b[..|b| - 1]);
      assert b == b[..|b| - 1] + [b[|b| - 1]];
    }
  }

  // Alone on its channel, a stream's share is what the method wrote, as far as it was taken.
  lemma AloneShare(s: System, c: nat)
    requires T.OffersOk(s.out) && T.Dealt(s.out) && T.Alone(s.out, c)
    ensures O.Got(s.out, c) <= Written(s, c) && Share(s, c) <= Clean(Written(s, c))
    ensures !Untaken(s, c) ==> O.Got(s.out, c) == Written(s, c)
  {
    T.AloneIff(s.out, c);
    var chan := s.out.chans[s.out.offers[c - 1].ch];
    CleanPrefix(O.Got(s.out, c), Written(s, c));
    assert chan.Taken() >= |chan.written| ==> chan.written[..chan.Taken()] == chan.written;
  }

  // So what the caller has received from a stream alone on its channel is at every moment a prefix of what the remote
  // method wrote, less the values that fail to encode or decode.
  lemma ReceivedIsPrefix(limit: int, run: seq<Event>, s: System, c: nat)
    requires Reaches(limit, run, s) && T.Alone(s.out, c) && c in s.workers
    ensures s.workers[c].delivered <= Clean(Written(s, c))
  {
    RunKeeps(limit, run, s);
    ReceivedIsShare(limit, run, s, c);
    AloneShare(s, c);
  }

  // And if its channel closes although its context did not end and the connection was not lost, the remote method
  // closed its channel and the caller has received all of it.
  lemma CloseMeansComplete(limit: int, run: seq<Event>, s: System, c: nat)
    requires Reaches(limit, run, s) && T.Alone(s.out, c) && c in s.workers
    requires !s.workers[c].stage.Looping? && s.workers[c].cause != W.CallerDone && !s.lost
    ensures SourceClosed(s, c) && s.workers[c].delivered == Clean(Written(s, c))
  {
    RunKeeps(limit, run, s);
    CloseMeansShareComplete(limit, run, s, c);
    AloneShare(s, c);
  }

  // ---------- progress ----------

  // A step that moves a value or the end of stream c on its way: the loop serves c's own registration, the executor
  // handles the next frame or leaves the callback it is in, or the worker of c, or of the stream whose callback
  // holds the executor up, takes or delivers something.
  predicate Moves(s: System, c: nat, e: Event) {
    match e
    case Server(Select(Forward(chosen, _))) => ServesStream(s, c, chosen)
    case Server(Select(Retire(chosen, _))) => ServesStream(s, c, chosen)
    case Read => true
    case InCallback(_) => true
    case Worker(d, x) => (d == c || s.exec == InSink(d)) && (x.TakeInput? || x.TakeClose? || x.Deliver?)
    case _ => false
  }

  predicate ServesStream(s: System, c: nat, chosen: nat) {
    INTERNAL_CASES <= chosen < |s.out.registrations| + INTERNAL_CASES &&
        s.out.registrations[chosen - INTERNAL_CASES].chID == c
  }

  // A worker that has anything in hand can move it.
  lemma WorkerMoves(s: System, c: nat, d: nat)
    requires d in s.workers && W.Inv(s.workers[d]) && s.workers[d].stage.Looping?
    requires s.workers[d].list != [] || s.workers[d].queue != [] || s.workers[d].inputClosed
    requires d == c || s.exec == InSink(d)
    ensures exists e :: Moves(s, c, e) && Enabled(s, e)
  {
    var w := s.workers[d];
    var x := if w.list != [] then W.Deliver else if w.queue != [] then W.TakeInput else W.TakeClose;
    assert Moves(s, c, Worker(d, x)) && Enabled(s, Worker(d, x));
  }

  // An executor that is in a callback can leave it, or the worker behind it can make room.
  lemma CallbackMoves(s: System, c: nat)
    requires Inv(s) && s.exec.InSink?
    ensures exists e :: Moves(s, c, e) && Enabled(s, e)
  {
    var d := s.exec.chID;
    assert StreamOk(s, d, Seen(s, d));
    if |s.workers[d].queue| < W.CAPACITY {
      assert Moves(s, c, InCallback(W.Put)) && Enabled(s, InCallback(W.Put));
    } else if !s.workers[d].cause.Alive? {
      assert Moves(s, c, InCallback(W.Drop)) && Enabled(s, InCallback(W.Drop));
    } else {
      WorkerMoves(s, c, d);
    }
  }

  // A registered stream whose channel holds values or is closed can be served.
  lemma LoopMoves(s: System, c: nat)
    requires T.Structure(s.out) && 0 < c <= |s.out.offers| && c in s.out.got && c !in s.out.ended && !s.out.done
    requires SourceClosed(s, c) || Untaken(s, c)
    ensures exists e :: Moves(s, c, e) && Enabled(s, e)
  {
    assert T.Held(s.out, c);
    var i :| 0 <= i < |s.out.registrations| && s.out.registrations[i].chID == c;
    assert T.Listed(s.out, s.out.registrations[i]);
    var chosen := i + INTERNAL_CASES;
    assert s.out.cases[chosen] == O.Receive(s.out.registrations[i].ch);
    var e := Server(O.Select(if Untaken(s, c) then O.Forward(chosen, true) else O.Retire(chosen, true)));
    assert Moves(s, c, e) && Enabled(s, e);
  }

  // With every frame handled and nothing in hand, the caller has all the loop has taken for the stream.
  lemma CaughtUp(s: System, c: nat)
    requires Inv(s) && !s.lost && !s.out.broken && s.read == |s.out.log| && s.exec.Idle?
    requires c in s.workers && s.workers[c].cause.Alive? && s.workers[c].list == [] && s.workers[c].queue == []
    requires !s.workers[c].inputClosed
    ensures c in s.out.got && c !in s.out.ended && s.workers[c].delivered == Clean(O.Got(s.out, c))
  {
    var frames := Seen(s, c);
    assert StreamOk(s, c, frames);
    assert s.out.log[..s.read] == s.out.log && s.out.log == s.out.tried;
    assert frames == T.Expected(s.out, c);
    assert frames[|frames| - 1] == O.Ended(c) <==> c in s.out.ended;
    DecodedExpected(s.out, c);
  }

  // Something of stream c is on its way: its channel was closed or holds values, or the caller lacks some of its share.
  predicate OnItsWay(s: System, c: nat) {
    SourceClosed(s, c) || Untaken(s, c) || (c in s.workers && s.workers[c].delivered != Share(s, c))
  }

  // For a stream alone on its channel that is so whenever the caller lacks something the method wrote.
  lemma AloneOnItsWay(s: System, c: nat)
    requires T.OffersOk(s.out) && T.Dealt(s.out) && T.Alone(s.out, c)
    requires c in s.workers && s.workers[c].delivered != Clean(Written(s, c))
    ensures OnItsWay(s, c)
  {
    AloneShare(s, c);
  }

  // A stream is never stuck: while the connection works and the caller's context lives, as long as something is on its
  // way and the caller's channel is open, a step that this stream is waiting for is possible.
  lemma StreamNeverStuck(limit: int, run: seq<Event>, s: System, c: nat)
    requires Reaches(limit, run, s) && c in s.workers
    requires !s.lost && !s.out.broken && !s.out.done
    requires s.workers[c].cause.Alive? && s.workers[c].stage.Looping?
    requires OnItsWay(s, c)
    ensures exists e :: Moves(s, c, e) && Enabled(s, e)
  {
    RunKeeps(limit, run, s);
    assert StreamOk(s, c, Seen(s, c));
    var w := s.workers[c];
    if w.list != [] || w.queue != [] || w.inputClosed {
      WorkerMoves(s, c, c);
    } else if s.exec.InSink? {
      CallbackMoves(s, c);
    } else if s.read < |s.out.log| {
      assert Moves(s, c, Read) && Enabled(s, Read);
    } else {
      CaughtUp(s, c);
      LoopMoves(s, c);
    }
  }

  // How much a worker still has to do with what it has.
  function Load(w: W.Worker): nat {
    2 * |w.queue| + |w.list| + (if w.sawClose then 0 else 1)
  }

  // And every such step gets the stream on: a value is taken for it, or its end is; a frame is handled; the
  // callback returns; or the worker has less to do.
  lemma MovesAdvance(s: System, c: nat, e: Event)
    requires T.Structure(s.out) && Enabled(s, e) && Moves(s, c, e)
    ensures var t := Next(s, e);
            match e
            case Server(Select(Forward(chosen, _))) =>
              var ch := s.out.cases[chosen].ch; t.out.chans[ch].takers == s.out.chans[ch].takers + [c]
            case Server(Select(Retire(_, _))) => c !in s.out.ended && c in t.out.ended
            case Read => t.read == s.read + 1
            case InCallback(_) => t.exec == Idle
            case Worker(d, _) => Load(t.workers[d]) < Load(s.workers[d])
            case _ => true
  {
    if e.Server? {
      assert T.Listed(s.out, s.out.registrations[e.server.select.chosen - INTERNAL_CASES]);
    }
  }
}
