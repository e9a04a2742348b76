/**
 wsConn's client half as the object it is: fields that the event loop and the frame executor update in
 place. Each method is one stretch of websocket.go or client.go; ClientRuns shows it to be a run of
 ClientProtocol, so that what holds of every run holds of the object, in whatever order its methods are called.
 */
module ClientConn {
  import opened Options
  import opened RequestIds
  import opened ClientProtocol
  import opened ClientInvariant
  import opened ClientRuns
  import ClientEffects

  class WsConn {
    var idCtr: nat
    var attempts: seq<Attempt>
    var inflight: map<nat, nat>
    var chanHandlers: map<nat, nat>
    var sinks: seq<Sink>
    var failed: bool
    var epoch: nat
    var loop: Loop
    var reading: seq<Frame>
    var queue: seq<Frame>
    var exec: Executor

    function View(): Client
      reads this
    {
      Client(idCtr, attempts, inflight, chanHandlers, sinks, failed, epoch, loop, reading, queue, exec)
    }

    constructor ()
      ensures View() == INIT
    {
      idCtr, attempts, inflight, chanHandlers, sinks := 0, [], map[], map[], [];
      failed, epoch, loop, reading, queue, exec := false, 0, Select, [], [], Idle;
    }

    // The `requests` case of the event loop.
    method ServeRequest(a: nat, refused: bool, written: bool)
      requires a < |attempts| && attempts[a].stage.Offered?
      modifies this`attempts, this`inflight
      ensures View() == Served(old(View()), a, refused, written)
    {
      var key := attempts[a].key;
      attempts := attempts[a := attempts[a].(stage := Accepted, taken := true)];
      if key.Some? {
        if refused {
          attempts := Respond(attempts, a, Response(key, ConnectionClosed));
          return;
        }
        attempts := attempts[a := attempts[a].(epoch := Some(epoch))];
        inflight := inflight[key.value := a];
      }
      if !written {
        if key.Some? {
          inflight := inflight - {key.value};
        }
        attempts := Respond(attempts, a, Response(key, WriteFailed));
        return;
      }
      if key.None? {
        attempts := Respond(attempts, a, Response(None, NotificationSent));
      }
    }

    // The first half of closeInFlight: every request in the table is answered once, nobody else.
    method CloseInFlight()
      requires InflightOk(View())
      modifies this`attempts, this`inflight, this`epoch
      ensures inflight == map[] && epoch == old(epoch) + 1
      ensures attempts == Dropped(old(attempts), old(inflight))
    {
      var requests := inflight;
      ghost var all, was := inflight, attempts;
      assert forall key | key in all :: EntryOk(View(), key, all[key]);
      inflight := map[];
      epoch := epoch + 1;
      assert all - all.Keys == map[] && Dropped(was, map[]) == was;
      while requests != map[]
        invariant requests.Keys <= all.Keys && forall key | key in requests :: requests[key] == all[key]
        invariant attempts == Dropped(was, all - requests.Keys)
        decreases requests.Keys
        modifies this`attempts
      {
        var key :| key in requests;
        DropOne(was, all - requests.Keys, key, requests[key]);
        MoveKey(all, requests, key);
        attempts := Respond(attempts, requests[key], Response(Some(key), ConnectionClosed));
        requests := requests - {key};
      }
      assert all - {} == all;
    }

    // closeChans: every published sink is closed once, no other sink is touched.
    method CloseChans()
      requires SinksOk(View()) && !loop.Sweep?
      modifies this`sinks, this`chanHandlers
      ensures chanHandlers == map[]
      ensures sinks == ClosedAll(TakePublished(old(sinks)), old(chanHandlers))
    {
      var handlers := chanHandlers;
      ghost var all := chanHandlers;
      assert forall c | c in all :: all[c] < |sinks| && sinks[all[c]].place == Published(c);
      chanHandlers := map[];
      sinks := TakePublished(sinks);
      ghost var was := sinks;
      assert all - all.Keys == map[] && ClosedAll(was, map[]) == was;
      while handlers != map[]
        invariant handlers.Keys <= all.Keys && forall c | c in handlers :: handlers[c] == all[c]
        invariant sinks == ClosedAll(was, all - handlers.Keys)
        decreases handlers.Keys
        modifies this`sinks
      {
        var channel :| channel in handlers;
        CloseOne(was, all - handlers.Keys, channel, handlers[channel]);
        MoveKey(all, handlers, channel);
        sinks := Emit(sinks, handlers[channel], End);
        handlers := handlers - {channel};
      }
      assert all - {} == all;
    }

    // nextMessage has read a frame; and readFrame puts a frame it has read into the queue.
    method ReceiveFrame(e: ReadEvent)
      requires ReadEnabled(View(), e)
      modifies this`reading, this`queue
      ensures View() == ReadNext(old(View()), e)
    {
      match e
      case Read(content) => reading := reading + [Frame(epoch, content)];
      case Queue(i) =>
        var f := reading[i];
        reading := reading[..i] + reading[i + 1..];
        queue := queue + [f];
    }

    // The first half of handleResponse, for the frame at the head of the queue.
    method FindRequest() returns (found: bool)
      requires exec.Idle? && queue != [] && queue[0].content.Answered?
      modifies this`exec, this`queue
      ensures found <==> old(queue[0]).content.key in inflight
      ensures View() == LookedUp(old(View()))
    {
      var f := queue[0];
      var key := f.content.key;
      queue := queue[1..];
      found := key in inflight;
      if found {
        exec := Found(Reply(key, inflight[key], f.epoch, epoch, f.content.temporary, f.content.result, None));
      }
    }

    // The second half of handleResponse.
    method FinishResponse()
      requires exec.Found? && exec.reply.attempt < |attempts|
      requires forall c | c in chanHandlers :: chanHandlers[c] < |sinks|
      modifies this`attempts, this`inflight, this`chanHandlers, this`sinks, this`exec
      ensures View() == Finished(old(View()))
    {
      var r := exec.reply;
      exec := Idle;
      if attempts[r.attempt].stream && !r.result.Absent? {
        if r.result.Garbled? {
          return;
        }
        var open := OpenSink(r);
        if !open {
          return;
        }
      } else if r.key !in inflight || inflight[r.key] != r.attempt {
        return;
      }
      attempts := Respond(attempts, r.attempt, AnswerOf(r));
      inflight := inflight - {r.key};
    }

    // A sink is built; then it is published if the request is still current and the connection works, and closed if
    // not.
    method OpenSink(r: Reply) returns (open: bool)
      requires forall c | c in chanHandlers :: chanHandlers[c] < |sinks|
      modifies this`chanHandlers, this`sinks
      ensures open <==> Answers(View(), r, true, true)
      ensures sinks == SinksAfter(old(View()), r, true, true, r.ChannelId())
      ensures chanHandlers == if open then old(chanHandlers)[r.ChannelId() := |old(sinks)|] else old(chanHandlers)
    {
      var channel := r.ChannelId();
      var k: nat := |sinks|;
      NewSink(sinks, r.attempt, channel, if channel in chanHandlers then chanHandlers[channel] else 0);
      sinks := sinks + [Sink(r.attempt, Private, [])];
      if r.key !in inflight || inflight[r.key] != r.attempt || failed {
        sinks := Emit(sinks, k, End);
        return false;
      }
      if channel in chanHandlers {
        sinks := Move(sinks, chanHandlers[channel], Overwritten);
      }
      sinks := Move(sinks, k, Published(channel));
      chanHandlers := chanHandlers[channel := k];
      open := true;
    }

    method HandleChanMessage(channel: nat, value: int)
      modifies this`sinks
      ensures View() == Delivered(old(View()), channel, SinkOp.Item(value))
    {
      if channel in chanHandlers {
        sinks := Emit(sinks, chanHandlers[channel], SinkOp.Item(value));
      }
    }

    // xrpc.ch.close: the handler leaves the table before its sink is closed.
    method HandleChanClose(channel: nat)
      modifies this`sinks, this`chanHandlers
      ensures View() == Delivered(old(View()), channel, End)
    {
      if channel in chanHandlers {
        var k := chanHandlers[channel];
        chanHandlers := chanHandlers - {channel};
        sinks := Emit(sinks, k, End);
      }
    }

    // The frame executor handles a frame of a channel.
    method HandleChanFrame()
      requires queue != [] && !queue[0].content.Answered?
      modifies this`queue, this`sinks, this`chanHandlers
      ensures View() == Handled(old(View()))
      ensures queue == old(queue)[1..]
      // A value is appended to the sink published under its channel ID; a close is that sink's last operation.
      ensures var content, table := old(queue)[0].content, old(chanHandlers);
              content.chid in table && table[content.chid] < |old(sinks)| ==>
                var k := table[content.chid];
                var before := old(sinks)[k];
                match content
                case ChanValue(_, value) =>
                  && chanHandlers == table
                  && sinks == old(sinks)[k := Sink(before.attempt, before.place, before.ops + [SinkOp.Item(value)])]
                case ChanClosed(c) =>
                  && chanHandlers == table - {c}
                  && sinks == old(sinks)[k := Sink(before.attempt, Closed, before.ops + [End])]
      ensures old(queue)[0].content.chid !in old(chanHandlers) ==>
              sinks == old(sinks) && chanHandlers == old(chanHandlers)
    {
      ClientEffects.HandledEffect(View());
      var content := queue[0].content;
      queue := queue[1..];
      match content
      case ChanValue(channel, value) => HandleChanMessage(channel, value);
      case ChanClosed(channel) => HandleChanClose(channel);
    }

    // What tryReconnect does before it dials: afterwards no request and no sink of the old connection is left.
    method TryReconnect() returns (dropped: bool)
      requires InflightOk(View()) && SinksOk(View()) && loop.Select?
      modifies this`attempts, this`inflight, this`epoch, this`sinks, this`chanHandlers
      ensures dropped == !old(failed)
      ensures View() == if dropped then WithoutSinks(WithoutRequests(old(View()), DropSinks(false)), Select)
                        else old(View())
    {
      if failed {
        return false;
      }
      CloseInFlight();
      CloseChans();
      dropped := true;
    }

    // The deferred calls at the end of handleWsConn.
    method Exit()
      requires InflightOk(View()) && SinksOk(View()) && loop.Select?
      modifies this
      ensures View() == WithoutRequests(WithoutSinks(old(View()).(failed := true), DropRequests(true)), Gone)
    {
      failed := true;
      CloseChans();
      CloseInFlight();
      loop := Gone;
    }

    // ---------- callers ----------

    // handleRpcCall takes an identifier and makes its first attempt, or a notification.
    method StartCall(notify: bool, stream: bool)
      modifies this`idCtr, this`attempts
      ensures View() == if notify then Notify(old(View())) else Call(old(View()), stream)
    {
      if notify {
        attempts := attempts + [Attempt(None, false, Offered, false, None, [], None)];
      } else {
        idCtr := idCtr + 1;
        attempts := attempts + [Attempt(Some(ToFloat64(idCtr)), stream, Offered, false, None, [], None)];
      }
    }

    method Caller(e: CallerEvent)
      requires CallerEnabled(View(), e)
      modifies this`idCtr, this`attempts
      ensures View() == CallerNext(old(View()), e)
    {
      match e
      case NewCall(stream) => StartCall(false, stream);
      case NewNotification => StartCall(true, false);
      case Retry(a) =>
        attempts := attempts + [Attempt(attempts[a].key, attempts[a].stream, Offered, false, None, [], None)];
      case Receive(a) =>
        attempts := attempts[a := attempts[a].(stage := Returned(Answer(attempts[a].ready.value)), ready := None)];
      case GiveUp(a) =>
        attempts := attempts[a := attempts[a].(stage := Returned(ExitError))];
    }

    // ---------- any order ----------

    method Do(x: Action)
      requires Between(View())
      modifies this
      ensures View() == Perform(old(View()), x)
    {
      if !Possible(View(), x) {
        return;
      }
      match x
      case Ask(e) => Caller(e);
      case Serve(a, refused, written) => ServeRequest(a, refused, written);
      case MoveFrame(e) => ReceiveFrame(e);
      case Find => var _ := FindRequest();
      case Finish => FinishResponse();
      case ChanFrame => HandleChanFrame();
      case Reconnect => var _ := TryReconnect();
      case Exit => Exit();
    }

    // However the stretches are ordered, the object stays in a state that a run of the protocol reaches.
    method Run(xs: seq<Action>)
      requires View() == INIT && PerformAll(INIT, xs).idCtr <= MAX_EXACT
      modifies this
      ensures View() == PerformAll(INIT, xs) && Between(View())
    {
      InitInv();
      CountsGrow(xs);
      for i := 0 to |xs|
        invariant View() == PerformAll(INIT, xs[..i]) && Between(View())
      {
        assert xs[..i + 1][..i] == xs[..i];
        assert PerformAll(INIT, xs[..i + 1]) == Perform(View(), xs[i]);
        PerformKeepsBetween(View(), xs[i]);
        Do(xs[i]);
      }
      assert xs[..|xs|] == xs;
    }
  }

  lemma {:induction false} CountsGrow(xs: seq<Action>)
    ensures forall i | 0 <= i <= |xs| :: PerformAll(INIT, xs[..i]).idCtr <= PerformAll(INIT, xs).idCtr
  {
    if xs != [] {
      var front := xs[..|xs| - 1];
      CountsGrow(front);
      PerformCounts(PerformAll(INIT, front), xs[|xs| - 1]);
      forall i | 0 <= i <= |xs| ensures PerformAll(INIT, xs[..i]).idCtr <= PerformAll(INIT, xs).idCtr {
        if i < |xs| {
          assert front[..i] == xs[..i];
        } else {
          assert xs[..i] == xs;
        }
      }
    }
  }
}
