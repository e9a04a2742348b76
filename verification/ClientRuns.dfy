/**
 What whole stretches of websocket.go do to the client half when no other goroutine comes in between, and
 that each of them is a run of ClientProtocol.
 */
module ClientRuns {
  import opened Options
  import opened RequestIds
  import opened Runs
  import opened ClientProtocol
  import opened ClientInvariant
  import ClientTheorems

  // A run from a good state leads to a good state.
  lemma StaysGood(start: Client, run: seq<Event>, t: Client)
    requires Inv(start) && After(start, Step, run) == Some(t) && t.idCtr <= MAX_EXACT
    ensures Inv(t)
  {
    var inv := (u: Client) => u.idCtr <= MAX_EXACT ==> Inv(u);
    forall u, e | inv(u) && Step(u, e).Some? ensures inv(Step(u, e).value) {
      ClientTheorems.StepKeepsExact(u, e);
    }
    Invariant(start, Step, inv, run);
  }

  // ---------- what the methods do, in one go ----------

  // The loop serves one request: `refused` says that the reader has reported an error, `written` whether the write
  // succeeds.
  function Served(s: Client, a: nat, refused: bool, written: bool): Client
    requires a < |s.attempts|
  {
    var t := s.attempts[a].(stage := Accepted, taken := true);
    if t.key.None? then
      s.(attempts := s.attempts[a := t.Respond(Response(None, if written then NotificationSent else WriteFailed))])
    else if refused then
      s.(attempts := s.attempts[a := t.Respond(Response(t.key, ConnectionClosed))])
    else if written then
      s.(attempts := s.attempts[a := t.(epoch := Some(s.epoch))], inflight := s.inflight[t.key.value := a])
    else
      s.(attempts := s.attempts[a := t.(epoch := Some(s.epoch)).Respond(Response(t.key, WriteFailed))],
         inflight := s.inflight - {t.key.value})
  }

  predicate Stores(requests: map<nat, nat>, key: Option<nat>, a: nat) {
    key.Some? && key.value in requests && requests[key.value] == a
  }

  // The requests of a table, each answered once.
  function Dropped(attempts: seq<Attempt>, requests: map<nat, nat>): (r: seq<Attempt>)
    ensures |r| == |attempts|
  {
    seq(|attempts|, a requires 0 <= a < |attempts| =>
      if Stores(requests, attempts[a].key, a) then attempts[a].Respond(Response(attempts[a].key, ConnectionClosed))
      else attempts[a])
  }

  lemma DropOne(was: seq<Attempt>, gone: map<nat, nat>, key: nat, a: nat)
    requires key !in gone && a < |was| && was[a].key == Some(key)
    ensures Respond(Dropped(was, gone), a, Response(Some(key), ConnectionClosed)) == Dropped(was, gone[key := a])
  {
  }

  predicate Holds(handlers: map<nat, nat>, sink: Sink, k: nat) {
    sink.place.Sweeping? && sink.place.channel in handlers && handlers[sink.place.channel] == k
  }

  // The sinks closeChans has taken, each closed once.
  function ClosedAll(sinks: seq<Sink>, handlers: map<nat, nat>): (r: seq<Sink>)
    ensures |r| == |sinks|
  {
    seq(|sinks|, k requires 0 <= k < |sinks| =>
      if Holds(handlers, sinks[k], k) then Sink(sinks[k].attempt, Closed, sinks[k].ops + [End]) else sinks[k])
  }

  lemma CloseOne(was: seq<Sink>, gone: map<nat, nat>, channel: nat, k: nat)
    requires channel !in gone && k < |was| && was[k].place == Sweeping(channel)
    ensures Emit(ClosedAll(was, gone), k, End) == ClosedAll(was, gone[channel := k])
  {
  }

  // Taking one more key out of what is left moves it to what is gone.
  lemma MoveKey(all: map<nat, nat>, left: map<nat, nat>, key: nat)
    requires left.Keys <= all.Keys && key in left
    ensures all - (left - {key}).Keys == (all - left.Keys)[key := all[key]]
  {
  }

  // The second half of handleResponse, for the request the first half found: the response answers it exactly if
  // it is still the one in the table, and is not a stream that cannot be opened.
  predicate Answers(s: Client, r: Reply, channels: bool, decodes: bool) {
    Stores(s.inflight, Some(r.key), r.attempt) && (channels ==> decodes && !s.failed)
  }

  // Whether or not it answers, a sink that was built is published or closed.
  function SinksAfter(s: Client, r: Reply, channels: bool, decodes: bool, channel: nat): seq<Sink> {
    if !(channels && decodes) then s.sinks
    else if !Answers(s, r, channels, decodes) then s.sinks + [Sink(r.attempt, Closed, [End])]
    else
      (if channel in s.chanHandlers then Move(s.sinks, s.chanHandlers[channel], Overwritten) else s.sinks) +
      [Sink(r.attempt, Published(channel), [])]
  }

  lemma NewSink(sinks: seq<Sink>, a: nat, channel: nat, previous: nat)
    ensures var more := sinks + [Sink(a, Private, [])];
            && Emit(more, |sinks|, End) == sinks + [Sink(a, Closed, [End])]
            && Move(more, |sinks|, Published(channel)) == sinks + [Sink(a, Published(channel), [])]
            && (previous < |sinks| ==>
                 Move(Move(more, previous, Overwritten), |sinks|, Published(channel)) ==
                 Move(sinks, previous, Overwritten) + [Sink(a, Published(channel), [])])
  {
    var more := sinks + [Sink(a, Private, [])];
    assert [] + [End] == [End];
    assert Emit(more, |sinks|, End) == sinks + [Sink(a, Closed, [End])];
    assert Move(more, |sinks|, Published(channel)) == sinks + [Sink(a, Published(channel), [])];
    if previous < |sinks| {
      var moved := Move(sinks, previous, Overwritten);
      assert Move(more, previous, Overwritten) == moved + [Sink(a, Private, [])];
      assert Move(moved + [Sink(a, Private, [])], |moved|, Published(channel)) ==
          moved + [Sink(a, Published(channel), [])];
    }
  }

  function Finished(s: Client): Client
    requires s.exec.Found?
  {
    var r := s.exec.reply;
    var channels := IsStream(s, r.attempt) && !r.result.Absent?;
    var decodes := !r.result.Garbled?;
    var t := s.(sinks := SinksAfter(s, r, channels, decodes, r.ChannelId()), exec := Idle);
    if !Answers(s, r, channels, decodes) then t
    else
      t.(attempts := Respond(s.attempts, r.attempt, AnswerOf(r)),
         inflight := s.inflight - {r.key},
         chanHandlers := if channels then s.chanHandlers[r.ChannelId() := |s.sinks|] else s.chanHandlers)
  }

  function AnswerOf(r: Reply): Response {
    Response(Some(r.key), Peer(r.frameEpoch, r.lookupEpoch, r.temporary))
  }

  // ---------- these are runs of the protocol ----------

  // Serving a request is the composition of the steps of its path.
  lemma ServedParts(s: Client, a: nat, refused: bool, written: bool)
    requires s.loop.Select? && a < |s.attempts|
    ensures var u := TakeRequest(s, a);
            var v := StoreRequest(u, a);
            Served(s, a, refused, written) ==
              if s.attempts[a].key.Some? && refused then RefuseRequest(u, a)
              else if written then RequestWritten(v, a)
              else ReportUnsent(RemoveUnsent(v, a), a)
  {
    var u := TakeRequest(s, a);
    var v := StoreRequest(u, a);
    assert v.attempts[a].key == u.attempts[a].key == s.attempts[a].key;
    if s.attempts[a].key.Some? && !refused && !written {
      var w := RemoveUnsent(v, a);
      assert w.inflight == s.inflight - {s.attempts[a].key.value};
      assert w.attempts == v.attempts;
    }
  }

  lemma StoredIsRun(s: Client, a: nat) returns (run: seq<Event>)
    requires s.loop.Select? && !s.InflightHeld() && a < |s.attempts| && s.attempts[a].stage.Offered?
    ensures After(s, Step, run) == Some(StoreRequest(TakeRequest(s, a), a))
  {
    var u := TakeRequest(s, a);
    assert Step(s, Send(Accept(a))) == Some(u);
    run := Advance(s, Step, [], s, Send(Accept(a)), u);
    assert Step(u, Send(Store)) == Some(StoreRequest(u, a));
    run := Advance(s, Step, run, u, Send(Store), StoreRequest(u, a));
  }

  lemma RefusedIsRun(s: Client, a: nat) returns (run: seq<Event>)
    requires s.loop.Select? && a < |s.attempts| && s.attempts[a].stage.Offered? && s.attempts[a].key.Some?
    ensures After(s, Step, run) == Some(RefuseRequest(TakeRequest(s, a), a))
  {
    var u := TakeRequest(s, a);
    assert Step(s, Send(Accept(a))) == Some(u);
    run := Advance(s, Step, [], s, Send(Accept(a)), u);
    assert Step(u, Send(Refuse)) == Some(RefuseRequest(u, a));
    run := Advance(s, Step, run, u, Send(Refuse), RefuseRequest(u, a));
  }

  lemma UnsentIsRun(s: Client, a: nat) returns (run: seq<Event>)
    requires s.loop == Stored(a) && !s.InflightHeld()
    ensures After(s, Step, run) == Some(ReportUnsent(RemoveUnsent(s, a), a))
  {
    run := RemovedIsRun(s, a);
    var v := RemoveUnsent(s, a);
    ReportIsStep(v, a);
    run := Advance(s, Step, run, v, Send(AnswerUnsent), ReportUnsent(v, a));
  }

  lemma RemovedIsRun(s: Client, a: nat) returns (run: seq<Event>)
    requires s.loop == Stored(a) && !s.InflightHeld()
    ensures After(s, Step, run) == Some(RemoveUnsent(s, a))
  {
    var u := s.(loop := Unsent(a));
    assert Step(s, Send(WriteFail)) == Some(u);
    run := Advance(s, Step, [], s, Send(WriteFail), u);
    UnstoreIsStep(s, a);
    run := Advance(s, Step, run, u, Send(Unstore), RemoveUnsent(s, a));
  }

  lemma ReportIsStep(s: Client, a: nat)
    requires s.loop == Removed(a)
    ensures Step(s, Send(AnswerUnsent)) == Some(ReportUnsent(s, a))
  {
  }

  lemma UnstoreIsStep(s: Client, a: nat)
    requires !s.InflightHeld()
    ensures Step(s.(loop := Unsent(a)), Send(Unstore)) == Some(RemoveUnsent(s, a))
  {
    assert RemoveUnsent(s.(loop := Unsent(a)), a) == RemoveUnsent(s, a);
  }

  lemma ServedIsRun(s: Client, a: nat, refused: bool, written: bool) returns (run: seq<Event>)
    requires s.loop.Select? && !s.InflightHeld() && a < |s.attempts| && s.attempts[a].stage.Offered?
    ensures After(s, Step, run) == Some(Served(s, a, refused, written))
  {
    ServedParts(s, a, refused, written);
    if s.attempts[a].key.Some? && refused {
      run := RefusedIsRun(s, a);
    } else {
      run := StoredIsRun(s, a);
      var v := StoreRequest(TakeRequest(s, a), a);
      var more := SettledIsRun(v, a, written);
      run := Join(s, Step, run, v, more, if written then RequestWritten(v, a) else ReportUnsent(RemoveUnsent(v, a), a));
    }
  }

  lemma SettledIsRun(s: Client, a: nat, written: bool) returns (run: seq<Event>)
    requires s.loop == Stored(a) && !s.InflightHeld()
    ensures After(s, Step, run) == Some(if written then RequestWritten(s, a) else ReportUnsent(RemoveUnsent(s, a), a))
  {
    if written {
      run := Advance(s, Step, [], s, Send(WriteOk), RequestWritten(s, a));
    } else {
      run := UnsentIsRun(s, a);
    }
  }

  function Drained(s: Client, requests: map<nat, nat>, final: bool): Client {
    s.(attempts := Dropped(s.attempts, requests), loop := if final then Gone else DropSinks(false))
  }

  ghost predicate OwnKeys(attempts: seq<Attempt>, requests: map<nat, nat>) {
    forall key | key in requests :: requests[key] < |attempts| && attempts[requests[key]].key == Some(key)
  }

  lemma AnswerOneIsStep(s: Client, requests: map<nat, nat>, final: bool, key: nat)
    requires s.loop == Draining(requests, final) && key in requests
    ensures Step(s, Cleanup(DrainOne(key))) == Some(AnswerDropped(s, requests, final, key))
  {
  }

  // The loop of closeInFlight, one answer at a time and in any order.
  lemma {:induction false} DrainIsRun(s: Client, requests: map<nat, nat>, final: bool) returns (run: seq<Event>)
    requires s.loop == Draining(requests, final) && OwnKeys(s.attempts, requests)
    ensures After(s, Step, run) == Some(Drained(s, requests, final))
    decreases |requests|
  {
    if requests == map[] {
      assert Dropped(s.attempts, map[]) == s.attempts;
      run := Advance(s, Step, [], s, Cleanup(DrainDone), Drained(s, requests, final));
    } else {
      var key :| key in requests;
      var u := AnswerDropped(s, requests, final, key);
      DropOthers(s.attempts, requests, key);
      AnswerOneIsStep(s, requests, final, key);
      run := Advance(s, Step, [], s, Cleanup(DrainOne(key)), u);
      var more := DrainIsRun(u, requests - {key}, final);
      run := Join(s, Step, run, u, more, Drained(s, requests, final));
    }
  }

  lemma DropOthers(was: seq<Attempt>, requests: map<nat, nat>, key: nat)
    requires key in requests && OwnKeys(was, requests)
    ensures var next := Respond(was, requests[key], Response(Some(key), ConnectionClosed));
            OwnKeys(next, requests - {key}) && Dropped(next, requests - {key}) == Dropped(was, requests)
    ensures |requests - {key}| < |requests|
  {
    Shrinks(requests, key);
    var next := Respond(was, requests[key], Response(Some(key), ConnectionClosed));
    forall a | 0 <= a < |was| ensures Dropped(next, requests - {key})[a] == Dropped(was, requests)[a] {
      assert a == requests[key] <==> Stores(requests, was[a].key, a) && was[a].key == Some(key);
    }
  }

  lemma Shrinks(table: map<nat, nat>, key: nat)
    requires key in table
    ensures |table - {key}| < |table|
  {
    assert (table - {key}).Keys == table.Keys - {key};
  }

  function WithoutRequests(s: Client, loop: Loop): Client {
    s.(attempts := Dropped(s.attempts, s.inflight), inflight := map[], epoch := s.epoch + 1, loop := loop)
  }

  // closeInFlight, from the moment the loop has decided to drop the requests.
  lemma CloseInFlightIsRun(s: Client, final: bool) returns (run: seq<Event>)
    requires OwnKeys(s.attempts, s.inflight) && s.loop == DropRequests(final) && !s.InflightHeld()
    ensures After(s, Step, run) == Some(WithoutRequests(s, if final then Gone else DropSinks(false)))
  {
    var u := TakeInflight(s, final);
    TakeIsStep(s, final);
    run := Advance(s, Step, [], s, Cleanup(TakeRequests), u);
    var more := DrainIsRun(u, s.inflight, final);
    TakenAndDrained(s, final);
    run := Join(s, Step, run, u, more, Drained(u, s.inflight, final));
  }

  lemma TakeIsStep(s: Client, final: bool)
    requires s.loop == DropRequests(final) && !s.InflightHeld()
    ensures Step(s, Cleanup(TakeRequests)) == Some(TakeInflight(s, final))
  {
  }

  lemma TakenAndDrained(s: Client, final: bool)
    ensures Drained(TakeInflight(s, final), s.inflight, final) ==
            WithoutRequests(s, if final then Gone else DropSinks(false))
  {
  }

  // Where the loop goes after closeChans.
  function AfterSweep(s: Client, final: bool): Loop {
    if final then DropRequests(true) else if s.failed then DropSinks(true) else Select
  }

  function Swept(s: Client, handlers: map<nat, nat>, final: bool): Client {
    s.(sinks := ClosedAll(s.sinks, handlers), loop := AfterSweep(s, final))
  }

  ghost predicate OwnChannels(sinks: seq<Sink>, handlers: map<nat, nat>) {
    forall c | c in handlers :: handlers[c] < |sinks| && sinks[handlers[c]].place == Sweeping(c)
  }

  predicate ExecutorElsewhere(e: Executor) {
    e.Idle? || e.Found? || e.Built?
  }

  lemma CloseOthers(was: seq<Sink>, handlers: map<nat, nat>, channel: nat)
    requires channel in handlers && OwnChannels(was, handlers)
    ensures var next := Emit(was, handlers[channel], End);
            OwnChannels(next, handlers - {channel}) && ClosedAll(next, handlers - {channel}) == ClosedAll(was, handlers)
    ensures |handlers - {channel}| < |handlers|
  {
    Shrinks(handlers, channel);
    var next := Emit(was, handlers[channel], End);
    forall k | 0 <= k < |was| ensures ClosedAll(next, handlers - {channel})[k] == ClosedAll(was, handlers)[k] {
      assert k == handlers[channel] ==> was[k].place == Sweeping(channel);
    }
  }

  lemma CloseOneIsStep(s: Client, handlers: map<nat, nat>, final: bool, channel: nat)
    requires s.loop == Sweep(handlers, final) && channel in handlers && ExecutorElsewhere(s.exec)
    ensures Step(s, Cleanup(SweepOne(channel))) == Some(CloseSwept(s, handlers, final, channel))
  {
  }

  // The loop of closeChans, one sink at a time and in any order.
  lemma {:induction false} SweepIsRun(s: Client, handlers: map<nat, nat>, final: bool) returns (run: seq<Event>)
    requires s.loop == Sweep(handlers, final) && OwnChannels(s.sinks, handlers) && ExecutorElsewhere(s.exec)
    ensures After(s, Step, run) == Some(Swept(s, handlers, final))
    decreases |handlers|
  {
    if handlers == map[] {
      assert ClosedAll(s.sinks, map[]) == s.sinks;
      run := Advance(s, Step, [], s, Cleanup(SweepDone), Swept(s, handlers, final));
    } else {
      var channel :| channel in handlers;
      var u := CloseSwept(s, handlers, final, channel);
      CloseOthers(s.sinks, handlers, channel);
      CloseOneIsStep(s, handlers, final, channel);
      run := Advance(s, Step, [], s, Cleanup(SweepOne(channel)), u);
      var more := SweepIsRun(u, handlers - {channel}, final);
      run := Join(s, Step, run, u, more, Swept(s, handlers, final));
    }
  }

  function WithoutSinks(s: Client, loop: Loop): Client {
    s.(sinks := ClosedAll(TakePublished(s.sinks), s.chanHandlers), chanHandlers := map[], loop := loop)
  }

  lemma CloseChansIsRun(s: Client, final: bool) returns (run: seq<Event>)
    requires Sinks(s) && s.loop == DropSinks(final) && ExecutorElsewhere(s.exec)
    ensures After(s, Step, run) == Some(WithoutSinks(s, AfterSweep(s, final)))
  {
    var u := TakeHandlers(s, final);
    run := Advance(s, Step, [], s, Cleanup(TakeSinks), u);
    var more := SweepIsRun(u, s.chanHandlers, final);
    run := Join(s, Step, run, u, more, Swept(u, s.chanHandlers, final));
  }

  // ---------- handleResponse is a run ----------

  function WithSink(s: Client, r: Reply): Client {
    s.(sinks := s.sinks + [Sink(r.attempt, Private, [])], exec := Built(r.(sink := Some(|s.sinks|))))
  }

  lemma RefusedResponseIsRun(s: Client, r: Reply) returns (run: seq<Event>)
    requires s.exec == Built(r) && !Stores(s.inflight, Some(r.key), r.attempt)
    ensures After(s, Step, run) == Some(if r.sink.Some? then RejectSink(s, r.sink.value) else s.(exec := Idle))
  {
    var u := CheckCurrent(s, r);
    run := Advance(s, Step, [], s, PeerResponse(Check), u);
    if r.sink.Some? {
      run := Advance(s, Step, run, u, PeerResponse(Reject), RejectSink(s, r.sink.value));
    }
  }

  lemma LateSinkIsRun(s: Client, r: Reply) returns (run: seq<Event>)
    requires s.exec == Built(r) && Stores(s.inflight, Some(r.key), r.attempt) && r.sink.Some? && s.failed
    ensures After(s, Step, run) == Some(RejectSink(s, r.sink.value))
  {
    var u, v := CheckCurrent(s, r), s.(exec := Rejecting(r.sink.value));
    run := Advance(s, Step, [], s, PeerResponse(Check), u);
    run := Advance(s, Step, run, u, PeerResponse(Enter), v);
    run := Advance(s, Step, run, v, PeerResponse(Reject), RejectSink(s, r.sink.value));
  }

  lemma GateIsRun(s: Client, r: Reply) returns (run: seq<Event>)
    requires s.exec == Built(r) && Stores(s.inflight, Some(r.key), r.attempt) && r.sink.Some? && !s.failed
    ensures After(s, Step, run) == Some(s.(exec := Gate(r)))
  {
    var u := CheckCurrent(s, r);
    run := Advance(s, Step, [], s, PeerResponse(Check), u);
    run := Advance(s, Step, run, u, PeerResponse(Enter), s.(exec := Gate(r)));
  }

  lemma PublishIsRun(s: Client, r: Reply) returns (run: seq<Event>)
    requires s.exec == Built(r) && Stores(s.inflight, Some(r.key), r.attempt) && r.sink.Some? && !s.failed
    ensures After(s, Step, run) == Some(PublishSink(s, r))
  {
    run := GateIsRun(s, r);
    var v := s.(exec := Gate(r));
    assert PublishSink(v, r) == PublishSink(s, r);
    run := Advance(s, Step, run, v, PeerResponse(Publish), PublishSink(v, r));
  }

  lemma AnswerIsRun(s: Client, r: Reply) returns (run: seq<Event>)
    requires s.exec == Shown(r) || (s.exec == Checked(r) && r.sink.None?)
    ensures After(s, Step, run) == Some(AnswerRequest(s, r).(inflight := s.inflight - {r.key}, exec := Idle))
  {
    var u := AnswerRequest(s, r);
    run := Advance(s, Step, [], s, PeerResponse(AnswerPeer), u);
    run := Advance(s, Step, run, u, PeerResponse(Delete), u.(inflight := s.inflight - {r.key}, exec := Idle));
  }

  lemma PlainIsRun(s: Client, r: Reply) returns (run: seq<Event>)
    requires s.exec == Built(r) && Stores(s.inflight, Some(r.key), r.attempt) && r.sink.None?
    ensures After(s, Step, run) == Some(AnswerRequest(s, r).(inflight := s.inflight - {r.key}, exec := Idle))
  {
    var u := CheckCurrent(s, r);
    run := Advance(s, Step, [], s, PeerResponse(Check), u);
    var more := AnswerIsRun(u, r);
    run := Join(s, Step, run, u, more, AnswerRequest(s, r).(inflight := s.inflight - {r.key}, exec := Idle));
  }

  lemma PublishedIsRun(s: Client, r: Reply) returns (run: seq<Event>)
    requires s.exec == Built(r) && Stores(s.inflight, Some(r.key), r.attempt) && r.sink.Some? && !s.failed
    ensures After(s, Step, run) ==
            Some(AnswerRequest(PublishSink(s, r), r).(inflight := s.inflight - {r.key}, exec := Idle))
  {
    var u := PublishSink(s, r);
    run := PublishIsRun(s, r);
    var more := AnswerIsRun(u, r);
    run := Join(s, Step, run, u, more, AnswerRequest(u, r).(inflight := s.inflight - {r.key}, exec := Idle));
  }

  lemma FinishedIsRun(s: Client) returns (run: seq<Event>)
    requires Sinks(s) && s.exec.Found?
    ensures After(s, Step, run) == Some(Finished(s))
  {
    var r := s.exec.reply;
    var end := Finished(s);
    if !IsStream(s, r.attempt) || r.result.Absent? {
      run := PlainResponseIsRun(s, r);
    } else if r.result.Garbled? {
      assert Step(s, PeerResponse(BadChannelId)) == Some(end);
      run := Advance(s, Step, [], s, PeerResponse(BadChannelId), end);
    } else {
      run := StreamIsRun(s, r);
    }
  }

  lemma PlainResponseIsRun(s: Client, r: Reply) returns (run: seq<Event>)
    requires Sinks(s) && s.exec == Found(r) && (!IsStream(s, r.attempt) || r.result.Absent?)
    ensures After(s, Step, run) == Some(Finished(s))
  {
    var u := s.(exec := Built(r));
    assert Step(s, PeerResponse(Build)) == Some(u);
    run := Advance(s, Step, [], s, PeerResponse(Build), u);
    var more;
    if Stores(s.inflight, Some(r.key), r.attempt) {
      more := PlainIsRun(u, r);
    } else {
      more := RefusedResponseIsRun(u, r);
    }
    run := Join(s, Step, run, u, more, Finished(s));
  }

  lemma StreamIsRun(s: Client, r: Reply) returns (run: seq<Event>)
    requires Sinks(s) && s.exec == Found(r) && IsStream(s, r.attempt) && r.result.Channel?
    ensures After(s, Step, run) == Some(Finished(s))
  {
    var u, channel := WithSink(s, r), r.ChannelId();
    NewSink(s.sinks, r.attempt, channel, if channel in s.chanHandlers then s.chanHandlers[channel] else 0);
    assert Step(s, PeerResponse(Build)) == Some(u);
    run := Advance(s, Step, [], s, PeerResponse(Build), u);
    var more;
    if !Stores(s.inflight, Some(r.key), r.attempt) {
      more := RefusedResponseIsRun(u, u.exec.reply);
    } else if s.failed {
      more := LateSinkIsRun(u, u.exec.reply);
    } else {
      more := PublishedIsRun(u, u.exec.reply);
    }
    run := Join(s, Step, run, u, more, Finished(s));
  }

  // ---------- frames of a channel ----------

  function Delivered(s: Client, channel: nat, op: SinkOp): Client {
    if channel !in s.chanHandlers then s
    else
      s.(sinks := Emit(s.sinks, s.chanHandlers[channel], op),
         chanHandlers := if op.End? then s.chanHandlers - {channel} else s.chanHandlers)
  }

  lemma ItemIsRun(s: Client) returns (run: seq<Event>)
    requires s.exec.Idle? && s.queue != [] && s.queue[0].content.ChanValue?
    ensures After(s, Step, run) == Some(Delivered(Popped(s), s.queue[0].content.chid, Item(s.queue[0].content.value)))
  {
    var p, channel, value := Popped(s), s.queue[0].content.chid, s.queue[0].content.value;
    var u := FindForMessage(p, channel, value);
    assert Step(s, Stream(Message)) == Some(u);
    run := Advance(s, Step, [], s, Stream(Message), u);
    if channel in s.chanHandlers {
      var k := s.chanHandlers[channel];
      var v := p.(exec := MessageLocked(k, value));
      run := Advance(s, Step, run, u, Stream(LockMessage), v);
      run := Advance(s, Step, run, v, Stream(Deliver), Delivered(p, channel, Item(value)));
    }
  }

  lemma EndIsRun(s: Client) returns (run: seq<Event>)
    requires s.exec.Idle? && s.queue != [] && s.queue[0].content.ChanClosed?
    ensures After(s, Step, run) == Some(Delivered(Popped(s), s.queue[0].content.chid, End))
  {
    var p, channel := Popped(s), s.queue[0].content.chid;
    var u := FindForEnd(p, channel);
    assert Step(s, Stream(ChannelEnd)) == Some(u);
    run := Advance(s, Step, [], s, Stream(ChannelEnd), u);
    if channel in s.chanHandlers {
      var k := s.chanHandlers[channel];
      var v := RemoveHandler(p, channel, k);
      assert Emit(v.sinks, k, End) == Emit(p.sinks, k, End);
      run := Advance(s, Step, run, u, Stream(LockEnd), v);
      run := Advance(s, Step, run, v, Stream(DeliverEnd), Delivered(p, channel, End));
    }
  }

  // ---------- reconnect and exit ----------

  lemma SinksMove(s: Client, t: Client)
    requires Sinks(s) && s.loop.Select? && ExecutorElsewhere(s.exec) && t.loop.DropSinks? && (t.loop.final ==> t.failed)
    requires t == s.(attempts := t.attempts, inflight := t.inflight, epoch := t.epoch, failed := t.failed,
             loop := t.loop)
    requires s.failed ==> t.failed
    ensures Sinks(t)
  {
    SinksStay(s, t);
  }

  lemma TableHasOwnKeys(s: Client)
    requires InflightOk(s)
    ensures OwnKeys(s.attempts, s.inflight)
  {
    assert forall key | key in s.inflight :: EntryOk(s, key, s.inflight[key]);
  }

  lemma DropRequestsIsRun(s: Client) returns (run: seq<Event>)
    requires OwnKeys(s.attempts, s.inflight) && s.loop.Select? && !s.failed && ExecutorElsewhere(s.exec)
    requires s.reading == []
    ensures After(s, Step, run) == Some(WithoutRequests(s, DropSinks(false)))
  {
    var u := s.(loop := DropRequests(false));
    assert Step(s, Cleanup(BeginReconnect)) == Some(u);
    run := Advance(s, Step, [], s, Cleanup(BeginReconnect), u);
    var drop := CloseInFlightIsRun(u, false);
    var v := WithoutRequests(s, DropSinks(false));
    assert v == WithoutRequests(u, DropSinks(false));
    run := Join(s, Step, run, u, drop, v);
  }

  // tryReconnect: requests first, so that a response of a dropped request can publish no sink that outlives the
  // cleanup.
  lemma ReconnectIsRun(s: Client) returns (run: seq<Event>)
    requires OwnKeys(s.attempts, s.inflight) && Sinks(s) && s.loop.Select? && !s.failed && ExecutorElsewhere(s.exec)
    requires s.reading == []
    ensures After(s, Step, run) == Some(WithoutSinks(WithoutRequests(s, DropSinks(false)), Select))
  {
    var v := WithoutRequests(s, DropSinks(false));
    run := DropRequestsIsRun(s);
    SinksMove(s, v);
    var sweep := CloseChansIsRun(v, false);
    run := Join(s, Step, run, v, sweep, WithoutSinks(v, Select));
  }

  // fail and closeChans at exit.
  lemma ShutSinksIsRun(s: Client) returns (run: seq<Event>)
    requires Sinks(s) && s.loop.Select? && ExecutorElsewhere(s.exec)
    ensures After(s, Step, run) == Some(WithoutSinks(s.(failed := true), DropRequests(true)))
  {
    var u := s.(failed := true, loop := DropSinks(true));
    run := Advance(s, Step, [], s, Cleanup(BeginExit), u);
    SinksMove(s, u);
    var sweep := CloseChansIsRun(u, true);
    run := Join(s, Step, run, u, sweep, WithoutSinks(s.(failed := true), DropRequests(true)));
  }

  // The deferred calls of handleWsConn: fail, closeChans, closeInFlight.
  lemma ExitIsRun(s: Client) returns (run: seq<Event>)
    requires OwnKeys(s.attempts, s.inflight) && Sinks(s) && s.loop.Select? && ExecutorElsewhere(s.exec)
    ensures After(s, Step, run) == Some(WithoutRequests(WithoutSinks(s.(failed := true), DropRequests(true)), Gone))
  {
    var v := WithoutSinks(s.(failed := true), DropRequests(true));
    run := ShutSinksIsRun(s);
    var drop := CloseInFlightIsRun(v, true);
    run := Join(s, Step, run, v, drop, WithoutRequests(v, Gone));
  }

  // ---------- any order of such stretches ----------

  datatype Action =
    | Ask(caller: CallerEvent)
    | Serve(a: nat, refused: bool, written: bool)
    | MoveFrame(reader: ReadEvent)
    | Find
    | Finish
    | ChanFrame
    | Reconnect
    | Exit

  predicate Possible(s: Client, x: Action) {
    match x
    case Ask(e) => CallerEnabled(s, e)
    case Serve(a, _, _) => s.loop.Select? && a < |s.attempts| && s.attempts[a].stage.Offered?
    case MoveFrame(e) => ReadEnabled(s, e)
    case Find => s.exec.Idle? && s.queue != [] && s.queue[0].content.Answered?
    case Finish => s.exec.Found?
    case ChanFrame => s.exec.Idle? && s.queue != [] && !s.queue[0].content.Answered?
    case Reconnect => s.loop.Select? && !s.failed && s.reading == []
    case Exit => s.loop.Select?
  }

  // handleChanMessage or handleChanClose of the frame at the head of the queue.
  function Handled(s: Client): Client
    requires s.queue != [] && !s.queue[0].content.Answered?
  {
    var content := s.queue[0].content;
    Delivered(Popped(s), content.chid, if content.ChanValue? then Item(content.value) else End)
  }

  // The first half of handleResponse, for the frame at the head of the queue.
  function LookedUp(s: Client): Client
    requires s.queue != [] && s.queue[0].content.Answered?
  {
    var f := s.queue[0];
    LookupRequest(Popped(s), f.epoch, f.content.key, f.content.temporary, f.content.result)
  }

  function Perform(s: Client, x: Action): Client {
    if !Possible(s, x) then s
    else
      match x
      case Ask(e) => CallerNext(s, e)
      case Serve(a, refused, written) => Served(s, a, refused, written)
      case MoveFrame(e) => ReadNext(s, e)
      case Find => LookedUp(s)
      case Finish => Finished(s)
      case ChanFrame => Handled(s)
      case Reconnect => WithoutSinks(WithoutRequests(s, DropSinks(false)), Select)
      case Exit => WithoutRequests(WithoutSinks(s.(failed := true), DropRequests(true)), Gone)
  }

  function PerformAll(s: Client, xs: seq<Action>): Client {
    if xs == [] then s else Perform(PerformAll(s, xs[..|xs| - 1]), xs[|xs| - 1])
  }

  // Between two stretches the executor is idle or between the two halves of handleResponse.
  ghost predicate Between(s: Client) {
    Inv(s) && (s.exec.Idle? || s.exec.Found?)
  }

  lemma PerformIsRun(s: Client, x: Action) returns (run: seq<Event>)
    requires Between(s)
    ensures After(s, Step, run) == Some(Perform(s, x))
  {
    if !Possible(s, x) {
      run := [];
    } else {
      TableHasOwnKeys(s);
      match x
      case Ask(e) => run := Advance(s, Step, [], s, Caller(e), Perform(s, x));
      case Serve(a, refused, written) => run := ServedIsRun(s, a, refused, written);
      case MoveFrame(e) => run := Advance(s, Step, [], s, Reader(e), Perform(s, x));
      case Find => run := Advance(s, Step, [], s, PeerResponse(Lookup), Perform(s, x));
      case Finish => run := FinishedIsRun(s);
      case ChanFrame =>
        if s.queue[0].content.ChanValue? {
          run := ItemIsRun(s);
        } else {
          run := EndIsRun(s);
        }
      case Reconnect => run := ReconnectIsRun(s);
      case Exit => run := ExitIsRun(s);
    }
  }

  lemma PerformLeavesExecutor(s: Client, x: Action)
    requires s.exec.Idle? || s.exec.Found?
    ensures Perform(s, x).exec.Idle? || Perform(s, x).exec.Found?
  {
  }

  lemma PerformKeepsBetween(s: Client, x: Action)
    requires Between(s) && Perform(s, x).idCtr <= MAX_EXACT
    ensures Between(Perform(s, x))
  {
    var run := PerformIsRun(s, x);
    StaysGood(s, run, Perform(s, x));
    PerformLeavesExecutor(s, x);
  }

  lemma PerformCounts(s: Client, x: Action)
    ensures s.idCtr <= Perform(s, x).idCtr
  {
  }

  // ---------- why the order and the lock matter ----------

  // Whatever the executor has looked up, once a cleanup has taken requests and then sinks, finishing the response
  // publishes nothing.
  lemma RightOrderLeavesNoSink(s: Client)
    requires s.exec.Found?
    ensures Finished(WithoutSinks(WithoutRequests(s, DropSinks(false)), Select)).chanHandlers == map[]
  {
  }

  // The stream that handleResponse has looked up is still in the table.
  ghost predicate OpeningStream(s: Client, r: Reply) {
    && ReplyOk(s, r) && IsStream(s, r.attempt) && r.result.Channel?
    && Stores(s.inflight, Some(r.key), r.attempt) && r.lookupEpoch == s.epoch
  }

  // In the other order a response in between would leave the sink of a dropped request in the table, every time.
  lemma WrongOrderLeavesSink(s: Client)
    requires s.exec.Found? && OpeningStream(s, s.exec.reply) && !s.failed
    ensures var t := WithoutRequests(Finished(WithoutSinks(s, Select)), Select);
            var channel := s.exec.reply.ChannelId();
            channel in t.chanHandlers && !SinkEpoch(t, t.chanHandlers[channel], t.epoch)
  {
    var r := s.exec.reply;
    var v := Finished(WithoutSinks(s, Select));
    assert v.sinks[|s.sinks|] == Sink(r.attempt, Published(r.ChannelId()), []);
    assert v.attempts[r.attempt].epoch == Some(s.epoch);
  }

  // And without inflightLk held from the check to the publication, a cleanup in between would leave one as well.
  lemma UnlockedPublishLeavesSink(s: Client, r: Reply)
    requires OpeningStream(s, r) && r.sink.Some? && r.sink.value < |s.sinks| &&
             s.sinks[r.sink.value] == Sink(r.attempt, Private, [])
    ensures var t := PublishSink(WithoutSinks(WithoutRequests(s, DropSinks(false)), Select), r);
            r.ChannelId() in t.chanHandlers && !SinkEpoch(t, t.chanHandlers[r.ChannelId()], t.epoch)
  {
    var u := WithoutSinks(WithoutRequests(s, DropSinks(false)), Select);
    assert u.sinks[r.sink.value] == Sink(r.attempt, Private, []);
    assert u.attempts[r.attempt].epoch == s.attempts[r.attempt].epoch == Some(s.epoch);
  }

  // ---------- a channel ID that is used twice ----------

  // Between two stretches, with nothing in flight and nothing on its way.
  predicate Quiet(s: Client) {
    s.loop.Select? && s.exec.Idle? && s.reading == [] && s.queue == [] && s.inflight == map[] && !s.failed
  }

  // The response to a stream that was just sent has been looked up.
  lemma StreamLookedUp(run: seq<Event>, s: Client, a: nat, channel: nat) returns (longer: seq<Event>, t: Client)
    requires After(INIT, Step, run) == Some(s) && Quiet(s)
    requires a < |s.attempts| && s.attempts[a].stage.Offered? && s.attempts[a].key.Some?
    ensures After(INIT, Step, longer) == Some(t)
    ensures var key := s.attempts[a].key.value;
            t == s.(attempts := t.attempts, inflight := map[key := a],
                    exec := Found(Reply(key, a, s.epoch, s.epoch, false, Channel(channel), None)))
    ensures t.attempts ==
            s.attempts[a := s.attempts[a].(stage := Accepted, taken := true, epoch := Some(s.epoch))]
  {
    var content := Answered(s.attempts[a].key.value, false, Channel(channel));
    longer, t := ClientTheorems.OneSend(run, s, a);
    longer, t := FrameQueued(longer, t, content);
    LookupIsStep(t);
    longer, t := ClientTheorems.OneStep(longer, t, PeerResponse(Lookup));
    assert t.queue == [];
  }

  lemma LookupIsStep(s: Client)
    requires s.exec.Idle? && s.queue != [] && s.queue[0].content.Answered?
    ensures Step(s, PeerResponse(Lookup)) == Some(LookedUp(s))
  {
  }

  lemma ReadIsStep(s: Client, content: Content)
    requires s.reading == [] && s.loop.Select?
    ensures Step(s, Reader(Read(content))) == Some(s.(reading := [Frame(s.epoch, content)]))
  {
    assert s.reading + [Frame(s.epoch, content)] == [Frame(s.epoch, content)];
  }

  lemma QueueOneIsStep(s: Client, f: Frame)
    requires s.reading == [f] && s.queue == []
    ensures Step(s, Reader(Queue(0))) == Some(s.(reading := [], queue := [f]))
  {
    assert s.reading[..0] + s.reading[1..] == [] && s.queue + [f] == [f];
  }

  // A frame is read and queued.
  lemma FrameQueued(run: seq<Event>, s: Client, content: Content) returns (longer: seq<Event>, t: Client)
    requires After(INIT, Step, run) == Some(s) && s.reading == [] && s.queue == [] && s.loop.Select?
    ensures After(INIT, Step, longer) == Some(t) && t == s.(queue := [Frame(s.epoch, content)])
  {
    var f := Frame(s.epoch, content);
    var u := s.(reading := [f]);
    ReadIsStep(s, content);
    longer := Advance(INIT, Step, run, s, Reader(Read(content)), u);
    QueueOneIsStep(u, f);
    t := u.(reading := [], queue := [f]);
    longer := Advance(INIT, Step, longer, u, Reader(Queue(0)), t);
  }

  // A stream is sent and opened under a channel ID, which may be in use.
  lemma StreamOpened(run: seq<Event>, s: Client, a: nat, channel: nat) returns (longer: seq<Event>, t: Client)
    requires ClientTheorems.Reaches(run, s) && Quiet(s)
    requires a < |s.attempts| && s.attempts[a].stage.Offered? && s.attempts[a].key.Some? && s.attempts[a].stream
    ensures ClientTheorems.Reaches(longer, t) && Quiet(t) && t.idCtr == s.idCtr
    ensures |t.attempts| == |s.attempts| && forall b | 0 <= b < |s.attempts| && b != a :: t.attempts[b] == s.attempts[b]
    ensures t.chanHandlers == s.chanHandlers[channel := |s.sinks|]
    ensures t.sinks ==
            (if channel in s.chanHandlers then Move(s.sinks, s.chanHandlers[channel], Overwritten) else s.sinks) +
            [Sink(a, Published(channel), [])]
  {
    var u;
    longer, u := StreamLookedUp(run, s, a, channel);
    ClientTheorems.RunKeeps(longer, u);
    t := Finished(u);
    var more := FinishedIsRun(u);
    longer := Join(INIT, Step, longer, u, more, t);
  }

  lemma TwoStreamCalls() returns (run: seq<Event>, s: Client)
    ensures ClientTheorems.Reaches(run, s) && Quiet(s) && s.sinks == [] && s.chanHandlers == map[] && |s.attempts| == 2
    ensures forall a | 0 <= a < 2 ::
              s.attempts[a].stage.Offered? && s.attempts[a].key.Some? && s.attempts[a].stream
  {
    run, s := ClientTheorems.OneStep([], INIT, Caller(NewCall(true)));
    run, s := ClientTheorems.OneStep(run, s, Caller(NewCall(true)));
  }

  lemma OpenedTwice() returns (run: seq<Event>, s: Client)
    ensures ClientTheorems.Reaches(run, s) && Quiet(s) && s.sinks != [] && s.sinks[0] == Sink(0, Overwritten, [])
  {
    run, s := TwoStreamCalls();
    run, s := StreamOpened(run, s, 0, 7);
    run, s := StreamOpened(run, s, 1, 7);
  }

  // The event loop exits; an overwritten sink stays as it is.
  lemma ExitLeavesOverwritten(run: seq<Event>, s: Client, k: nat) returns (longer: seq<Event>, t: Client)
    requires ClientTheorems.Reaches(run, s) && Quiet(s) && k < |s.sinks| && s.sinks[k].place.Overwritten?
    ensures run <= longer && ClientTheorems.Reaches(longer, t) && t.Exited() && t.exec.Idle?
    ensures k < |t.sinks| && t.sinks[k] == s.sinks[k]
  {
    ClientTheorems.RunKeeps(run, s);
    TableHasOwnKeys(s);
    t := WithoutRequests(WithoutSinks(s.(failed := true), DropRequests(true)), Gone);
    var more := ExitIsRun(s);
    longer := Join(INIT, Step, run, s, more, t);
  }

  // A peer that opens two streams under one channel ID: after exit, with the executor idle, the sink of the first is
  // open, and nothing will ever close it.
  lemma ReuseLeavesSinkOpen()
    ensures exists run, s: Client ::
              && ClientTheorems.Reaches(run, s) && s.Exited() && s.exec.Idle? && ClientTheorems.ReusedChannel(run)
              && s.sinks != [] && s.sinks[0].place.Overwritten? && !ClientTheorems.IsClosed(s.sinks[0])
  {
    var run, s := OpenedTwice();
    var longer, t := ExitLeavesOverwritten(run, s, 0);
    assert ClientTheorems.SomeOverwritten(t);
    ClientTheorems.OverwrittenIffReused(longer, t);
  }

  // ---------- frames that are on their way ----------

  // What the frame executor leaves alone while it handles frames that do not concern attempt a.
  ghost predicate Waits(s: Client, t: Client, a: nat) {
    && t.loop == s.loop && t.epoch == s.epoch && t.failed == s.failed && t.idCtr == s.idCtr
    && a < |s.attempts| && |t.attempts| == |s.attempts| && t.attempts[a] == s.attempts[a]
  }

  lemma ExecutorStepWaits(s: Client, a: nat)
    requires AttemptsOk(s) && Replying(s) && HoldingOk(s) && !s.exec.Idle?
    requires a < |s.attempts| && s.attempts[a].stage.Offered?
    ensures var e := ClientTheorems.NextOf(s);
            && Enabled(s, e) && ClientTheorems.Work(Next(s, e).exec) < ClientTheorems.Work(s.exec)
            && Waits(s, Next(s, e), a) && Next(s, e).queue == s.queue && Next(s, e).reading == s.reading
  {
    ClientTheorems.ExecutorGoesOn(s);
    assert AttemptOk(s, s.attempts[a]);
  }

  // The executor finishes what it is doing.
  lemma {:induction false} ExecutorRests(run: seq<Event>, s: Client, a: nat) returns (longer: seq<Event>, t: Client)
    requires ClientTheorems.Reaches(run, s) && a < |s.attempts| && s.attempts[a].stage.Offered?
    ensures run <= longer && ClientTheorems.Reaches(longer, t) && t.exec.Idle? && Waits(s, t, a)
    ensures t.queue == s.queue && t.reading == s.reading
    decreases ClientTheorems.Work(s.exec)
  {
    longer, t := run, s;
    if !s.exec.Idle? {
      ClientTheorems.RunKeeps(run, s);
      ExecutorStepWaits(s, a);
      longer, t := ClientTheorems.OneStep(run, s, ClientTheorems.NextOf(s));
      var u := t;
      longer, t := ExecutorRests(longer, u, a);
    }
  }

  // Taking the frame at the head of the queue.
  function HeadEvent(s: Client): Event
    requires s.queue != []
  {
    match s.queue[0].content
    case Answered(_, _, _) => PeerResponse(Lookup)
    case ChanValue(_, _) => Stream(Message)
    case ChanClosed(_) => Stream(ChannelEnd)
  }

  lemma HeadStepWaits(s: Client, a: nat)
    requires s.exec.Idle? && s.queue != [] && a < |s.attempts|
    ensures Enabled(s, HeadEvent(s)) && Waits(s, Next(s, HeadEvent(s)), a)
    ensures Next(s, HeadEvent(s)).queue == s.queue[1..] && Next(s, HeadEvent(s)).reading == s.reading
  {
  }

  lemma HeadHandled(run: seq<Event>, s: Client, a: nat) returns (longer: seq<Event>, t: Client)
    requires ClientTheorems.Reaches(run, s) && s.exec.Idle? && s.queue != []
    requires a < |s.attempts| && s.attempts[a].stage.Offered?
    ensures run <= longer && ClientTheorems.Reaches(longer, t) && t.exec.Idle? && Waits(s, t, a)
    ensures t.queue == s.queue[1..] && t.reading == s.reading
  {
    HeadStepWaits(s, a);
    var u;
    longer, u := ClientTheorems.OneStep(run, s, HeadEvent(s));
    longer, t := ExecutorRests(longer, u, a);
  }

  lemma {:induction false} FirstHandled(run: seq<Event>, s: Client, a: nat, n: nat)
      returns (longer: seq<Event>, t: Client)
    requires ClientTheorems.Reaches(run, s) && s.exec.Idle? && n <= |s.queue|
    requires a < |s.attempts| && s.attempts[a].stage.Offered?
    ensures run <= longer && ClientTheorems.Reaches(longer, t) && t.exec.Idle? && Waits(s, t, a)
    ensures t.queue == s.queue[n..] && t.reading == s.reading
    decreases n
  {
    longer, t := run, s;
    if n > 0 {
      var u;
      longer, u := HeadHandled(run, s, a);
      longer, t := FirstHandled(longer, u, a, n - 1);
      assert s.queue[1..][n - 1..] == s.queue[n..];
    }
  }

  lemma QueueIsStep(s: Client, i: nat)
    requires i < |s.reading| && |s.queue| < MAX_QUEUED_FRAMES
    ensures Step(s, Reader(Queue(i))) == Some(ReadNext(s, Queue(i)))
  {
  }

  // A reader queues its frame, after the executor has made room if it must.
  lemma PendingQueued(run: seq<Event>, s: Client, a: nat, f: Frame) returns (longer: seq<Event>, t: Client)
    requires ClientTheorems.Reaches(run, s) && s.exec.Idle? && (f in s.queue || f in s.reading)
    requires a < |s.attempts| && s.attempts[a].stage.Offered?
    ensures run <= longer && ClientTheorems.Reaches(longer, t) && t.exec.Idle? && Waits(s, t, a) && f in t.queue
  {
    longer, t := run, s;
    if f !in s.queue {
      longer, t := FirstHandled(run, s, a, |s.queue|);
      var i :| 0 <= i < |s.reading| && s.reading[i] == f;
      QueueIsStep(t, i);
      var u;
      longer, u := ClientTheorems.OneStep(longer, t, Reader(Queue(i)));
      assert u.queue[|u.queue| - 1] == f;
      t := u;
    }
  }

  // The frame answers the key of attempt a, in a way that attempt can be answered.
  predicate Answerable(s: Client, f: Frame, a: nat) {
    && a < |s.attempts| && s.attempts[a].stage.Offered?
    && f.content.Answered? && s.attempts[a].key == Some(f.content.key)
    && (s.attempts[a].stream && !f.content.result.Absent? ==> f.content.result.Channel? && !s.failed)
  }

  // The frame is at the head of the queue: attempt a is sent, and the frame answers it.
  lemma HeadAnswers(run: seq<Event>, s: Client, a: nat) returns (longer: seq<Event>, t: Client)
    requires ClientTheorems.Reaches(run, s) && s.loop.Select? && s.exec.Idle? && s.queue != []
    requires Answerable(s, s.queue[0], a) && s.attempts[a].answers == []
    ensures run <= longer && ClientTheorems.Reaches(longer, t) && a < |t.attempts| &&
            t.attempts[a].epoch == Some(s.epoch)
    ensures var f := s.queue[0];
            t.attempts[a].answers == [Response(s.attempts[a].key, Peer(f.epoch, s.epoch, f.content.temporary))]
  {
    var u;
    longer, u := HeadLookedUp(run, s, a);
    ClientTheorems.RunKeeps(longer, u);
    t := Finished(u);
    var more := FinishedIsRun(u);
    longer := Join(INIT, Step, longer, u, more, t);
  }

  lemma HeadLookedUp(run: seq<Event>, s: Client, a: nat) returns (longer: seq<Event>, t: Client)
    requires After(INIT, Step, run) == Some(s) && s.loop.Select? && s.exec.Idle? && s.queue != []
    requires Answerable(s, s.queue[0], a) && s.attempts[a].answers == []
    ensures run <= longer && After(INIT, Step, longer) == Some(t) && t.idCtr == s.idCtr
    ensures var f := s.queue[0];
            && t.exec == Found(Reply(f.content.key, a, f.epoch, s.epoch, f.content.temporary, f.content.result, None))
            && t.inflight == s.inflight[f.content.key := a] && t.failed == s.failed && |t.attempts| == |s.attempts|
            && t.attempts[a] == s.attempts[a].(stage := Accepted, taken := true, epoch := Some(s.epoch))
  {
    longer, t := ClientTheorems.OneSend(run, s, a);
    LookupIsStep(t);
    longer, t := ClientTheorems.OneStep(longer, t, PeerResponse(Lookup));
  }

  // Frames of an earlier connection do cross: whatever is queued before it, and whatever the executor is doing, any
  // response in the queue, however old, has a continuation in which it answers an attempt with its key that is waiting
  // to be sent while the event loop can take it. So has one that a reader holds, from the current connection.
  lemma PendingFrameReachesAttempt(run: seq<Event>, s: Client, a: nat, f: Frame)
      returns (longer: seq<Event>, t: Client)
    requires ClientTheorems.Reaches(run, s) && s.loop.Select? && (f in s.queue || f in s.reading)
    requires Answerable(s, f, a)
    ensures run <= longer && ClientTheorems.Reaches(longer, t) && a < |t.attempts| &&
            t.attempts[a].epoch == Some(s.epoch)
    ensures t.attempts[a].answers == [Response(s.attempts[a].key, Peer(f.epoch, s.epoch, f.content.temporary))]
  {
    var u;
    longer, u := ExecutorRests(run, s, a);
    longer, u := PendingQueued(longer, u, a, f);
    var n :| 0 <= n < |u.queue| && u.queue[n] == f;
    longer, u := FirstHandled(longer, u, a, n);
    ClientTheorems.RunKeeps(longer, u);
    assert AttemptOk(u, u.attempts[a]);
    longer, t := HeadAnswers(longer, u, a);
  }
}
