/** What each stretch of the client half does to the tables, the requests and the sinks, in plain terms. */
module ClientEffects {
  import opened Options
  import opened RequestIds
  import opened ClientProtocol
  import opened ClientInvariant
  import opened ClientRuns

  // One answer more; the buffer keeps the first.
  ghost predicate AnsweredOnce(before: Attempt, after: Attempt, r: Response) {
    && after.answers == before.answers + [r]
    && after.ready == (if before.ready == None then Some(r) else before.ready)
    && after.key == before.key && after.stream == before.stream && after.epoch == before.epoch
    && after.stage == before.stage && after.taken == before.taken
  }

  lemma RespondAnswersOnce(t: Attempt, r: Response)
    ensures t.Respond(r).answers == t.answers + [r]
    ensures t.Respond(r).ready == if t.ready == None then Some(r) else t.ready
    ensures t.Respond(r).key == t.key && t.Respond(r).stream == t.stream && t.Respond(r).epoch == t.epoch
    ensures t.Respond(r).stage == t.stage && t.Respond(r).taken == t.taken
  {
  }

  // A notification is answered when it is written; a request with an identifier is refused, or stored, or, if the
  // write fails, neither stored nor left without an answer.
  lemma ServedEffect(s: Client, a: nat, refused: bool, written: bool)
    requires a < |s.attempts|
    ensures var t := Served(s, a, refused, written);
            var before, after, key := s.attempts[a], t.attempts[a], s.attempts[a].key;
            && |t.attempts| == |s.attempts|
            && (forall b | 0 <= b < |s.attempts| && b != a :: t.attempts[b] == s.attempts[b])
            && after.stage == Stage.Accepted && after.taken && after.key == key && after.stream == before.stream
            && (key == None ==>
                 t.inflight == s.inflight &&
                 after.answers == before.answers + [Response(None, if written then NotificationSent else WriteFailed)])
            && (key != None && refused ==>
                 t.inflight == s.inflight && after.answers == before.answers + [Response(key, ConnectionClosed)])
            && (key != None && !refused && written ==>
                 t.inflight == s.inflight[key.value := a] &&
                 after.epoch == Some(s.epoch) && after.answers == before.answers)
            && (key != None && !refused && !written ==>
                 t.inflight == s.inflight - {key.value} && after.answers ==
                     before.answers + [Response(key, WriteFailed)])
            && after.ready == (if before.ready == None && after.answers != before.answers
                               then Some(after.answers[|before.answers|]) else before.ready)
  {
  }

  // closeInFlight: each request in the table gets one answer, a temporary error with its identifier, and nobody
  // else any.
  lemma DroppedEffect(s: Client, loop: Loop, a: nat)
    requires a < |s.attempts|
    ensures var t, key := WithoutRequests(s, loop), s.attempts[a].key;
            && t.inflight == map[] && t.epoch == s.epoch + 1 && |t.attempts| == |s.attempts|
            && t.sinks == s.sinks && t.chanHandlers == s.chanHandlers
            && (key != None && key.value in s.inflight && s.inflight[key.value] == a ==>
                 t.attempts[a].answers == s.attempts[a].answers + [Response(key, ConnectionClosed)] &&
                 t.attempts[a].ready == if s.attempts[a].ready == None then Some(Response(key, ConnectionClosed))
                                        else s.attempts[a].ready)
            && (!(key != None && key.value in s.inflight && s.inflight[key.value] == a) ==>
                t.attempts[a] == s.attempts[a])
  {
  }

  // closeChans: each published sink gets its close, and nothing else happens to any sink.
  lemma ClosedEffect(s: Client, loop: Loop, k: nat)
    requires SinksOk(s) && !s.loop.Sweep? && k < |s.sinks|
    ensures var t := WithoutSinks(s, loop);
            && t.chanHandlers == map[] && |t.sinks| == |s.sinks| && t.attempts == s.attempts && t.inflight == s.inflight
            && t.sinks[k] == if s.sinks[k].place.Published? then Sink(s.sinks[k].attempt, Closed,
                s.sinks[k].ops + [End])
                             else s.sinks[k]
  {
    assert SinkOk(s, k, s.sinks[k]);
  }

  // The response r still belongs to the request in the table, and opens a stream only if that can be opened.
  ghost predicate Takes(s: Client, r: Reply) {
    && r.attempt < |s.attempts| && r.key in s.inflight && s.inflight[r.key] == r.attempt
    && (s.attempts[r.attempt].stream && r.result != Absent ==> r.result.Channel? && !s.failed)
  }

  // handleResponse, second half: the request is answered with this response and leaves the table exactly if it
  // takes it.
  lemma FinishedAnswers(s: Client)
    requires s.exec.Found? && s.exec.reply.attempt < |s.attempts|
    ensures var t, r := Finished(s), s.exec.reply;
            var a, answer := r.attempt, Response(Some(r.key), Peer(r.frameEpoch, r.lookupEpoch, r.temporary));
            && t.exec == Idle && |t.attempts| == |s.attempts|
            && (forall b | 0 <= b < |s.attempts| && b != a :: t.attempts[b] == s.attempts[b])
            && (Takes(s, r) ==>
                 t.inflight == s.inflight - {r.key} && AnsweredOnce(s.attempts[a], t.attempts[a], answer))
            && (!Takes(s, r) ==> t.inflight == s.inflight && t.attempts[a] == s.attempts[a])
  {
  }

  // And for a stream with a channel ID a sink is built, published under that ID if the request takes the response,
  // and closed if not; otherwise no sink is built.
  lemma FinishedBuilds(s: Client)
    requires s.exec.Found? && s.exec.reply.attempt < |s.attempts|
    requires forall c | c in s.chanHandlers :: s.chanHandlers[c] < |s.sinks|
    ensures var t, r := Finished(s), s.exec.reply;
            var opens := s.attempts[r.attempt].stream && r.result.Channel?;
            && (!opens ==> t.sinks == s.sinks && t.chanHandlers == s.chanHandlers)
            && (opens && Takes(s, r) ==>
                 && t.chanHandlers == s.chanHandlers[r.result.channel := |s.sinks|]
                 && |t.sinks| == |s.sinks| + 1 && t.sinks[|s.sinks|] == Sink(r.attempt, Published(r.result.channel), [])
                 && forall k | 0 <= k < |s.sinks| ::
                      t.sinks[k].ops == s.sinks[k].ops && t.sinks[k].attempt == s.sinks[k].attempt)
            && (opens && !Takes(s, r) ==>
                 t.chanHandlers == s.chanHandlers && t.sinks == s.sinks + [Sink(r.attempt, Closed, [End])])
  {
  }

  // The first half of handleResponse remembers the entry of the frame's identifier; an unknown one is dropped.
  lemma LookedUpEffect(s: Client)
    requires s.exec == Idle && s.queue != [] && s.queue[0].content.Answered?
    ensures var t, f := LookedUp(s), s.queue[0];
            && t.queue == s.queue[1..] && t.inflight == s.inflight && t.attempts == s.attempts
            && t.exec == if f.content.key in s.inflight
                         then Found(Reply(f.content.key, s.inflight[f.content.key], f.epoch, s.epoch,
                                          f.content.temporary, f.content.result, None))
                         else Idle
  {
  }

  // A value goes to the end of the sink published under its channel ID, and to no other; a close is its last
  // operation and takes it out of the table; a frame for an unknown channel changes nothing.
  lemma HandledEffect(s: Client)
    requires s.queue != [] && !s.queue[0].content.Answered?
    ensures var t, content := Handled(s), s.queue[0].content;
            && t.queue == s.queue[1..]
            && (content.chid !in s.chanHandlers ==> t.sinks == s.sinks && t.chanHandlers == s.chanHandlers)
            && (content.chid in s.chanHandlers && s.chanHandlers[content.chid] < |s.sinks| ==>
                 var k := s.chanHandlers[content.chid];
                 match content
                 case ChanValue(_, value) =>
                   && t.chanHandlers == s.chanHandlers
                   && t.sinks == s.sinks[k := Sink(s.sinks[k].attempt, s.sinks[k].place,
                       s.sinks[k].ops + [Item(value)])]
                 case ChanClosed(c) =>
                   && t.chanHandlers == s.chanHandlers - {c}
                   && t.sinks == s.sinks[k := Sink(s.sinks[k].attempt, Closed, s.sinks[k].ops + [End])])
  {
  }

  // What callers do to their own attempt; a retry keeps the identifier.
  lemma CallerEffect(s: Client, e: CallerEvent)
    requires CallerEnabled(s, e)
    ensures var t, n := CallerNext(s, e), |s.attempts|;
            match e
            case NewCall(stream) =>
              t.idCtr == s.idCtr + 1 &&
              t.attempts == s.attempts + [Attempt(Some(ToFloat64(s.idCtr + 1)), stream, Offered, false, None, [], None)]
            case NewNotification =>
              t.idCtr == s.idCtr && t.attempts == s.attempts + [Attempt(None, false, Offered, false, None, [], None)]
            case Retry(a) =>
              t.idCtr == s.idCtr && |t.attempts| == n + 1 && t.attempts[..n] == s.attempts &&
              t.attempts[n] == Attempt(s.attempts[a].key, s.attempts[a].stream, Offered, false, None, [], None)
            case Receive(a) =>
              t.attempts == s.attempts[a := t.attempts[a]] && t.attempts[a].ready == None &&
              t.attempts[a].stage == Returned(Answer(s.attempts[a].ready.value))
            case GiveUp(a) =>
              t.attempts == s.attempts[a := t.attempts[a]] && t.attempts[a].stage == Returned(ExitError)
  {
  }

  // A call may be tried again exactly if its last attempt returned a temporary error: one the peer marked so, a closed
  // connection or a failed write.
  lemma RetryIff(s: Client, a: nat)
    ensures CallerEnabled(s, Retry(a)) <==>
              && a < |s.attempts| && s.attempts[a].key != None
              && s.attempts[a].stage.Returned? && s.attempts[a].stage.outcome.Answer?
              && (match s.attempts[a].stage.outcome.response.source
                  case Peer(_, _, temporary) => temporary
                  case ConnectionClosed => true
                  case WriteFailed => true
                  case NotificationSent => false)
              && forall b | a < b < |s.attempts| :: s.attempts[b].key != s.attempts[a].key
  {
  }

  // Anybody can fail the connection at any time, and it stays so through the teardown.
  lemma FailEffect(s: Client)
    ensures CleanupEnabled(s, Fail) && CleanupNext(s, Fail) == s.(failed := true)
    ensures CleanupEnabled(s, BeginExit) ==> CleanupNext(s, BeginExit) == s.(failed := true, loop := DropSinks(true))
  {
  }
}
