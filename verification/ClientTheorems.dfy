/** What holds of every run of the client half, whatever the interleaving. */
module ClientTheorems {
  import opened Options
  import opened RequestIds
  import opened Runs
  import opened ClientProtocol
  import opened ClientInvariant

  // ---------- every step keeps the invariant ----------

  lemma CallerKeepsRequests(s: Client, e: CallerEvent)
    requires Requests(s) && CallerEnabled(s, e) && CallerNext(s, e).idCtr <= MAX_EXACT
    ensures Requests(CallerNext(s, e))
  {
    match e
    case NewCall(stream) => CallKeeps(s, stream);
    case NewNotification => AppendKeeps(s, s.idCtr, Attempt(None, false, Offered, false, None, [], None));
    case Retry(a) => TryAgainKeeps(s, a);
    case Receive(a) => ReceiveKeeps(s, a);
    case GiveUp(a) => GiveUpKeeps(s, a);
  }

  lemma CallerKeepsSinks(s: Client, e: CallerEvent)
    requires Sinks(s) && CallerEnabled(s, e)
    ensures Sinks(CallerNext(s, e))
  {
    SinksStay(s, CallerNext(s, e));
  }

  lemma CallerKeepsFresh(s: Client, e: CallerEvent)
    requires FreshSinks(s) && CallerEnabled(s, e)
    ensures FreshSinks(CallerNext(s, e))
  {
    FreshStays(s, CallerNext(s, e));
  }

  lemma SendKeepsRequests(s: Client, e: SendEvent)
    requires Requests(s) && SendEnabled(s, e)
    ensures Requests(SendNext(s, e))
  {
    match e
    case Accept(a) => TakeKeeps(s, a);
    case Refuse => RespondKeeps(s, s.loop.attempt, Response(KeyOf(s, s.loop.attempt), ConnectionClosed), Select);
    case Store => StoreKeeps(s, s.loop.attempt);
    case WriteOk => WrittenKeeps(s, s.loop.attempt);
    case WriteFail => LoopMoves(s, SendNext(s, e));
    case Unstore => UnstoreKeeps(s, s.loop.attempt);
    case AnswerUnsent => RespondKeeps(s, s.loop.attempt, Response(KeyOf(s, s.loop.attempt), WriteFailed), Select);
  }

  lemma SendKeepsSinks(s: Client, e: SendEvent)
    requires Sinks(s) && SendEnabled(s, e)
    ensures Sinks(SendNext(s, e))
  {
    SinksStay(s, SendNext(s, e));
  }

  lemma SendKeepsFresh(s: Client, e: SendEvent)
    requires Requests(s) && FreshSinks(s) && SendEnabled(s, e)
    ensures FreshSinks(SendNext(s, e))
  {
    FreshStays(s, SendNext(s, e));
  }

  lemma CleanupKeepsRequests(s: Client, e: CleanupEvent)
    requires Requests(s) && CleanupEnabled(s, e)
    ensures Requests(CleanupNext(s, e))
  {
    match e
    case TakeRequests => TakeInflightKeeps(s, s.loop.final);
    case DrainOne(key) => DrainKeeps(s, s.loop.requests, s.loop.final, key);
    case _ => LoopMoves(s, CleanupNext(s, e));
  }

  lemma CleanupKeepsSinks(s: Client, e: CleanupEvent)
    requires Sinks(s) && CleanupEnabled(s, e)
    ensures Sinks(CleanupNext(s, e))
  {
    match e
    case TakeSinks => TakeHandlersKeeps(s, s.loop.final);
    case SweepOne(channel) => CloseSweptKeeps(s, s.loop.sinks, s.loop.final, channel);
    case _ => SinksStay(s, CleanupNext(s, e));
  }

  lemma CleanupKeepsFresh(s: Client, e: CleanupEvent)
    requires Sinks(s) && FreshSinks(s) && CleanupEnabled(s, e)
    ensures FreshSinks(CleanupNext(s, e))
  {
    FreshStays(s, CleanupNext(s, e));
  }

  lemma ResponseKeepsRequests(s: Client, e: ResponseEvent)
    requires Requests(s) && ResponseEnabled(s, e)
    ensures Requests(ResponseNext(s, e))
  {
    match e
    case AnswerPeer => AnswerKeeps(s, s.exec.reply);
    case Delete => DeleteKeeps(s, s.exec.reply);
    case _ =>
      ResponseMoves(s, e);
      ExecMoves(s, ResponseNext(s, e));
  }

  // The steps of handleResponse that leave the table and the answers alone.
  lemma ResponseMoves(s: Client, e: ResponseEvent)
    requires InflightOk(s) && Replying(s) && ResponseEnabled(s, e) && !e.AnswerPeer? && !e.Delete?
    ensures var t := ResponseNext(s, e);
            t == s.(exec := t.exec, sinks := t.sinks, chanHandlers := t.chanHandlers, queue := t.queue) &&
                Replying(t) &&
            !s.exec.Replied? && !t.exec.Replied?
  {
    if e.Lookup? && s.queue[0].content.key in s.inflight {
      assert EntryOk(s, s.queue[0].content.key, s.inflight[s.queue[0].content.key]);
    }
  }

  lemma ResponseKeepsSinks(s: Client, e: ResponseEvent)
    requires Sinks(s) && ResponseEnabled(s, e)
    ensures Sinks(ResponseNext(s, e))
  {
    match e
    case Build => BuildKeeps(s, s.exec.reply);
    case Publish => PublishKeeps(s, s.exec.reply);
    case Reject => RejectKeeps(s, s.exec.sink);
    case _ =>
      ResponseHolds(s, e);
      SinksStay(s, ResponseNext(s, e));
  }

  // The steps of handleResponse that leave every sink where it is.
  lemma ResponseHolds(s: Client, e: ResponseEvent)
    requires HoldingOk(s) && Teardown(s) && ResponseEnabled(s, e) && !e.Build? && !e.Publish? && !e.Reject?
    ensures var t := ResponseNext(s, e);
            t.sinks == s.sinks && t.chanHandlers == s.chanHandlers && t.loop == s.loop && t.failed == s.failed &&
            HoldingOk(t) && Teardown(t) && forall k: nat :: Owns(t.exec, k) <==> Owns(s.exec, k)
  {
  }

  lemma ResponseKeepsFresh(s: Client, e: ResponseEvent)
    requires Inv(s) && ResponseEnabled(s, e)
    ensures FreshSinks(ResponseNext(s, e))
  {
    if e.Publish? {
      OwnSinkIsFresh(s, s.exec.reply);
      FreshPublish(s, s.exec.reply);
    } else {
      FreshStays(s, ResponseNext(s, e));
    }
  }

  lemma MessageKeepsRequests(s: Client, e: MessageEvent)
    requires Requests(s) && MessageEnabled(s, e)
    ensures Requests(MessageNext(s, e))
  {
    ExecMoves(s, MessageNext(s, e));
  }

  lemma MessageKeepsSinks(s: Client, e: MessageEvent)
    requires Sinks(s) && MessageEnabled(s, e)
    ensures Sinks(MessageNext(s, e))
  {
    match e
    case Deliver => DeliverKeeps(s, s.exec.sink, s.exec.value);
    case LockEnd => RemoveKeeps(s, s.exec.channel, s.exec.sink);
    case DeliverEnd => RejectKeeps(s, s.exec.sink);
    case _ => SinksStay(s, MessageNext(s, e));
  }

  lemma MessageKeepsFresh(s: Client, e: MessageEvent)
    requires FreshSinks(s) && MessageEnabled(s, e)
    ensures FreshSinks(MessageNext(s, e))
  {
    FreshStays(s, MessageNext(s, e));
  }

  lemma ReaderKeeps(s: Client, e: ReadEvent)
    requires Inv(s) && ReadEnabled(s, e)
    ensures Inv(ReadNext(s, e))
  {
    var t := ReadNext(s, e);
    ReadingMoves(s, t.reading, t.queue);
    SinksStay(s, t);
    FreshStays(s, t);
    ReaderKeepsFrames(s, e);
  }

  lemma ReaderKeepsFrames(s: Client, e: ReadEvent)
    requires FramesOk(s) && ReadEnabled(s, e)
    ensures FramesOk(ReadNext(s, e))
  {
  }

  // A peer answer that was there before.
  ghost predicate KnownAnswer(s: Client, a: nat, i: nat, r: Response) {
    r.source.Peer? ==> a < |s.attempts| && i < |s.attempts[a].answers| && s.attempts[a].answers[i] == r
  }

  ghost predicate NoPeerAnswers(s: Client, t: Client) {
    forall a, i | 0 <= a < |t.attempts| && 0 <= i < |t.attempts[a].answers| ::
      KnownAnswer(s, a, i, t.attempts[a].answers[i])
  }

  // A step that gives no peer answer and moves no frame.
  ghost predicate LeavesFrames(s: Client, t: Client) {
    && s.epoch <= t.epoch && t.reading == s.reading && t.queue == s.queue && t.exec == s.exec
    && NoPeerAnswers(s, t)
    && (t.epoch == s.epoch || Reconnecting(s.loop) || Leaving(s.loop)) && (Leaving(s.loop) ==> Leaving(t.loop))
    && (Reconnecting(t.loop) ==> Reconnecting(s.loop) || s.reading == [])
  }

  lemma FramesStay(s: Client, t: Client)
    requires FramesOk(s) && LeavesFrames(s, t)
    ensures FramesOk(t)
  {
    forall a, i | 0 <= a < |t.attempts| && 0 <= i < |t.attempts[a].answers|
      ensures SourceOk(t.attempts[a].answers[i].source)
    {
      assert KnownAnswer(s, a, i, t.attempts[a].answers[i]);
    }
  }

  lemma CallerLeavesFrames(s: Client, e: CallerEvent)
    requires CallerEnabled(s, e)
    ensures LeavesFrames(s, CallerNext(s, e))
  {
  }

  lemma SendLeavesFrames(s: Client, e: SendEvent)
    requires SendEnabled(s, e)
    ensures LeavesFrames(s, SendNext(s, e))
  {
    SendGivesNoPeerAnswer(s, e);
  }

  lemma SendGivesNoPeerAnswer(s: Client, e: SendEvent)
    requires SendEnabled(s, e)
    ensures NoPeerAnswers(s, SendNext(s, e))
  {
  }

  lemma CleanupLeavesFrames(s: Client, e: CleanupEvent)
    requires CleanupEnabled(s, e)
    ensures LeavesFrames(s, CleanupNext(s, e))
  {
  }

  lemma ResponseKeepsFrames(s: Client, e: ResponseEvent)
    requires FramesOk(s) && ResponseEnabled(s, e)
    ensures FramesOk(ResponseNext(s, e))
  {
  }

  lemma MessageKeepsFrames(s: Client, e: MessageEvent)
    requires FramesOk(s) && MessageEnabled(s, e)
    ensures FramesOk(MessageNext(s, e))
  {
  }

  lemma StepKeepsFrames(s: Client, e: Event)
    requires FramesOk(s) && Enabled(s, e)
    ensures FramesOk(Next(s, e))
  {
    match e
    case Reader(c) => ReaderKeepsFrames(s, c);
    case Caller(c) => CallerLeavesFrames(s, c); FramesStay(s, Next(s, e));
    case Send(c) => SendLeavesFrames(s, c); FramesStay(s, Next(s, e));
    case Cleanup(c) => CleanupLeavesFrames(s, c); FramesStay(s, Next(s, e));
    case PeerResponse(c) => ResponseKeepsFrames(s, c);
    case Stream(c) => MessageKeepsFrames(s, c);
  }

  lemma StepKeeps(s: Client, e: Event)
    requires Inv(s) && Enabled(s, e) && Next(s, e).idCtr <= MAX_EXACT
    ensures Inv(Next(s, e))
  {
    StepKeepsFrames(s, e);
    match e
    case Reader(c) => ReaderKeeps(s, c);
    case Caller(c) => CallerKeepsRequests(s, c); CallerKeepsSinks(s, c); CallerKeepsFresh(s, c);
    case Send(c) => SendKeepsRequests(s, c); SendKeepsSinks(s, c); SendKeepsFresh(s, c);
    case Cleanup(c) => CleanupKeepsRequests(s, c); CleanupKeepsSinks(s, c); CleanupKeepsFresh(s, c);
    case PeerResponse(c) => ResponseKeepsRequests(s, c); ResponseKeepsSinks(s, c); ResponseKeepsFresh(s, c);
    case Stream(c) => MessageKeepsRequests(s, c); MessageKeepsSinks(s, c); MessageKeepsFresh(s, c);
  }

  // ---------- runs ----------

  // s is the state after run, with request identifiers still exact (RequestIds.KeysDistinctIff).
  ghost predicate Reaches(run: seq<Event>, s: Client) {
    After(INIT, Step, run) == Some(s) && s.idCtr <= MAX_EXACT
  }

  lemma IdCtrGrows(s: Client, e: Event)
    requires Enabled(s, e)
    ensures s.idCtr <= Next(s, e).idCtr
  {
    match e
    case Reader(c) =>
    case Caller(c) =>
    case Send(c) =>
    case Cleanup(c) =>
    case PeerResponse(c) =>
    case Stream(c) =>
  }

  lemma StepKeepsExact(s: Client, e: Event)
    requires (s.idCtr <= MAX_EXACT ==> Inv(s)) && Enabled(s, e)
    ensures Next(s, e).idCtr <= MAX_EXACT ==> Inv(Next(s, e))
  {
    IdCtrGrows(s, e);
    if Next(s, e).idCtr <= MAX_EXACT {
      StepKeeps(s, e);
    }
  }

  lemma RunKeeps(run: seq<Event>, s: Client)
    requires Reaches(run, s)
    ensures Inv(s)
  {
    var inv := (u: Client) => u.idCtr <= MAX_EXACT ==> Inv(u);
    InitInv();
    forall u, e | inv(u) && Step(u, e).Some? ensures inv(Step(u, e).value) {
      StepKeepsExact(u, e);
    }
    Invariant(INIT, Step, inv, run);
  }

  // One more step of a run.
  lemma OneStep(run: seq<Event>, s: Client, e: Event) returns (longer: seq<Event>, t: Client)
    requires After(INIT, Step, run) == Some(s) && Enabled(s, e)
    ensures longer == run + [e] && t == Next(s, e) && After(INIT, Step, longer) == Some(t)
  {
    longer, t := Extend(INIT, Step, run, s, e);
  }

  // ---------- requests ----------

  // Between acceptance and answer a request is in the table under its own key, or in the hands of
  // the one step of the event loop that is moving it.
  lemma RequestConservation(run: seq<Event>, s: Client, a: nat)
    requires Reaches(run, s)
    requires a < |s.attempts| && s.attempts[a].taken && s.attempts[a].answers == []
    ensures Carried(s, a) != InTable(s, a)
    ensures InTable(s, a) ==> forall key | key in s.inflight && s.inflight[key] == a :: s.attempts[a].key == Some(key)
  {
    RunKeeps(run, s);
    assert forall key | key in s.inflight :: EntryOk(s, key, s.inflight[key]);
  }

  // Storing a request never overwrites an entry, and an entry is only ever deleted on behalf of the attempt it holds.
  lemma EntriesAreOwn(run: seq<Event>, s: Client, e: SendEvent)
    requires Reaches(run, s) && SendEnabled(s, e)
    ensures e.Store? && KeyOf(s, s.loop.attempt).Some? ==> KeyOf(s, s.loop.attempt).value !in s.inflight
    ensures e.Unstore? && KeyOf(s, s.loop.attempt).Some? && KeyOf(s, s.loop.attempt).value in s.inflight ==>
              s.inflight[KeyOf(s, s.loop.attempt).value] == s.loop.attempt
  {
    RunKeeps(run, s);
    if e.Store? && KeyOf(s, s.loop.attempt).Some? {
      StoreIsFresh(s, s.loop.attempt);
    }
    if e.Unstore? && KeyOf(s, s.loop.attempt).Some? {
      UnstoreIsOwn(s, s.loop.attempt);
    }
  }

  // From the second check to the delete, the entry handleResponse works on is that of the attempt it looked up.
  lemma ResponseOwnsEntry(run: seq<Event>, s: Client)
    requires Reaches(run, s) && s.InflightHeld()
    ensures Current(s, s.exec.reply) && s.exec.reply.attempt < |s.attempts|
    ensures s.attempts[s.exec.reply.attempt].epoch == Some(s.epoch)
  {
    RunKeeps(run, s);
  }

  // A caller that returns an answer returns the first one, and it carries the caller's own identifier.
  // An exit error is returned only for a request the event loop never took.
  lemma FirstAnswerWins(run: seq<Event>, s: Client, a: nat)
    requires Reaches(run, s) && a < |s.attempts| && s.attempts[a].stage.Returned?
    ensures match s.attempts[a].stage.outcome
            case Answer(r) => s.attempts[a].answers != [] && r == s.attempts[a].answers[0] && r.key == s.attempts[a].key
            case ExitError => !s.attempts[a].taken && s.attempts[a].answers == []
  {
    RunKeeps(run, s);
  }

  // Once the event loop has exited, both tables are empty, every request it took is answered, and a
  // caller still waiting finds that first answer in its buffer.
  lemma ExitAnswersEverything(run: seq<Event>, s: Client, a: nat)
    requires Reaches(run, s) && s.Exited()
    ensures s.inflight == map[] && s.chanHandlers == map[]
    ensures a < |s.attempts| && s.attempts[a].taken ==>
              s.attempts[a].answers != [] &&
              (s.attempts[a].stage.Accepted? ==> s.attempts[a].ready == Some(s.attempts[a].answers[0]))
  {
    RunKeeps(run, s);
  }

  // Beyond 2^53 calls two requests share a key, and the second one erases the first from the table.
  lemma LoseRequest(n: nat) returns (run: seq<Event>, s: Client)
    requires n > MAX_EXACT
    ensures After(INIT, Step, run) == Some(s) && s.idCtr == n && !Conserved(s)
  {
    var a := MAX_EXACT - 1;
    run, s := ManyCalls(n);
    SharedKey();
    run, s := StoreOne(run, s, a);
    run, s := StoreOne(run, s, a + 1);
    assert s.inflight[MAX_EXACT] == a + 1;
    assert s.attempts[a].taken && s.attempts[a].answers == [] && !Carried(s, a) && !InTable(s, a);
  }

  lemma StoreOne(run: seq<Event>, s: Client, a: nat) returns (longer: seq<Event>, t: Client)
    requires After(INIT, Step, run) == Some(s) && s.loop.Select? && s.exec.Idle?
    requires a < |s.attempts| && s.attempts[a].stage.Offered? && s.attempts[a].key.Some?
    ensures After(INIT, Step, longer) == Some(t) && t.loop.Select? && t.exec.Idle? && t.idCtr == s.idCtr
    ensures t.inflight == s.inflight[s.attempts[a].key.value := a]
    ensures |t.attempts| == |s.attempts| && t.attempts[a].taken && t.attempts[a].answers == s.attempts[a].answers
    ensures t.attempts[a].key == s.attempts[a].key
    ensures forall b | 0 <= b < |s.attempts| && b != a :: t.attempts[b] == s.attempts[b]
  {
    longer, t := OneSend(run, s, a);
  }

  // Requests are conserved in every run with n calls if and only if n is at most 2^53.
  lemma ConservedIff(n: nat)
    ensures (forall run :: After(INIT, Step, run).Some? && After(INIT, Step, run).value.idCtr == n ==>
               Conserved(After(INIT, Step, run).value)) <==> n <= MAX_EXACT
  {
    if n <= MAX_EXACT {
      forall run | After(INIT, Step, run).Some? && After(INIT, Step, run).value.idCtr == n
        ensures Conserved(After(INIT, Step, run).value)
      {
        RunKeeps(run, After(INIT, Step, run).value);
      }
    } else {
      var run, s := LoseRequest(n);
    }
  }

  // n calls have been made, and nothing else has happened.
  ghost predicate Calling(n: nat, s: Client) {
    && s == INIT.(idCtr := n, attempts := s.attempts) && |s.attempts| == n
    && forall i | 0 <= i < n :: s.attempts[i] == Attempt(Some(ToFloat64(i + 1)), false, Offered, false, None, [], None)
  }

  lemma OneMoreCall(n: nat, s: Client)
    requires Calling(n, s)
    ensures Calling(n + 1, Call(s, false))
  {
  }

  lemma {:induction false} ManyCalls(n: nat) returns (run: seq<Event>, s: Client)
    ensures After(INIT, Step, run) == Some(s)
    ensures Calling(n, s)
  {
    if n == 0 {
      run, s := [], INIT;
    } else {
      var front, before := ManyCalls(n - 1);
      run, s := OneStep(front, before, Caller(NewCall(false)));
      OneMoreCall(n - 1, before);
    }
  }

  // ---------- reconnect ----------

  // A peer response is delivered only to an attempt that was stored in the epoch in which the response was looked up:
  // no cleanup lies between lookup and delivery, so a response never passes from a dropped attempt to its retry.
  lemma ResponsesStayInEpoch(run: seq<Event>, s: Client, a: nat, i: nat)
    requires Reaches(run, s) && a < |s.attempts| && i < |s.attempts[a].answers|
    requires s.attempts[a].answers[i].source.Peer?
    ensures s.attempts[a].epoch == Some(s.attempts[a].answers[i].source.lookupEpoch)
    ensures s.attempts[a].answers[i].key == s.attempts[a].key
    ensures s.attempts[a].answers[i].source.frameEpoch <= s.attempts[a].answers[i].source.lookupEpoch <= s.epoch
  {
    RunKeeps(run, s);
    assert AttemptOk(s, s.attempts[a]) && SourceOk(s.attempts[a].answers[i].source);
    assert AnswerOk(s.attempts[a], s.attempts[a].answers[i]);
  }

  // The only answers that come over an earlier connection are frames that were read before the cleanup and were
  // still in the hands of a reader, in the queue or in those of the executor. If there is none, then on every
  // continuation all new answers come from frames read since, so an attempt stored in this epoch gets only those of
  // its own connection.
  lemma OnlyPendingFramesCross(run: seq<Event>, more: seq<Event>, s: Client, t: Client, a: nat, i: nat)
    requires Reaches(run, s) && Reaches(run + more, t) && NoneOlder(s, s.epoch)
    requires a < |t.attempts| && i < |t.attempts[a].answers| && t.attempts[a].answers[i].source.Peer?
    requires a < |s.attempts| ==> i >= |s.attempts[a].answers|
    ensures t.attempts[a].answers[i].source.frameEpoch >= s.epoch
    ensures t.attempts[a].epoch == Some(s.epoch) ==> t.attempts[a].answers[i].source.frameEpoch == s.epoch
  {
    var inv := (u: Client) => NoneOlder(u, s.epoch) && s.epoch <= u.epoch && NewAnswersYoung(s, u, s.epoch);
    forall u, e | inv(u) && Step(u, e).Some? ensures inv(Step(u, e).value) {
      NoneOlderStays(u, e, s.epoch);
      YoungStays(s, u, e, s.epoch);
    }
    Invariant(s, Step, inv, more);
    Continue(INIT, Step, run, more);
    assert AnswerYoung(s, a, i, t.attempts[a].answers[i], s.epoch);
    ResponsesStayInEpoch(run + more, t, a, i);
  }

  ghost predicate AnswerYoung(s: Client, a: nat, i: nat, r: Response, e: nat) {
    r.source.Peer? && (a < |s.attempts| ==> i >= |s.attempts[a].answers|) ==> r.source.frameEpoch >= e
  }

  // What was answered since s was not answered with an older frame.
  ghost predicate NewAnswersYoung(s: Client, t: Client, e: nat) {
    forall a, i | 0 <= a < |t.attempts| && 0 <= i < |t.attempts[a].answers| ::
        AnswerYoung(s, a, i, t.attempts[a].answers[i], e)
  }

  lemma ResponseStaysYoung(s: Client, x: ResponseEvent, e: nat)
    requires NoneOlder(s, e) && e <= s.epoch && ResponseEnabled(s, x)
    ensures NoneOlder(ResponseNext(s, x), e) && ResponseNext(s, x).epoch == s.epoch
  {
  }

  lemma MessageStaysYoung(s: Client, x: MessageEvent, e: nat)
    requires NoneOlder(s, e) && MessageEnabled(s, x)
    ensures NoneOlder(MessageNext(s, x), e) && MessageNext(s, x).epoch == s.epoch
  {
  }

  lemma ReaderStaysYoung(s: Client, x: ReadEvent, e: nat)
    requires NoneOlder(s, e) && e <= s.epoch && ReadEnabled(s, x)
    ensures NoneOlder(ReadNext(s, x), e) && ReadNext(s, x).epoch == s.epoch
  {
  }

  lemma NoneOlderStays(s: Client, x: Event, e: nat)
    requires NoneOlder(s, e) && e <= s.epoch && Enabled(s, x)
    ensures NoneOlder(Next(s, x), e) && e <= Next(s, x).epoch
  {
    match x
    case Reader(c) => ReaderStaysYoung(s, c, e);
    case Caller(c) => CallerLeavesFrames(s, c);
    case Send(c) => SendLeavesFrames(s, c);
    case Cleanup(c) => CleanupLeavesFrames(s, c);
    case PeerResponse(c) => ResponseStaysYoung(s, c, e);
    case Stream(c) => MessageStaysYoung(s, c, e);
  }

  lemma YoungStays(s: Client, u: Client, x: Event, e: nat)
    requires NoneOlder(u, e) && NewAnswersYoung(s, u, e) && Enabled(u, x)
    ensures NewAnswersYoung(s, Next(u, x), e)
  {
    var t := Next(u, x);
    forall a, i | 0 <= a < |t.attempts| && 0 <= i < |t.attempts[a].answers|
      ensures AnswerYoung(s, a, i, t.attempts[a].answers[i], e)
    {
      AnswersGrow(u, x, e, a, i);
    }
  }

  // Only the executor gives peer answers, and those to the frame it holds.
  lemma ResponseAnswers(s: Client, x: ResponseEvent, e: nat, a: nat, i: nat)
    requires NoneOlder(s, e) && ResponseEnabled(s, x)
    requires a < |ResponseNext(s, x).attempts| && i < |ResponseNext(s, x).attempts[a].answers|
    ensures var r := ResponseNext(s, x).attempts[a].answers[i];
            KnownAnswer(s, a, i, r) || (r.source.Peer? && r.source.frameEpoch >= e)
  {
  }

  lemma AnswersGrow(s: Client, x: Event, e: nat, a: nat, i: nat)
    requires NoneOlder(s, e) && Enabled(s, x) && a < |Next(s, x).attempts| && i < |Next(s, x).attempts[a].answers|
    ensures var r := Next(s, x).attempts[a].answers[i];
            KnownAnswer(s, a, i, r) || (r.source.Peer? && r.source.frameEpoch >= e)
  {
    match x
    case Reader(c) =>
    case Caller(c) => CallerLeavesFrames(s, c);
    case Send(c) => SendLeavesFrames(s, c);
    case Cleanup(c) => CleanupLeavesFrames(s, c);
    case PeerResponse(c) => ResponseAnswers(s, c, e, a, i);
    case Stream(c) =>
  }

  // While the event loop is not leaving, what a reader holds is from the current connection: so of the frames of
  // earlier ones only those in the queue, or with the executor, can cross.
  lemma ReadersAreCurrent(run: seq<Event>, s: Client, i: nat)
    requires Reaches(run, s) && i < |s.reading| && !Leaving(s.loop)
    ensures s.reading[i].epoch == s.epoch && |s.reading| == 1 && !Reconnecting(s.loop)
  {
    RunKeeps(run, s);
  }

  // And such a frame does cross: whenever the executor's next frame answers a key, however old it is, and an attempt
  // with that key is waiting to be sent, there is a continuation in which the attempt is sent and gets this answer.
  lemma OldHeadReachesAttempt(run: seq<Event>, s: Client, a: nat) returns (more: seq<Event>, t: Client)
    requires Reaches(run, s) && s.loop.Select? && s.exec.Idle? && s.queue != [] && s.queue[0].content.Answered?
    requires a < |s.attempts| && s.attempts[a].stage.Offered? && !s.attempts[a].stream
    requires s.attempts[a].key == Some(s.queue[0].content.key) && s.attempts[a].answers == []
    ensures run <= more
    ensures Reaches(more, t) && a < |t.attempts| && t.attempts[a].key == s.attempts[a].key
    ensures t.attempts[a].epoch == Some(s.epoch)
    ensures t.attempts[a].answers ==
            [Response(s.attempts[a].key, Peer(s.queue[0].epoch, s.epoch, s.queue[0].content.temporary))]
    ensures |t.attempts| == |s.attempts| && forall b | 0 <= b < |s.attempts| && b != a :: t.attempts[b] == s.attempts[b]
  {
    more, t := OneSend(run, s, a);
    more, t := OneAnswer(more, t);
  }

  // A call is sent, and its answer is queued, but the connection is cleaned up and the call tries again first.
  lemma QueuedBeforeCleanup() returns (run: seq<Event>, s: Client)
    ensures After(INIT, Step, run) == Some(s) && s.loop.Select? && s.exec.Idle? && s.epoch == 1 && s.idCtr == 1
    ensures s.queue == [Frame(0, Answered(1, false, Absent))] && |s.attempts| == 2
    ensures s.attempts[0].key == s.attempts[1].key == Some(1)
    ensures s.attempts[1].stage.Offered? && !s.attempts[1].stream && s.attempts[1].answers == []
  {
    run, s := AnsweredBeforeCleanup();
    run, s := OneCleanup(run, s, 1);
    run, s := OneStep(run, s, Caller(Receive(0)));
    run, s := OneStep(run, s, Caller(Retry(0)));
  }

  lemma AnsweredBeforeCleanup() returns (run: seq<Event>, s: Client)
    ensures After(INIT, Step, run) == Some(s)
    ensures s == INIT.(idCtr := 1, attempts := s.attempts, inflight := map[1 := 0],
                       queue := [Frame(0, Answered(1, false, Absent))])
    ensures s.attempts == [Attempt(Some(1), false, Accepted, true, None, [], Some(0))]
  {
    ExactBelow(1);
    run, s := OneStep([], INIT, Caller(NewCall(false)));
    run, s := OneSend(run, s, 0);
    run, s := OneStep(run, s, Reader(Read(Answered(1, false, Absent))));
    run, s := OneStep(run, s, Reader(Queue(0)));
    assert s.reading == [];
    assert s.queue == [Frame(0, Answered(1, false, Absent))];
  }

  // In particular a frame read before a cleanup reaches the retry, which uses the same identifier.
  lemma OldFrameReachesRetry()
    ensures exists run, s: Client ::
              Reaches(run, s) && |s.attempts| == 2 && s.attempts[0].key == s.attempts[1].key &&
              s.attempts[1].epoch == Some(1) && s.attempts[1].answers == [Response(Some(1), Peer(0, 1, false))]
  {
    var run, s := QueuedBeforeCleanup();
    var more, t := OldHeadReachesAttempt(run, s, 1);
    assert Reaches(more, t);
  }

  // The executor handles the response at the head of its queue.
  lemma OneAnswer(run: seq<Event>, s: Client) returns (longer: seq<Event>, t: Client)
    requires After(INIT, Step, run) == Some(s) && s.exec.Idle? && s.queue != [] && s.queue[0].content.Answered?
    requires var key := s.queue[0].content.key;
             key in s.inflight && s.inflight[key] < |s.attempts| && !s.attempts[s.inflight[key]].stream
    ensures run <= longer && After(INIT, Step, longer) == Some(t) && t.idCtr == s.idCtr
    ensures var f := s.queue[0];
            t.attempts == Respond(s.attempts, s.inflight[f.content.key],
                                  Response(Some(f.content.key), Peer(f.epoch, s.epoch, f.content.temporary)))
  {
    longer, t := OneLookup(run, s);
    longer, t := OneStep(longer, t, PeerResponse(Check));
    longer, t := OneStep(longer, t, PeerResponse(AnswerPeer));
  }

  // Up to the second check, for a request without a channel.
  lemma OneLookup(run: seq<Event>, s: Client) returns (longer: seq<Event>, t: Client)
    requires After(INIT, Step, run) == Some(s) && s.exec.Idle? && s.queue != [] && s.queue[0].content.Answered?
    requires var key := s.queue[0].content.key;
             key in s.inflight && s.inflight[key] < |s.attempts| && !s.attempts[s.inflight[key]].stream
    ensures run <= longer && After(INIT, Step, longer) == Some(t)
    ensures var f := s.queue[0];
            t == s.(queue := s.queue[1..],
                    exec := Built(Reply(f.content.key, s.inflight[f.content.key], f.epoch, s.epoch,
                                        f.content.temporary, f.content.result, None)))
  {
    longer, t := OneStep(run, s, PeerResponse(Lookup));
    longer, t := OneStep(longer, t, PeerResponse(Build));
  }

  lemma OneCleanup(run: seq<Event>, s: Client, key: nat) returns (longer: seq<Event>, t: Client)
    requires After(INIT, Step, run) == Some(s) && s.loop.Select? && s.exec.Idle? && !s.failed
    requires s.inflight.Keys == {key} && s.chanHandlers == map[] && s.sinks == [] && s.reading == []
    ensures After(INIT, Step, longer) == Some(t)
    ensures t == s.(inflight := map[], epoch := s.epoch + 1,
                    attempts := Respond(s.attempts, s.inflight[key], Response(Some(key), ConnectionClosed)))
  {
    longer, t := OneDrop(run, s, key);
    longer, t := OneStep(longer, t, Cleanup(TakeSinks));
    assert t.sinks == [];
    longer, t := OneStep(longer, t, Cleanup(SweepDone));
  }

  lemma OneDrop(run: seq<Event>, s: Client, key: nat) returns (longer: seq<Event>, t: Client)
    requires After(INIT, Step, run) == Some(s) && s.loop.Select? && s.exec.Idle? && !s.failed
    requires s.inflight.Keys == {key} && s.reading == []
    ensures After(INIT, Step, longer) == Some(t)
    ensures t == s.(inflight := map[], epoch := s.epoch + 1, loop := DropSinks(false),
                    attempts := Respond(s.attempts, s.inflight[key], Response(Some(key), ConnectionClosed)))
  {
    longer, t := OneStep(run, s, Cleanup(BeginReconnect));
    longer, t := OneStep(longer, t, Cleanup(TakeRequests));
    longer, t := OneStep(longer, t, Cleanup(DrainOne(key)));
    assert t.loop.requests == map[];
    longer, t := OneStep(longer, t, Cleanup(DrainDone));
  }

  lemma OneSend(run: seq<Event>, s: Client, a: nat) returns (longer: seq<Event>, t: Client)
    requires After(INIT, Step, run) == Some(s) && s.loop.Select? && s.exec.Idle?
    requires a < |s.attempts| && s.attempts[a].stage.Offered? && s.attempts[a].key.Some?
    ensures run <= longer && After(INIT, Step, longer) == Some(t)
    ensures t == s.(inflight := s.inflight[s.attempts[a].key.value := a],
                    attempts := s.attempts[a := s.attempts[a].(stage := Accepted, taken := true,
                        epoch := Some(s.epoch))])
  {
    longer, t := OneStep(run, s, Send(Accept(a)));
    longer, t := OneStep(longer, t, Send(Store));
    longer, t := OneStep(longer, t, Send(WriteOk));
  }

  // A published sink belongs to a request of the current epoch, except while tryReconnect stands
  // between dropping the requests and dropping the sinks. So once a cleanup is over, no sink of a
  // removed attempt is left, however its response was interleaved with the cleanup.
  lemma NoStaleSink(run: seq<Event>, s: Client, channel: nat)
    requires Reaches(run, s) && channel in s.chanHandlers && !BetweenDrops(s.loop)
    ensures SinkEpoch(s, s.chanHandlers[channel], s.epoch)
  {
    RunKeeps(run, s);
  }

  // ---------- sinks ----------

  // A sink gets values, then at most one close, and nothing after it.
  lemma SinkClosedOnce(run: seq<Event>, s: Client, k: nat, i: nat)
    requires Reaches(run, s) && k < |s.sinks| && i < |s.sinks[k].ops| && s.sinks[k].ops[i].End?
    ensures i == |s.sinks[k].ops| - 1
  {
    RunKeeps(run, s);
    assert SinkOk(s, k, s.sinks[k]);
  }

  // The values a sink was given.
  function Items(ops: seq<SinkOp>): seq<int> {
    if ops == [] then []
    else Items(ops[..|ops| - 1]) + (if ops[|ops| - 1].Item? then [ops[|ops| - 1].value] else [])
  }

  // Event e takes the frame of a value for sink k from the queue.
  ghost predicate Addresses(s: Client, e: Event, k: nat) {
    && e == Stream(Message) && s.exec == Idle && s.queue != [] && s.queue[0].content.ChanValue?
    && s.queue[0].content.chid in s.chanHandlers && s.chanHandlers[s.queue[0].content.chid] == k
  }

  // The values of all frames that were handled while sink k was published under their channel ID, in order.
  ghost function Sent(run: seq<Event>, k: nat): seq<int> {
    if run == [] then []
    else
      var before, e := After(INIT, Step, run[..|run| - 1]), run[|run| - 1];
      Sent(run[..|run| - 1], k) +
      (if before.Some? && Addresses(before.value, e, k) then [before.value.queue[0].content.value] else [])
  }

  // The value the executor is about to give to sink k.
  function InHand(exec: Executor, k: nat): seq<int> {
    match exec
    case MessageFound(_, sink, value) => if sink == k then [value] else []
    case MessageLocked(sink, value) => if sink == k then [value] else []
    case _ => []
  }

  function Given(s: Client, k: nat): seq<int> {
    (if k < |s.sinks| then Items(s.sinks[k].ops) else []) + InHand(s.exec, k)
  }

  lemma ItemsSnoc(ops: seq<SinkOp>, op: SinkOp)
    ensures Items(ops + [op]) == Items(ops) + (if op.Item? then [op.value] else [])
  {
    assert (ops + [op])[..|ops|] == ops;
  }

  // The operations of a step on sink k: none, or one at the end.
  ghost predicate SameItems(s: Client, t: Client, k: nat) {
    Given(t, k) == Given(s, k)
  }

  lemma EmitItems(sinks: seq<Sink>, j: nat, op: SinkOp, k: nat)
    requires k < |sinks|
    ensures Items(Emit(sinks, j, op)[k].ops) == Items(sinks[k].ops) + (if j == k && op.Item? then [op.value] else [])
  {
    if j == k {
      ItemsSnoc(sinks[k].ops, op);
    } else {
      assert Items(sinks[k].ops) + [] == Items(sinks[k].ops);
    }
  }

  lemma CleanupGives(s: Client, e: CleanupEvent, k: nat)
    requires CleanupEnabled(s, e)
    ensures SameItems(s, CleanupNext(s, e), k)
  {
    if e.SweepOne? && k < |s.sinks| {
      EmitItems(s.sinks, s.loop.sinks[e.channel], End, k);
    }
  }

  lemma ResponseGives(s: Client, e: ResponseEvent, k: nat)
    requires ResponseEnabled(s, e)
    ensures SameItems(s, ResponseNext(s, e), k)
  {
    if e.Reject? && k < |s.sinks| {
      EmitItems(s.sinks, s.exec.sink, End, k);
    }
  }

  lemma MessageGives(s: Client, e: MessageEvent, k: nat)
    requires Sinks(s) && MessageEnabled(s, e)
    ensures Given(MessageNext(s, e), k) ==
            Given(s, k) + (if Addresses(s, Stream(e), k) then [s.queue[0].content.value] else [])
  {
    match e
    case Deliver => DeliverGives(s, k);
    case DeliverEnd => EndGives(s, k);
    case LockEnd => UnpublishGives(s, k);
    case _ =>
  }

  lemma EndGives(s: Client, k: nat)
    requires s.exec.EndLocked?
    ensures Given(MessageNext(s, DeliverEnd), k) == Given(s, k)
  {
    if k < |s.sinks| {
      EmitItems(s.sinks, s.exec.sink, End, k);
    }
  }

  lemma UnpublishGives(s: Client, k: nat)
    requires s.exec.EndFound?
    ensures Given(MessageNext(s, LockEnd), k) == Given(s, k)
  {
  }

  lemma DeliverGives(s: Client, k: nat)
    requires Sinks(s) && s.exec.MessageLocked?
    ensures Given(MessageNext(s, Deliver), k) == Given(s, k)
  {
    assert s.exec.sink < |s.sinks|;
    if k < |s.sinks| {
      EmitItems(s.sinks, s.exec.sink, SinkOp.Item(s.exec.value), k);
    }
  }

  lemma OthersGiveNothing(s: Client, t: Client, k: nat)
    requires t.sinks == s.sinks && t.exec == s.exec
    ensures Given(t, k) == Given(s, k)
  {
  }

  lemma StepGives(s: Client, e: Event, k: nat)
    requires Sinks(s) && Enabled(s, e)
    ensures Given(Next(s, e), k) == Given(s, k) + (if Addresses(s, e, k) then [s.queue[0].content.value] else [])
  {
    assert Given(s, k) + [] == Given(s, k);
    match e
    case Reader(c) => OthersGiveNothing(s, ReadNext(s, c), k);
    case Caller(c) => OthersGiveNothing(s, CallerNext(s, c), k);
    case Send(c) => OthersGiveNothing(s, SendNext(s, c), k);
    case Cleanup(c) => CleanupGives(s, c, k);
    case PeerResponse(c) => ResponseGives(s, c, k);
    case Stream(c) => MessageGives(s, c, k);
  }

  lemma SentSnoc(run: seq<Event>, s: Client, e: Event, k: nat)
    requires After(INIT, Step, run) == Some(s)
    ensures Sent(run + [e], k) == Sent(run, k) + (if Addresses(s, e, k) then [s.queue[0].content.value] else [])
  {
    assert (run + [e])[..|run + [e]| - 1] == run;
  }

  // Whatever happens in between, a sink is given exactly the values of the frames handled for it while it was
  // published, each once and in the order of the frames.
  lemma SinkGetsItsFrames(run: seq<Event>, s: Client, k: nat)
    requires Reaches(run, s)
    ensures Given(s, k) == Sent(run, k)
    ensures s.exec == Idle && k < |s.sinks| ==> Items(s.sinks[k].ops) == Sent(run, k)
  {
    var inv := (r: seq<Event>, u: Client) => u.idCtr <= MAX_EXACT ==> Inv(u) && Given(u, k) == Sent(r, k);
    InitInv();
    forall r, u, e | After(INIT, Step, r) == Some(u) && inv(r, u) && Step(u, e).Some?
      ensures inv(r + [e], Step(u, e).value)
    {
      SentSnoc(r, u, e, k);
      StepKeepsExact(u, e);
      IdCtrGrows(u, e);
      if u.idCtr <= MAX_EXACT {
        StepGives(u, e, k);
      }
    }
    HistoryInvariant(INIT, Step, inv, run);
  }

  ghost predicate IsClosed(sink: Sink) {
    sink.ops != [] && sink.ops[|sink.ops| - 1].End?
  }

  // Event e publishes a sink under a channel ID that is still in use.
  ghost predicate Reuses(s: Client, e: Event) {
    e == PeerResponse(Publish) && s.exec.Gate? && s.exec.reply.ChannelId() in s.chanHandlers
  }

  ghost predicate ReusedChannel(run: seq<Event>) {
    run != [] &&
    (ReusedChannel(run[..|run| - 1]) ||
     (After(INIT, Step, run[..|run| - 1]).Some? &&
      Reuses(After(INIT, Step, run[..|run| - 1]).value, run[|run| - 1])))
  }

  ghost predicate SomeOverwritten(s: Client) {
    exists k :: 0 <= k < |s.sinks| && s.sinks[k].place.Overwritten?
  }

  lemma PublishOverwrites(s: Client, r: Reply)
    requires Sinks(s) && s.exec == Gate(r)
    ensures SomeOverwritten(PublishSink(s, r)) <==> SomeOverwritten(s) || r.ChannelId() in s.chanHandlers
  {
    var t := PublishSink(s, r);
    assert s.sinks[r.sink.value].place.Private?;
    if r.ChannelId() in s.chanHandlers {
      assert t.sinks[s.chanHandlers[r.ChannelId()]].place.Overwritten?;
    } else if SomeOverwritten(s) {
      var k :| 0 <= k < |s.sinks| && s.sinks[k].place.Overwritten?;
      assert t.sinks[k].place.Overwritten?;
    }
  }

  // Sinks that are not overwritten by a step: same places, or new and private.
  ghost predicate SameOverwritten(s: Client, t: Client) {
    && |s.sinks| <= |t.sinks|
    && (forall k | 0 <= k < |s.sinks| :: t.sinks[k].place.Overwritten? <==> s.sinks[k].place.Overwritten?)
    && (forall k | |s.sinks| <= k < |t.sinks| :: !t.sinks[k].place.Overwritten?)
  }

  lemma OthersDoNotOverwrite(s: Client, e: Event)
    requires Sinks(s) && Enabled(s, e) && e != PeerResponse(Publish)
    ensures SameOverwritten(s, Next(s, e))
  {
    match e {
      case Reader(c) =>
      case Caller(c) =>
      case Send(c) =>
      case Cleanup(c) => CleanupDoesNotOverwrite(s, c);
      case PeerResponse(c) => ResponsesDoNotOverwrite(s, c);
      case Stream(c) => MessagesDoNotOverwrite(s, c);
    }
  }

  lemma CleanupDoesNotOverwrite(s: Client, e: CleanupEvent)
    requires SinksOk(s) && CleanupEnabled(s, e)
    ensures SameOverwritten(s, CleanupNext(s, e))
  {
  }

  lemma ResponsesDoNotOverwrite(s: Client, e: ResponseEvent)
    requires Sinks(s) && ResponseEnabled(s, e) && !e.Publish?
    ensures SameOverwritten(s, ResponseNext(s, e))
  {
    if e.Reject? {
      assert Owns(s.exec, s.exec.sink);
    }
  }

  lemma MessagesDoNotOverwrite(s: Client, e: MessageEvent)
    requires Sinks(s) && MessageEnabled(s, e)
    ensures SameOverwritten(s, MessageNext(s, e))
  {
    if e.DeliverEnd? {
      assert Owns(s.exec, s.exec.sink);
    }
  }

  lemma OverwrittenStep(s: Client, e: Event)
    requires Sinks(s) && Enabled(s, e)
    ensures SomeOverwritten(Next(s, e)) <==> SomeOverwritten(s) || Reuses(s, e)
  {
    if e == PeerResponse(Publish) {
      PublishOverwrites(s, s.exec.reply);
    } else {
      OthersDoNotOverwrite(s, e);
    }
  }

  lemma ReusedSnoc(run: seq<Event>, s: Client, e: Event)
    requires After(INIT, Step, run) == Some(s)
    ensures ReusedChannel(run + [e]) <==> ReusedChannel(run) || Reuses(s, e)
  {
    assert (run + [e])[..|run + [e]| - 1] == run;
  }

  lemma OverwrittenIffReused(run: seq<Event>, s: Client)
    requires Reaches(run, s)
    ensures SomeOverwritten(s) <==> ReusedChannel(run)
  {
    var inv := (r: seq<Event>, u: Client) =>
      u.idCtr <= MAX_EXACT ==> Inv(u) && (SomeOverwritten(u) <==> ReusedChannel(r));
    InitInv();
    forall r, u, e | After(INIT, Step, r) == Some(u) && inv(r, u) && Step(u, e).Some?
      ensures inv(r + [e], Step(u, e).value)
    {
      ReusedSnoc(r, u, e);
      StepKeepsExact(u, e);
      IdCtrGrows(u, e);
      if u.idCtr <= MAX_EXACT {
        OverwrittenStep(u, e);
      }
    }
    HistoryInvariant(INIT, Step, inv, run);
  }

  // After teardown, once the executor is idle, every sink ever built is closed: exactly when the
  // peer never reused a channel ID that was still open.
  lemma AllSinksClosedIff(run: seq<Event>, s: Client)
    requires Reaches(run, s) && s.Exited() && s.exec.Idle?
    ensures (forall k | 0 <= k < |s.sinks| :: IsClosed(s.sinks[k])) <==> !ReusedChannel(run)
  {
    RunKeeps(run, s);
    OverwrittenIffReused(run, s);
    forall k | 0 <= k < |s.sinks| ensures IsClosed(s.sinks[k]) <==> !s.sinks[k].place.Overwritten? {
      assert SinkOk(s, k, s.sinks[k]);
    }
  }

  // At every moment, as long as the peer has not reused an open channel ID and the executor is idle, each sink ever
  // built is closed, or closeChans is about to close it, or it is the entry of the table under its own channel ID.
  lemma SinksPublishedOrClosed(run: seq<Event>, s: Client, k: nat)
    requires Reaches(run, s) && s.exec.Idle? && k < |s.sinks| && !ReusedChannel(run)
    ensures || IsClosed(s.sinks[k])
            || (s.sinks[k].place.Sweeping? && s.loop.Sweep? && EntryIs(s.loop.sinks, s.sinks[k].place.channel, k))
            || (s.sinks[k].place.Published? && EntryIs(s.chanHandlers, s.sinks[k].place.channel, k))
  {
    RunKeeps(run, s);
    OverwrittenIffReused(run, s);
    assert SinkOk(s, k, s.sinks[k]);
  }

  ghost predicate EntryIs(table: map<nat, nat>, channel: nat, k: nat) {
    channel in table && table[channel] == k
  }

  // A peer that reuses an open channel ID leaves a sink that nothing will ever close.
  lemma ReusedChannelLeaksSink(run: seq<Event>, s: Client, k: nat)
    requires Reaches(run, s) && k < |s.sinks| && s.sinks[k].place.Overwritten?
    ensures !IsClosed(s.sinks[k])
    ensures !Owns(s.exec, k) && forall c | c in s.chanHandlers :: s.chanHandlers[c] != k
    ensures s.loop.Sweep? ==> forall c | c in s.loop.sinks :: s.loop.sinks[c] != k
  {
    RunKeeps(run, s);
    assert SinkOk(s, k, s.sinks[k]);
  }

  // ---------- progress ----------

  // The next step of a frame executor that is at work.
  function NextOf(s: Client): Event {
    match s.exec
    case Idle => PeerResponse(Lookup)
    case Found(r) => PeerResponse(if IsStream(s, r.attempt) && r.result.Garbled? then BadChannelId else Build)
    case Built(_) => PeerResponse(Check)
    case Checked(r) => PeerResponse(if r.sink.Some? then Enter else AnswerPeer)
    case Gate(_) => PeerResponse(Publish)
    case Shown(_) => PeerResponse(AnswerPeer)
    case Replied(_) => PeerResponse(Delete)
    case Rejecting(_) => PeerResponse(Reject)
    case MessageFound(_, _, _) => Stream(LockMessage)
    case MessageLocked(_, _) => Stream(Deliver)
    case EndFound(_, _) => Stream(LockEnd)
    case EndLocked(_) => Stream(DeliverEnd)
  }

  // A step of the event loop that continues what it has begun.
  predicate LoopGoesOn(e: Event) {
    match e
    case Send(c) => !c.Accept?
    case Cleanup(c) => !c.BeginReconnect? && !c.BeginExit? && !c.Fail?
    case _ => false
  }

  lemma SendGoesOn(s: Client)
    requires s.loop.Taken? || s.loop.Stored? || s.loop.Unsent? || s.loop.Removed?
    ensures s.InflightHeld() || exists e :: LoopGoesOn(Send(e)) && SendEnabled(s, e)
  {
    var e := match s.loop
             case Taken(_) => Store
             case Stored(_) => WriteOk
             case Unsent(_) => Unstore
             case _ => AnswerUnsent;
    assert LoopGoesOn(Send(e)) && (s.InflightHeld() || SendEnabled(s, e));
  }

  lemma CleanupGoesOn(s: Client)
    requires s.loop.DropRequests? || s.loop.Draining? || s.loop.DropSinks? || s.loop.Sweep?
    ensures !s.exec.Idle? || exists e :: LoopGoesOn(Cleanup(e)) && CleanupEnabled(s, e)
  {
    var e := TakeRequests;
    match s.loop {
      case Draining(requests, _) =>
        e := DrainDone;
        if key :| key in requests {
          e := DrainOne(key);
        }
      case DropSinks(_) => e := TakeSinks;
      case Sweep(sinks, _) =>
        e := SweepDone;
        if channel :| channel in sinks {
          e := SweepOne(channel);
        }
      case _ =>
    }
    assert LoopGoesOn(Cleanup(e)) && (!s.exec.Idle? || CleanupEnabled(s, e));
  }

  // How many steps the executor is from being idle, at most.
  function Work(exec: Executor): nat {
    match exec
    case Idle => 0
    case Found(_) => 7
    case Built(_) => 6
    case Checked(_) => 5
    case Gate(_) => 4
    case Shown(_) => 3
    case Replied(_) => 2
    case Rejecting(_) => 1
    case MessageFound(_, _, _) => 2
    case MessageLocked(_, _) => 1
    case EndFound(_, _) => 2
    case EndLocked(_) => 1
  }

  lemma ExecutorGoesOn(s: Client)
    requires HoldingOk(s) && !s.exec.Idle?
    ensures Enabled(s, NextOf(s)) && Work(Next(s, NextOf(s)).exec) < Work(s.exec)
  {
  }

  // How far the event loop is from its select, or from having exited: the stage it is in, and how much is left to
  // do there.
  function LoopStage(l: Loop): nat {
    match l
    case Select => 0
    case Gone => 0
    case Taken(_) => 4
    case Stored(_) => 3
    case Unsent(_) => 2
    case Removed(_) => 1
    case DropRequests(final) => if final then 2 else 8
    case Draining(_, final) => if final then 1 else 7
    case DropSinks(final) => if final then 4 else 6
    case Sweep(_, final) => if final then 3 else 5
  }

  function LoopLeft(l: Loop): nat {
    match l
    case Draining(requests, _) => |requests|
    case Sweep(sinks, _) => |sinks|
    case _ => 0
  }

  predicate Nearer(before: Loop, after: Loop) {
    LoopStage(after) < LoopStage(before) ||
    (LoopStage(after) == LoopStage(before) && LoopLeft(after) < LoopLeft(before))
  }

  lemma Smaller(table: map<nat, nat>, key: nat)
    requires key in table
    ensures |table - {key}| < |table|
  {
    assert (table - {key}).Keys == table.Keys - {key};
  }

  // Every step that continues what the event loop has begun brings it nearer to the end of it, or it begins the
  // teardown.
  lemma LoopAdvances(s: Client, e: Event)
    requires LoopGoesOn(e) && Enabled(s, e)
    ensures Nearer(s.loop, Next(s, e).loop)
  {
    match e
    case Send(c) => SendAdvances(s, c);
    case Cleanup(c) => CleanupAdvances(s, c);
  }

  lemma SendAdvances(s: Client, e: SendEvent)
    requires SendEnabled(s, e) && !e.Accept?
    ensures Nearer(s.loop, SendNext(s, e).loop)
  {
  }

  lemma CleanupAdvances(s: Client, e: CleanupEvent)
    requires CleanupEnabled(s, e) && !e.BeginReconnect? && !e.BeginExit? && !e.Fail?
    ensures Nearer(s.loop, CleanupNext(s, e).loop)
  {
    match e
    case TakeRequests => assert CleanupNext(s, e).loop.Draining? && CleanupNext(s, e).loop.final == s.loop.final;
    case DrainOne(key) => DrainAdvances(s.loop, CleanupNext(s, e).loop, key);
    case DrainDone =>
    case TakeSinks => assert CleanupNext(s, e).loop.Sweep? && CleanupNext(s, e).loop.final == s.loop.final;
    case SweepOne(channel) => SweepAdvances(s.loop, CleanupNext(s, e).loop, channel);
    case SweepDone =>
  }

  lemma DrainAdvances(l: Loop, m: Loop, key: nat)
    requires l.Draining? && key in l.requests && m == Draining(l.requests - {key}, l.final)
    ensures Nearer(l, m)
  {
    Smaller(l.requests, key);
  }

  lemma SweepAdvances(l: Loop, m: Loop, channel: nat)
    requires l.Sweep? && channel in l.sinks && m == Sweep(l.sinks - {channel}, l.final)
    ensures Nearer(l, m)
  {
    Smaller(l.sinks, channel);
  }

  // An event loop in the middle of a request, a reconnect or the teardown can go on, or the frame executor, whose
  // locks it may be waiting for, can, and is then closer to being idle. So no such wait is for good, and every
  // teardown can be completed.
  lemma LoopNeverStuck(run: seq<Event>, s: Client)
    requires Reaches(run, s) && !s.loop.Select? && !s.Exited()
    ensures s.exec.Idle? ==> exists e :: LoopGoesOn(e) && Enabled(s, e) && Nearer(s.loop, Next(s, e).loop)
    ensures !s.exec.Idle? ==> Enabled(s, NextOf(s)) && Work(Next(s, NextOf(s)).exec) < Work(s.exec)
  {
    if !s.exec.Idle? {
      RunKeeps(run, s);
      ExecutorGoesOn(s);
    } else if s.loop.Taken? || s.loop.Stored? || s.loop.Unsent? || s.loop.Removed? {
      SendGoesOn(s);
      var e :| LoopGoesOn(Send(e)) && SendEnabled(s, e);
      assert Enabled(s, Send(e));
      LoopAdvances(s, Send(e));
    } else {
      CleanupGoesOn(s);
      var e :| LoopGoesOn(Cleanup(e)) && CleanupEnabled(s, e);
      assert Enabled(s, Cleanup(e));
      LoopAdvances(s, Cleanup(e));
    }
  }

  // After exit every caller that still waits can return: with its answer if the event loop took the
  // request, and with an exit error if it did not.
  lemma ExitReleasesCallers(run: seq<Event>, s: Client, a: nat)
    requires Reaches(run, s) && s.Exited() && a < |s.attempts| && !s.attempts[a].stage.Returned?
    ensures CallerEnabled(s, Receive(a)) <==> s.attempts[a].taken
    ensures CallerEnabled(s, GiveUp(a)) <==> !s.attempts[a].taken
  {
    RunKeeps(run, s);
    ExitAnswersEverything(run, s, a);
    assert AttemptOk(s, s.attempts[a]);
  }

  // ---------- teardown ----------

  // closeChans of the teardown has taken the sinks; and closeInFlight the requests.
  ghost predicate SinksDropped(l: Loop) {
    l.Gone? || ((l.Sweep? || l.DropRequests? || l.Draining?) && l.final)
  }

  ghost predicate RequestsDropped(l: Loop) {
    l.Gone? || (l.Draining? && l.final)
  }

  // From closeChans of the teardown on no sink is published, and from its closeInFlight on no request is stored,
  // on every continuation, although the executor and the callers keep running.
  lemma TeardownStep(s: Client, e: Event)
    requires Enabled(s, e)
    ensures SinksDropped(s.loop) ==> SinksDropped(Next(s, e).loop)
    ensures RequestsDropped(s.loop) ==> RequestsDropped(Next(s, e).loop)
  {
    match e
    case Reader(c) =>
    case Caller(c) =>
    case Send(c) =>
    case Cleanup(c) =>
    case PeerResponse(c) =>
    case Stream(c) =>
  }

  lemma TeardownStays(more: seq<Event>, s: Client)
    requires SinksDropped(s.loop) && After(s, Step, more).Some?
    ensures SinksDropped(After(s, Step, more).value.loop)
    ensures RequestsDropped(s.loop) ==> RequestsDropped(After(s, Step, more).value.loop)
  {
    var inv := (u: Client) => SinksDropped(u.loop) && (RequestsDropped(s.loop) ==> RequestsDropped(u.loop));
    forall u, e | inv(u) && Step(u, e).Some? ensures inv(Step(u, e).value) {
      TeardownStep(u, e);
    }
    Invariant(s, Step, inv, more);
  }

  lemma TeardownIsFinal(run: seq<Event>, more: seq<Event>, s: Client, t: Client)
    requires Reaches(run, s) && Reaches(run + more, t)
    requires SinksDropped(s.loop)
    ensures SinksDropped(t.loop) && t.failed && t.chanHandlers == map[]
    ensures RequestsDropped(s.loop) ==> RequestsDropped(t.loop) && t.inflight == map[]
  {
    Continue(INIT, Step, run, more);
    TeardownStays(more, s);
    RunKeeps(run + more, t);
  }
}
