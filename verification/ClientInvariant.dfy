/** What every step of the client half keeps, as long as request identifiers stay exact. */
module ClientInvariant {
  import opened Options
  import opened RequestIds
  import opened ClientProtocol

  function First(answers: seq<Response>): Option<Response> {
    if answers == [] then None else Some(answers[0])
  }

  // ---------- requests ----------

  ghost predicate AnswerOk(t: Attempt, r: Response) {
    r.key == t.key && (r.source.Peer? ==> t.epoch == Some(r.source.lookupEpoch))
  }

  ghost predicate AttemptOk(s: Client, t: Attempt) {
    && (t.key.Some? ==> t.key.value <= s.idCtr)
    && (t.epoch.Some? ==> t.epoch.value <= s.epoch)
    && (forall i | 0 <= i < |t.answers| :: AnswerOk(t, t.answers[i]))
    && match t.stage
       case Offered => !t.taken && t.answers == [] && t.ready == None && t.epoch == None
       case Accepted => t.taken && t.ready == First(t.answers)
       case Returned(Answer(r)) => t.taken && First(t.answers) == Some(r)
       case Returned(ExitError) => !t.taken && t.answers == []
  }

  ghost predicate AttemptsOk(s: Client) {
    forall a | 0 <= a < |s.attempts| :: AttemptOk(s, s.attempts[a])
  }

  ghost predicate HasAnswer(t: Attempt) {
    t.stage.Returned? && t.stage.outcome.Answer?
  }

  // A call makes one attempt at a time.
  ghost predicate OneAtATime(s: Client) {
    forall a, b | 0 <= a < b < |s.attempts| && s.attempts[a].key.Some? && s.attempts[a].key == s.attempts[b].key ::
      HasAnswer(s.attempts[a])
  }

  ghost predicate EntryOk(s: Client, key: nat, a: nat) {
    && a < |s.attempts|
    && s.attempts[a].key == Some(key)
    && s.attempts[a].taken
    && s.attempts[a].epoch == Some(s.epoch)
    && (s.attempts[a].answers == [] || (s.exec.Replied? && s.exec.reply.attempt == a))
  }

  ghost predicate InflightOk(s: Client) {
    forall key | key in s.inflight :: EntryOk(s, key, s.inflight[key])
  }

  // The step of the event loop that is moving attempt a.
  ghost predicate Carried(s: Client, a: nat)
    requires a < |s.attempts|
  {
    match s.loop
    case Taken(b) => a == b
    case Stored(b) => a == b && s.attempts[a].key.None?
    case Unsent(b) => a == b && s.attempts[a].key.None?
    case Removed(b) => a == b
    case Draining(requests, _) => s.attempts[a].key.Some? && s.attempts[a].key.value in requests &&
                                  requests[s.attempts[a].key.value] == a
    case _ => false
  }

  ghost predicate InTable(s: Client, a: nat)
    requires a < |s.attempts|
  {
    s.attempts[a].key.Some? && s.attempts[a].key.value in s.inflight && s.inflight[s.attempts[a].key.value] == a
  }

  // Every request the event loop took and nobody answered is in the table or in the loop's hands.
  ghost predicate Conserved(s: Client) {
    forall a: nat | a < |s.attempts| && s.attempts[a].taken && s.attempts[a].answers == [] ::
      Carried(s, a) || InTable(s, a)
  }

  // No newer attempt of the same call has been taken.
  ghost predicate Newest(s: Client, a: nat) {
    && a < |s.attempts|
    && s.attempts[a].taken
    && forall b | a < b < |s.attempts| && s.attempts[a].key.Some? && s.attempts[b].key == s.attempts[a].key ::
         !s.attempts[b].taken
  }

  ghost predicate LoopRequests(s: Client) {
    match s.loop
    case Select => true
    case Taken(a) => Newest(s, a) && s.attempts[a].answers == [] && s.attempts[a].epoch.None?
    case Stored(a) => Newest(s, a)
    case Unsent(a) => Newest(s, a)
    case Removed(a) => Newest(s, a) && !InTable(s, a)
    case DropRequests(_) => true
    case Draining(requests, _) =>
      && s.inflight == map[]
      && forall key | key in requests ::
           && requests[key] < |s.attempts|
           && s.attempts[requests[key]].key == Some(key)
           && s.attempts[requests[key]].taken
    case DropSinks(final) => final || s.inflight == map[]
    case Sweep(_, final) => final || s.inflight == map[]
    case Gone => s.inflight == map[]
  }

  // ---------- the frame executor ----------

  ghost predicate ReplyOk(s: Client, r: Reply) {
    && r.attempt < |s.attempts|
    && s.attempts[r.attempt].key == Some(r.key)
    && s.attempts[r.attempt].taken
    && s.attempts[r.attempt].epoch == Some(r.lookupEpoch)
  }

  ghost predicate Current(s: Client, r: Reply) {
    r.key in s.inflight && s.inflight[r.key] == r.attempt
  }

  ghost predicate Replying(s: Client) {
    && (s.exec.Found? || s.exec.Built? || s.InflightHeld() ==> ReplyOk(s, s.exec.reply))
    && (s.InflightHeld() ==> Current(s, s.exec.reply))
    && (s.exec.Replied? ==> s.attempts[s.exec.reply.attempt].answers != [])
  }

  ghost predicate Requests(s: Client) {
    && AttemptsOk(s)
    && OneAtATime(s)
    && InflightOk(s)
    && Conserved(s)
    && LoopRequests(s)
    && Replying(s)
  }

  // ---------- sinks ----------

  // Values first, then at most one close and nothing after it.
  ghost predicate OpsOk(ops: seq<SinkOp>, closed: bool) {
    && (forall i | 0 <= i < |ops| - 1 :: ops[i].Item?)
    && (closed <==> ops != [] && ops[|ops| - 1].End?)
  }

  // The sink that only the frame executor can reach.
  ghost predicate Owns(e: Executor, k: nat) {
    match e
    case Built(r) => r.sink == Some(k)
    case Checked(r) => r.sink == Some(k)
    case Gate(r) => r.sink == Some(k)
    case Rejecting(j) => j == k
    case EndLocked(j) => j == k
    case _ => false
  }

  ghost predicate SinkOk(s: Client, k: nat, sink: Sink) {
    && OpsOk(sink.ops, sink.place.Closed?)
    && match sink.place
       case Private => Owns(s.exec, k)
       case Published(c) => c in s.chanHandlers && s.chanHandlers[c] == k
       case Sweeping(c) => s.loop.Sweep? && c in s.loop.sinks && s.loop.sinks[c] == k
       case Closed => true
       case Overwritten => true
  }

  ghost predicate SinksOk(s: Client) {
    && (forall k | 0 <= k < |s.sinks| :: SinkOk(s, k, s.sinks[k]))
    && (forall k: nat | Owns(s.exec, k) :: k < |s.sinks| && s.sinks[k].place.Private?)
    && (forall c | c in s.chanHandlers ::
          s.chanHandlers[c] < |s.sinks| && s.sinks[s.chanHandlers[c]].place == Published(c))
    && (s.loop.Sweep? ==> forall c | c in s.loop.sinks ::
          s.loop.sinks[c] < |s.sinks| && s.sinks[s.loop.sinks[c]].place == Sweeping(c))
  }

  // What the frame executor knows about the sink it works on.
  ghost predicate HoldingOk(s: Client) {
    && (s.exec.Found? ==> s.exec.reply.sink.None?)
    && (s.exec.Gate? ==> s.exec.reply.sink.Some?)
    && (s.exec.Built? || s.exec.Checked? || s.exec.Gate? ==>
          s.exec.reply.sink.Some? ==>
            && s.exec.reply.sink.value < |s.sinks|
            && s.sinks[s.exec.reply.sink.value].attempt == s.exec.reply.attempt)
    && (s.exec.MessageFound? || s.exec.EndFound? ==>
          s.exec.channel in s.chanHandlers && s.chanHandlers[s.exec.channel] == s.exec.sink)
    && (s.exec.MessageLocked? ==>
          && s.exec.sink < |s.sinks|
          && (s.sinks[s.exec.sink].place.Published? || s.sinks[s.exec.sink].place.Sweeping?))
  }

  // No sink is published and none will be.
  ghost predicate Torn(s: Client) {
    s.failed && s.chanHandlers == map[] && !s.exec.Gate?
  }

  ghost predicate Teardown(s: Client) {
    match s.loop
    case DropRequests(final) => final ==> Torn(s)
    case Draining(_, final) => final ==> Torn(s)
    case DropSinks(final) => final ==> s.failed
    case Sweep(_, final) => final ==> Torn(s)
    case Gone => Torn(s)
    case _ => true
  }

  ghost predicate Sinks(s: Client) {
    SinksOk(s) && HoldingOk(s) && Teardown(s)
  }

  // ---------- sinks and requests together ----------

  // The stretch of tryReconnect in which sinks of dropped requests may still be published.
  ghost predicate BetweenDrops(l: Loop) {
    (l.Draining? && !l.final) || (l.DropSinks? && !l.final)
  }

  ghost predicate SinkEpoch(s: Client, k: nat, epoch: nat) {
    k < |s.sinks| && s.sinks[k].attempt < |s.attempts| && s.attempts[s.sinks[k].attempt].epoch == Some(epoch)
  }

  // Outside that stretch every published sink belongs to a request of the current epoch.
  ghost predicate FreshSinks(s: Client) {
    BetweenDrops(s.loop) || forall c | c in s.chanHandlers :: SinkEpoch(s, s.chanHandlers[c], s.epoch)
  }

  // ---------- frames ----------

  // No frame is older than epoch e: not in the hands of a reader, in the queue, or in those of the executor.
  ghost predicate NoneOlder(s: Client, e: nat) {
    && (forall i | 0 <= i < |s.reading| :: s.reading[i].epoch >= e)
    && (forall i | 0 <= i < |s.queue| :: s.queue[i].epoch >= e)
    && (Responding(s.exec) ==> s.exec.reply.frameEpoch >= e)
  }

  // The executor works on a response.
  predicate Responding(exec: Executor) {
    exec.Found? || exec.Built? || exec.Checked? || exec.Gate? || exec.Shown? || exec.Replied?
  }

  // At most one reader holds a frame, and as long as the event loop is not leaving, one of the current connection.
  ghost predicate ReadersOk(s: Client) {
    && |s.reading| <= 1
    && (Reconnecting(s.loop) ==> s.reading == [])
    && (forall i | 0 <= i < |s.reading| ::
          s.reading[i].epoch <= s.epoch && (!Leaving(s.loop) ==> s.reading[i].epoch == s.epoch))
  }

  // The teardown has begun.
  predicate Leaving(l: Loop) {
    l.Gone? || ((l.DropRequests? || l.Draining? || l.DropSinks? || l.Sweep?) && l.final)
  }

  // No frame comes from the future, and no answer from a frame read after it was looked up.
  ghost predicate FramesOk(s: Client) {
    && ReadersOk(s)
    && (forall i | 0 <= i < |s.queue| :: s.queue[i].epoch <= s.epoch)
    && (Responding(s.exec) ==> s.exec.reply.frameEpoch <= s.exec.reply.lookupEpoch)
    && (forall a, i | 0 <= a < |s.attempts| && 0 <= i < |s.attempts[a].answers| ::
        SourceOk(s.attempts[a].answers[i].source))
  }

  ghost predicate SourceOk(source: Source) {
    source.Peer? ==> source.frameEpoch <= source.lookupEpoch
  }

  ghost predicate Inv(s: Client) {
    Requests(s) && Sinks(s) && FreshSinks(s) && FramesOk(s)
  }

  lemma InitInv()
    ensures Inv(INIT)
  {
  }

  // ---------- requests: what each step keeps ----------

  lemma AppendKeeps(s: Client, idCtr: nat, t: Attempt)
    requires Requests(s) && s.idCtr <= idCtr
    requires AttemptOk(s.(idCtr := idCtr), t) && t.stage.Offered?
    requires forall a | 0 <= a < |s.attempts| && t.key.Some? && s.attempts[a].key == t.key :: HasAnswer(s.attempts[a])
    ensures Requests(s.(idCtr := idCtr, attempts := s.attempts + [t]))
  {
    AppendKeepsAttempts(s, idCtr, t);
    AppendKeepsTable(s, idCtr, t);
  }

  lemma AppendKeepsAttempts(s: Client, idCtr: nat, t: Attempt)
    requires AttemptsOk(s) && OneAtATime(s) && s.idCtr <= idCtr && AttemptOk(s.(idCtr := idCtr), t)
    requires forall a | 0 <= a < |s.attempts| && t.key.Some? && s.attempts[a].key == t.key :: HasAnswer(s.attempts[a])
    ensures AttemptsOk(s.(idCtr := idCtr, attempts := s.attempts + [t]))
    ensures OneAtATime(s.(idCtr := idCtr, attempts := s.attempts + [t]))
  {
    var u := s.(idCtr := idCtr, attempts := s.attempts + [t]);
    forall a | 0 <= a < |u.attempts| ensures AttemptOk(u, u.attempts[a]) {
      assert a < |s.attempts| ==> AttemptOk(s, s.attempts[a]);
    }
  }

  lemma AppendKeepsTable(s: Client, idCtr: nat, t: Attempt)
    requires InflightOk(s) && Conserved(s) && LoopRequests(s) && Replying(s) && !t.taken
    ensures InflightOk(s.(idCtr := idCtr, attempts := s.attempts + [t]))
    ensures Conserved(s.(idCtr := idCtr, attempts := s.attempts + [t]))
    ensures LoopRequests(s.(idCtr := idCtr, attempts := s.attempts + [t]))
    ensures Replying(s.(idCtr := idCtr, attempts := s.attempts + [t]))
  {
    var u := s.(idCtr := idCtr, attempts := s.attempts + [t]);
    forall a: nat | a < |u.attempts| && u.attempts[a].taken && u.attempts[a].answers == []
      ensures Carried(u, a) || InTable(u, a)
    {
      assert Carried(s, a) || InTable(s, a);
    }
  }

  lemma NewKeyUnused(s: Client, a: nat)
    requires AttemptsOk(s) && a < |s.attempts|
    ensures s.attempts[a].key != Some(s.idCtr + 1)
  {
  }

  lemma CallKeeps(s: Client, stream: bool)
    requires Requests(s) && s.idCtr + 1 <= MAX_EXACT
    ensures Requests(Call(s, stream))
  {
    var t := Attempt(Some(s.idCtr + 1), stream, Offered, false, None, [], None);
    forall a: nat | a < |s.attempts| ensures s.attempts[a].key != t.key {
      NewKeyUnused(s, a);
    }
    AppendKeeps(s, s.idCtr + 1, t);
    assert Call(s, stream) == s.(idCtr := s.idCtr + 1, attempts := s.attempts + [t]) by {
      ExactBelow(s.idCtr + 1);
    }
  }

  lemma TryAgainKeeps(s: Client, a: nat)
    requires Requests(s) && MayRetry(s, a)
    ensures Requests(TryAgain(s, a))
  {
    AppendKeeps(s, s.idCtr, Attempt(s.attempts[a].key, s.attempts[a].stream, Offered, false, None, [], None));
  }

  lemma ReceiveKeeps(s: Client, a: nat)
    requires Requests(s) && a < |s.attempts| && s.attempts[a].stage.Accepted? && s.attempts[a].ready.Some?
    ensures Requests(ReceiveAnswer(s, a))
  {
    assert AttemptOk(s, s.attempts[a]);
    ReceiveKeepsAttempts(s, a);
    SameTable(s, ReceiveAnswer(s, a));
  }

  lemma ReceiveKeepsAttempts(s: Client, a: nat)
    requires AttemptsOk(s) && OneAtATime(s)
    requires a < |s.attempts| && s.attempts[a].stage.Accepted? && s.attempts[a].ready.Some?
    ensures AttemptsOk(ReceiveAnswer(s, a)) && OneAtATime(ReceiveAnswer(s, a))
  {
    var t := ReceiveAnswer(s, a);
    forall b | 0 <= b < |t.attempts| ensures AttemptOk(t, t.attempts[b]) {
      assert AttemptOk(s, s.attempts[b]);
    }
  }

  // Nothing but the callers' view of the attempts changes.
  lemma SameTable(s: Client, t: Client)
    requires InflightOk(s) && Conserved(s) && LoopRequests(s) && Replying(s)
    requires t == s.(attempts := t.attempts) && |t.attempts| == |s.attempts|
    requires forall a | 0 <= a < |s.attempts| ::
               && t.attempts[a].key == s.attempts[a].key && t.attempts[a].taken == s.attempts[a].taken
               && t.attempts[a].epoch == s.attempts[a].epoch && t.attempts[a].answers == s.attempts[a].answers
    ensures InflightOk(t) && Conserved(t) && LoopRequests(t) && Replying(t)
  {
    forall a: nat | a < |t.attempts| && t.attempts[a].taken && t.attempts[a].answers == []
      ensures Carried(t, a) || InTable(t, a)
    {
      assert Carried(s, a) || InTable(s, a);
    }
  }

  lemma GiveUpKeeps(s: Client, a: nat)
    requires Requests(s) && a < |s.attempts| && s.Exited()
    requires s.attempts[a].stage.Offered? || (s.attempts[a].stage.Accepted? && s.attempts[a].ready.None?)
    ensures Requests(GiveUpAtExit(s, a)) && s.attempts[a].stage.Offered?
  {
  }

  lemma TakeKeeps(s: Client, a: nat)
    requires Requests(s) && s.loop.Select? && a < |s.attempts| && s.attempts[a].stage.Offered?
    ensures Requests(TakeRequest(s, a))
  {
  }

  // Answering a request that is not in the table, by a step of the event loop.
  lemma RespondKeeps(s: Client, a: nat, r: Response, loop: Loop)
    requires Requests(s) && a < |s.attempts| && s.attempts[a].taken && !InTable(s, a)
    requires r.key == s.attempts[a].key && !r.source.Peer?
    requires loop.Select? || (loop.Draining? && LoopRequests(s.(loop := loop)))
    requires forall b: nat | b < |s.attempts| && b != a && Carried(s, b) :: Carried(s.(loop := loop), b)
    ensures Requests(s.(attempts := Respond(s.attempts, a, r), loop := loop))
  {
    RespondKeepsAttempts(s, a, r, loop);
    RespondKeepsTable(s, a, r, loop);
  }

  lemma RespondKeepsAttempts(s: Client, a: nat, r: Response, loop: Loop)
    requires AttemptsOk(s) && OneAtATime(s)
    requires a < |s.attempts| && s.attempts[a].taken && r.key == s.attempts[a].key && !r.source.Peer?
    ensures AttemptsOk(s.(attempts := Respond(s.attempts, a, r), loop := loop))
    ensures OneAtATime(s.(attempts := Respond(s.attempts, a, r), loop := loop))
  {
    var t := s.(attempts := Respond(s.attempts, a, r), loop := loop);
    forall b | 0 <= b < |t.attempts| ensures AttemptOk(t, t.attempts[b]) {
      assert AttemptOk(s, s.attempts[b]);
    }
  }

  lemma RespondKeepsTable(s: Client, a: nat, r: Response, loop: Loop)
    requires InflightOk(s) && Conserved(s) && Replying(s)
    requires a < |s.attempts| && s.attempts[a].taken && !InTable(s, a)
    requires loop.Select? || (loop.Draining? && LoopRequests(s.(loop := loop)))
    requires forall b: nat | b < |s.attempts| && b != a && Carried(s, b) :: Carried(s.(loop := loop), b)
    ensures InflightOk(s.(attempts := Respond(s.attempts, a, r), loop := loop))
    ensures Conserved(s.(attempts := Respond(s.attempts, a, r), loop := loop))
    ensures LoopRequests(s.(attempts := Respond(s.attempts, a, r), loop := loop))
    ensures Replying(s.(attempts := Respond(s.attempts, a, r), loop := loop))
  {
    var t := s.(attempts := Respond(s.attempts, a, r), loop := loop);
    forall b: nat | b < |t.attempts| && t.attempts[b].taken && t.attempts[b].answers == []
      ensures Carried(t, b) || InTable(t, b)
    {
      assert b != a && (Carried(s, b) || InTable(s, b));
    }
  }

  lemma DrainKeeps(s: Client, requests: map<nat, nat>, final: bool, key: nat)
    requires Requests(s) && s.loop == Draining(requests, final) && key in requests
    ensures Requests(AnswerDropped(s, requests, final, key))
  {
    RespondKeeps(s, requests[key], Response(Some(key), ConnectionClosed), Draining(requests - {key}, final));
  }

  // A request is never stored over another one.
  lemma StoreIsFresh(s: Client, a: nat)
    requires Requests(s) && s.loop == Taken(a) && KeyOf(s, a).Some? && !s.InflightHeld()
    ensures KeyOf(s, a).value !in s.inflight
  {
  }

  lemma StoreKeeps(s: Client, a: nat)
    requires Requests(s) && s.loop == Taken(a) && (KeyOf(s, a).Some? ==> !s.InflightHeld())
    ensures Requests(StoreRequest(s, a))
  {
    if KeyOf(s, a).Some? {
      StoreIsFresh(s, a);
      StoreKeepsAttempts(s, a);
    }
  }

  lemma StoreKeepsAttempts(s: Client, a: nat)
    requires AttemptsOk(s) && OneAtATime(s) && a < |s.attempts| && s.attempts[a].answers == [] && s.attempts[a].taken
    ensures AttemptsOk(StoreRequest(s, a)) && OneAtATime(StoreRequest(s, a))
  {
    var t := StoreRequest(s, a);
    forall b | 0 <= b < |t.attempts| ensures AttemptOk(t, t.attempts[b]) {
      assert AttemptOk(s, s.attempts[b]);
    }
  }

  lemma WrittenKeeps(s: Client, a: nat)
    requires Requests(s) && s.loop == Stored(a)
    ensures Requests(RequestWritten(s, a))
  {
    if KeyOf(s, a).None? {
      RespondKeeps(s, a, Response(None, NotificationSent), Select);
    }
  }

  // What the event loop removes after a failed write is its own entry or nothing.
  lemma UnstoreIsOwn(s: Client, a: nat)
    requires Requests(s) && s.loop == Unsent(a) && KeyOf(s, a).Some? && !s.InflightHeld()
    ensures KeyOf(s, a).value in s.inflight ==> s.inflight[KeyOf(s, a).value] == a
  {
  }

  lemma UnstoreKeeps(s: Client, a: nat)
    requires Requests(s) && s.loop == Unsent(a) && (KeyOf(s, a).Some? ==> !s.InflightHeld())
    ensures Requests(RemoveUnsent(s, a))
  {
    if KeyOf(s, a).Some? {
      UnstoreIsOwn(s, a);
    }
  }

  lemma TakeInflightKeeps(s: Client, final: bool)
    requires Requests(s) && s.loop == DropRequests(final) && !s.InflightHeld()
    ensures Requests(TakeInflight(s, final))
  {
  }

  // A step of the event loop that leaves the table and the answers alone.
  lemma LoopMoves(s: Client, t: Client)
    requires Requests(s) && LoopRequests(t)
    requires t == s.(loop := t.loop, sinks := t.sinks, chanHandlers := t.chanHandlers, failed := t.failed)
    requires forall a: nat | a < |s.attempts| && Carried(s, a) :: Carried(t, a)
    ensures Requests(t)
  {
  }

  // Frames on their way touch no request.
  lemma ReadingMoves(s: Client, reading: seq<Frame>, queue: seq<Frame>)
    requires Requests(s)
    ensures Requests(s.(reading := reading, queue := queue))
  {
  }

  // A step of the frame executor that leaves the table and the answers alone.
  lemma ExecMoves(s: Client, t: Client)
    requires Requests(s) && !s.exec.Replied? && !t.exec.Replied?
    requires t == s.(exec := t.exec, sinks := t.sinks, chanHandlers := t.chanHandlers, reading := t.reading,
             queue := t.queue)
    requires Replying(t)
    ensures Requests(t)
  {
  }

  lemma AnswerKeepsAttempts(s: Client, r: Reply)
    requires AttemptsOk(s) && OneAtATime(s) && InflightOk(s) && Replying(s) &&
             (s.exec == Shown(r) || s.exec == Checked(r))
    ensures AttemptsOk(AnswerRequest(s, r)) && OneAtATime(AnswerRequest(s, r)) && InflightOk(AnswerRequest(s, r))
  {
    var t := AnswerRequest(s, r);
    var answer := Response(Some(r.key), Peer(r.frameEpoch, r.lookupEpoch, r.temporary));
    AnsweredOk(s, s.attempts[r.attempt], answer);
    forall a | 0 <= a < |t.attempts| ensures AttemptOk(t, t.attempts[a]) {
      assert AttemptOk(s, s.attempts[a]);
    }
    forall key | key in t.inflight ensures EntryOk(t, key, t.inflight[key]) {
      assert EntryOk(s, key, s.inflight[key]) && EntryOk(s, r.key, s.inflight[r.key]);
    }
  }

  // One more answer to an attempt that was taken.
  lemma AnsweredOk(s: Client, t: Attempt, r: Response)
    requires AttemptOk(s, t) && t.taken && AnswerOk(t, r)
    ensures AttemptOk(s, t.Respond(r))
  {
  }

  lemma AnswerKeeps(s: Client, r: Reply)
    requires Requests(s) && (s.exec == Shown(r) || s.exec == Checked(r))
    ensures Requests(AnswerRequest(s, r))
  {
    AnswerKeepsAttempts(s, r);
    AnswerKeepsRest(s, r);
  }

  lemma AnswerKeepsRest(s: Client, r: Reply)
    requires Conserved(s) && LoopRequests(s) && Replying(s) && (s.exec == Shown(r) || s.exec == Checked(r))
    requires s.loop.Taken? ==> r.attempt != s.loop.attempt
    ensures Conserved(AnswerRequest(s, r)) && LoopRequests(AnswerRequest(s, r)) && Replying(AnswerRequest(s, r))
  {
    var t := AnswerRequest(s, r);
    forall a: nat | a < |t.attempts| && t.attempts[a].taken && t.attempts[a].answers == []
      ensures Carried(t, a) || InTable(t, a)
    {
      assert Carried(s, a) || InTable(s, a);
    }
  }

  lemma DeleteKeeps(s: Client, r: Reply)
    requires Requests(s) && s.exec == Replied(r)
    ensures Requests(s.(inflight := s.inflight - {r.key}, exec := Idle))
  {
  }

  // ---------- sinks: what each step keeps ----------

  // A step that leaves every sink where it is.
  lemma SinksStay(s: Client, t: Client)
    requires Sinks(s)
    requires t.sinks == s.sinks && t.chanHandlers == s.chanHandlers && (s.failed ==> t.failed)
    requires t.loop == s.loop || (!t.loop.Sweep? && (s.loop.Sweep? ==> s.loop.sinks == map[]))
    requires forall k: nat :: Owns(t.exec, k) <==> Owns(s.exec, k)
    requires HoldingOk(t) && Teardown(t)
    ensures Sinks(t)
  {
  }

  lemma BuildKeeps(s: Client, r: Reply)
    requires Sinks(s) && s.exec == Found(r)
    ensures Sinks(BuildSink(s, r))
  {
    BuildKeepsSinks(s, r);
    BuildKeepsRest(s, r);
  }

  lemma BuildKeepsSinks(s: Client, r: Reply)
    requires SinksOk(s) && s.exec == Found(r) && r.sink.None?
    ensures SinksOk(BuildSink(s, r))
  {
    if IsStream(s, r.attempt) && !r.result.Absent? {
      NewSinkOk(s, r);
    } else {
      var t := BuildSink(s, r);
      forall k | 0 <= k < |t.sinks| ensures SinkOk(t, k, t.sinks[k]) {
        OldSinkOk(s, t, k);
      }
    }
  }

  lemma NewSinkOk(s: Client, r: Reply)
    requires SinksOk(s) && s.exec == Found(r) && IsStream(s, r.attempt) && !r.result.Absent?
    ensures SinksOk(BuildSink(s, r))
  {
    var t := BuildSink(s, r);
    assert forall k | 0 <= k < |s.sinks| :: t.sinks[k] == s.sinks[k];
    assert forall k: nat :: Owns(t.exec, k) <==> k == |s.sinks|;
    forall k | 0 <= k < |t.sinks| ensures SinkOk(t, k, t.sinks[k]) {
      if k < |s.sinks| {
        OldSinkOk(s, t, k);
      }
    }
  }

  // A sink that no step touched, and that was not the executor's.
  lemma OldSinkOk(s: Client, t: Client, k: nat)
    requires k < |s.sinks| && SinkOk(s, k, s.sinks[k]) && !Owns(s.exec, k)
    requires k < |t.sinks| && t.sinks[k] == s.sinks[k] && t.chanHandlers == s.chanHandlers && t.loop == s.loop
    ensures SinkOk(t, k, t.sinks[k])
  {
  }

  lemma BuildKeepsRest(s: Client, r: Reply)
    requires HoldingOk(s) && Teardown(s) && s.exec == Found(r)
    ensures HoldingOk(BuildSink(s, r)) && Teardown(BuildSink(s, r))
  {
  }

  lemma PublishKeeps(s: Client, r: Reply)
    requires Sinks(s) && s.exec == Gate(r)
    ensures Sinks(PublishSink(s, r))
  {
    var t := PublishSink(s, r);
    forall k | 0 <= k < |t.sinks| ensures SinkOk(t, k, t.sinks[k]) {
      PublishKeepsSink(s, r, k);
    }
    PublishKeepsHandlers(s, r);
  }

  lemma PublishKeepsHandlers(s: Client, r: Reply)
    requires SinksOk(s) && s.exec == Gate(r) && r.sink.Some?
    ensures var t := PublishSink(s, r);
            |t.sinks| == |s.sinks| &&
            (forall c | c in t.chanHandlers :: t.chanHandlers[c] < |t.sinks| &&
                t.sinks[t.chanHandlers[c]].place == Published(c)) &&
            (s.loop.Sweep? ==> forall c | c in s.loop.sinks ::
              s.loop.sinks[c] < |t.sinks| && t.sinks[s.loop.sinks[c]].place == Sweeping(c))
  {
    var t, channel, own := PublishSink(s, r), r.ChannelId(), r.sink.value;
    assert Owns(s.exec, own);
    forall c | c in t.chanHandlers
      ensures t.chanHandlers[c] < |t.sinks| && t.sinks[t.chanHandlers[c]].place == Published(c)
    {
      if c != channel {
        assert s.sinks[s.chanHandlers[c]].place == Published(c);
        assert channel in s.chanHandlers ==> s.sinks[s.chanHandlers[channel]].place == Published(channel);
      }
    }
  }

  lemma PublishKeepsSink(s: Client, r: Reply, k: nat)
    requires SinksOk(s) && s.exec == Gate(r) && r.sink.Some? && k < |s.sinks|
    ensures SinkOk(PublishSink(s, r), k, PublishSink(s, r).sinks[k])
  {
    assert SinkOk(s, k, s.sinks[k]);
    assert Owns(s.exec, r.sink.value);
  }

  lemma RejectKeeps(s: Client, k: nat)
    requires Sinks(s) && (s.exec == Rejecting(k) || s.exec == EndLocked(k))
    ensures Sinks(RejectSink(s, k))
  {
    RejectKeepsSinks(s, k);
  }

  lemma RejectKeepsSinks(s: Client, k: nat)
    requires SinksOk(s) && (s.exec == Rejecting(k) || s.exec == EndLocked(k))
    ensures SinksOk(RejectSink(s, k))
  {
    var t := RejectSink(s, k);
    assert Owns(s.exec, k);
    forall j | 0 <= j < |t.sinks| ensures SinkOk(t, j, t.sinks[j]) {
      assert SinkOk(s, j, s.sinks[j]);
    }
  }

  lemma DeliverKeeps(s: Client, k: nat, value: int)
    requires Sinks(s) && s.exec == MessageLocked(k, value)
    ensures Sinks(DeliverMessage(s, k, value))
  {
  }

  lemma RemoveKeeps(s: Client, channel: nat, k: nat)
    requires Sinks(s) && s.exec == EndFound(channel, k)
    ensures Sinks(RemoveHandler(s, channel, k))
  {
  }

  lemma TakeHandlersKeeps(s: Client, final: bool)
    requires Sinks(s) && s.loop == DropSinks(final) && !s.HandlersHeld()
    ensures Sinks(TakeHandlers(s, final))
  {
  }

  lemma CloseSweptKeeps(s: Client, sinks: map<nat, nat>, final: bool, channel: nat)
    requires Sinks(s) && s.loop == Sweep(sinks, final) && channel in sinks && !s.SinkHeld(sinks[channel])
    ensures Sinks(CloseSwept(s, sinks, final, channel))
  {
    CloseSweptKeepsSinks(s, sinks, final, channel);
    CloseSweptKeepsRest(s, sinks, final, channel);
  }

  lemma CloseSweptKeepsSinks(s: Client, sinks: map<nat, nat>, final: bool, channel: nat)
    requires SinksOk(s) && s.loop == Sweep(sinks, final) && channel in sinks
    ensures SinksOk(CloseSwept(s, sinks, final, channel))
  {
    var t := CloseSwept(s, sinks, final, channel);
    forall k | 0 <= k < |t.sinks| ensures SinkOk(t, k, t.sinks[k]) {
      assert SinkOk(s, k, s.sinks[k]);
    }
  }

  lemma CloseSweptKeepsRest(s: Client, sinks: map<nat, nat>, final: bool, channel: nat)
    requires SinksOk(s) && HoldingOk(s) && Teardown(s)
    requires s.loop == Sweep(sinks, final) && channel in sinks && !s.SinkHeld(sinks[channel])
    ensures HoldingOk(CloseSwept(s, sinks, final, channel)) && Teardown(CloseSwept(s, sinks, final, channel))
  {
  }

  // ---------- sinks and requests together ----------

  lemma FreshStays(s: Client, t: Client)
    requires FreshSinks(s)
    requires forall c | c in t.chanHandlers :: c in s.chanHandlers && t.chanHandlers[c] == s.chanHandlers[c]
    requires |s.sinks| <= |t.sinks| && forall k | 0 <= k < |s.sinks| :: t.sinks[k].attempt == s.sinks[k].attempt
    requires |s.attempts| <= |t.attempts|
    requires forall a | 0 <= a < |s.attempts| && s.attempts[a].epoch.Some? :: t.attempts[a].epoch == s.attempts[a].epoch
    requires t.chanHandlers == map[] || BetweenDrops(t.loop) || (t.epoch == s.epoch && !BetweenDrops(s.loop))
    ensures FreshSinks(t)
  {
  }

  // The sink about to be published belongs to the request in the table.
  lemma OwnSinkIsFresh(s: Client, r: Reply)
    requires InflightOk(s) && Replying(s) && HoldingOk(s) && s.exec == Gate(r)
    ensures r.sink.Some? && SinkEpoch(s, r.sink.value, s.epoch)
  {
    assert EntryOk(s, r.key, s.inflight[r.key]);
  }

  lemma FreshPublish(s: Client, r: Reply)
    requires FreshSinks(s) && r.sink.Some? && SinkEpoch(s, r.sink.value, s.epoch)
    ensures FreshSinks(PublishSink(s, r))
  {
    var t := PublishSink(s, r);
    assert forall k | 0 <= k < |s.sinks| :: t.sinks[k].attempt == s.sinks[k].attempt;
    forall c | !BetweenDrops(t.loop) && c in t.chanHandlers ensures SinkEpoch(t, t.chanHandlers[c], t.epoch) {
      assert c != r.ChannelId() ==> SinkEpoch(s, s.chanHandlers[c], s.epoch);
    }
  }
}
