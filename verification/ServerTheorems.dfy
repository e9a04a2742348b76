/** What holds of every run of the server half, whatever the interleaving. */
module ServerTheorems {
  import opened Options
  import opened Runs
  import opened SelectCases
  import opened ServerProtocol
  import opened ServerInvariant
  import opened ServerSteps

  // s is reached by run on a connection configured with maxSubscriptions.
  ghost predicate Reaches(configured: int, run: seq<Event>, s: Server) {
    After(Init(EffectiveLimit(configured)), Step, run) == Some(s)
  }

  lemma LimitStays(s: Server, e: Event)
    requires Enabled(s, e)
    ensures Next(s, e).limit == s.limit
  {
    match e
    case Frame(_) =>
    case Handler(_, _) =>
    case Finishing(_, _) =>
    case Out(_) =>
    case Cleanup(_) =>
  }

  lemma RunKeeps(configured: int, run: seq<Event>, s: Server)
    requires Reaches(configured, run, s)
    ensures Inv(s) && s.limit == EffectiveLimit(configured)
  {
    var limit := EffectiveLimit(configured);
    var inv := (u: Server) => Inv(u) && u.limit == limit;
    InitInv(limit);
    forall u, e | inv(u) && Step(u, e).Some? ensures inv(Step(u, e).value) {
      StepKeeps(u, e);
      LimitStays(u, e);
    }
    Invariant(Init(limit), Step, inv, run);
  }

  // ---------- subscriptions ----------

  // The counter is the number of reservations not yet released, within the limit under any
  // interleaving of compare-and-swap loops; and a reservation is released at most once.
  lemma SubscriptionsCounted(configured: int, run: seq<Event>, s: Server, n: nat)
    requires Reaches(configured, run, s)
    ensures s.subscriptions == |Holders(s.calls)|
    ensures 0 <= s.subscriptions <= EffectiveLimit(configured)
    ensures n < |s.calls| ==> s.calls[n].releases <= 1
    ensures n < |s.calls| && s.calls[n].reserved ==> (s.calls[n].releases == 1 <==> n !in Holders(s.calls))
  {
    RunKeeps(configured, run, s);
  }

  // The handler goroutine of a call has returned, and the output loop has no stream of it.
  ghost predicate Through(s: Server, n: nat, c: Call) {
    c.phase.Over? || (c.phase.Streaming? && n !in s.active && !OutputCleans(s, n))
  }

  // On every way out (refused, undecodable parameters, wrong count, failed decoder, panic, notification,
  // method error, nil channel, lost handover, stream end, shutdown) a call that is through has finished and
  // holds no reservation.
  lemma ThroughIsReleased(configured: int, run: seq<Event>, s: Server, n: nat)
    requires Reaches(configured, run, s) && n < |s.calls| && Through(s, n, s.calls[n])
    ensures s.calls[n].finish.Finished? && s.calls[n].cancelled
    ensures s.calls[n].releases == if s.calls[n].reserved then 1 else 0
    ensures n !in Holders(s.calls)
  {
    RunKeeps(configured, run, s);
    assert CallOk(s, n, s.calls[n]);
  }

  lemma NoLeak(configured: int, run: seq<Event>, s: Server)
    requires Reaches(configured, run, s)
    requires forall n | 0 <= n < |s.calls| :: Through(s, n, s.calls[n])
    ensures s.subscriptions == 0
  {
    RunKeeps(configured, run, s);
    forall n: nat ensures n !in Holders(s.calls) {
      if n < |s.calls| {
        assert CallOk(s, n, s.calls[n]);
        assert Through(s, n, s.calls[n]);
      }
    }
    assert Holders(s.calls) == {};
  }

  // An accepted stream keeps its reservation until its channel ends or the loop quits: cancelling it is not enough.
  lemma ActiveHoldsSlot(configured: int, run: seq<Event>, s: Server, i: nat)
    requires Reaches(configured, run, s) && i < |s.active|
    ensures s.active[i] in Holders(s.calls) && s.calls[s.active[i]].accepted == Some(true)
    ensures forall j | 0 <= j < |s.active| && j != i :: s.active[j] != s.active[i]
  {
    RunKeeps(configured, run, s);
  }

  // Streams being forwarded, plus the registration that is arriving, never exceed the reservations: so the
  // loop never refuses a registration, and reflect.Select never sees more than 65536 cases.
  lemma SelectTableBound(configured: int, run: seq<Event>, s: Server)
    requires Reaches(configured, run, s)
    ensures |s.active| + (if s.out.Received? then 1 else 0) <= s.subscriptions
    ensures s.out.Received? ==> |s.active| < s.limit
    ensures |s.active| + (if s.out.Received? then 1 else 0) + INTERNAL_CASES <= MAX_SELECT_CASES
    ensures forall n | 0 <= n < |s.calls| :: s.calls[n].accepted != Some(false)
  {
    RunKeeps(configured, run, s);
    ActiveWithinHolders(s);
  }

  // ---------- reused request identifiers ----------

  // The table maps an identifier to a call exactly if that is the newest call with the identifier,
  // unfinished and not taken out by a sweep. In particular an old call that finishes never removes its successor.
  lemma HandlingIsNewest(configured: int, run: seq<Event>, s: Server, id: nat, n: nat)
    requires Reaches(configured, run, s)
    ensures (id in s.handling && s.handling[id] == n) <==>
              (Newest(s, n) && s.calls[n].id == Some(id) && !s.calls[n].finish.Finished? && !s.calls[n].swept)
  {
    RunKeeps(configured, run, s);
    if n < |s.calls| {
      assert Tracked(s, n, s.calls[n]);
    }
  }

  // An unfinished call that left the table is cancelled, or the step that displaced or swept it is about to cancel it.
  lemma DisplacedIsCancelled(configured: int, run: seq<Event>, s: Server, n: nat)
    requires Reaches(configured, run, s) && n < |s.calls|
    requires s.calls[n].id.Some? && !s.calls[n].finish.Finished? && !InTable(s, n, s.calls[n])
    ensures s.calls[n].cancelled || Owed(s, n, s.calls[n])
  {
    RunKeeps(configured, run, s);
    assert Tracked(s, n, s.calls[n]);
  }

  // xrpc.cancel reaches only the newest call with its identifier, even though finding and cancelling are two steps.
  lemma CancelReachesNewest(configured: int, run: seq<Event>, s: Server)
    requires Reaches(configured, run, s) && s.exec.Cancelling?
    ensures Newest(s, s.exec.call)
  {
    RunKeeps(configured, run, s);
  }

  // A handler is not started before the call it displaced is cancelled.
  lemma SuccessorWaits(configured: int, run: seq<Event>, s: Server, n: nat)
    requires Reaches(configured, run, s) && n < |s.calls| && s.calls[n].phase.Waiting?
    ensures s.exec.Displacing? && s.exec.call == n && s.calls[n].finish.Live? && !s.calls[n].reserved
  {
    RunKeeps(configured, run, s);
    assert Tracked(s, n, s.calls[n]) && CallOk(s, n, s.calls[n]);
  }

  // ---------- progress ----------

  // A step that call n may be waiting for, and that no peer, no user method and no failure has to bring about: its
  // own, the output loop's with it or with the stream it is busy with, and what the executor owes.
  predicate Serves(s: Server, n: nat, e: Event) {
    match e
    case Frame(f) => f.CancelDisplaced? || f.Insert?
    case Handler(m, h) => m == n && !h.Leave? && !h.Register?
    case Finishing(m, _) => m == n || OutputCleans(s, m)
    case Out(HandOff(m)) => m == n
    case Out(o) => !o.StreamEnds? && !o.Quit?
    case Cleanup(_) => false
  }

  lemma FinishProceeds(s: Server, n: nat, m: nat)
    requires m < |s.calls| && !s.calls[m].finish.Finished?
    requires (m == n && s.calls[m].phase.Leaving?) || OutputCleans(s, m)
    ensures exists e :: Serves(s, n, e) && Enabled(s, e)
  {
    var e := match s.calls[m].finish
             case Live => Finishing(m, Stop)
             case Stopped => Finishing(m, Release)
             case _ => if s.exec.Gate? then Frame(Insert) else Finishing(m, Forget);
    assert Serves(s, n, e) && Enabled(s, e);
  }

  // The output loop, once started, can go on or is ready to receive.
  lemma OutputProceeds(s: Server, n: nat)
    requires OutputOk(s) && !s.out.Unborn? && !s.out.Selecting? && !s.out.Done?
    ensures exists e :: Serves(s, n, e) && Enabled(s, e)
  {
    if OutputBusy(s) {
      FinishProceeds(s, n, s.out.call);
    } else {
      var e := match s.out
               case Received(_) => Decide
               case Cleaning(_) => CleanDone
               case DrainCleaning(_) => DrainCleaned
               case _ => if s.active == [] then QuitDone else DrainNext;
      assert Serves(s, n, Out(e)) && Enabled(s, Out(e));
    }
  }

  predicate OutputBusy(s: Server) {
    (s.out.Cleaning? || s.out.DrainCleaning?) && s.out.call < |s.calls| && !s.calls[s.out.call].finish.Finished?
  }

  // A call that is alive, and neither running its method nor handing over, can take a step of its own.
  lemma OwnStepPossible(s: Server, n: nat)
    requires n < |s.calls| && CallOk(s, n, s.calls[n]) && Tracked(s, n, s.calls[n])
    requires var p := s.calls[n].phase; p.Waiting? || p.Started? || p.Admitting? || p.Counted?
    ensures exists e :: Serves(s, n, e) && Enabled(s, e)
  {
    var e := match s.calls[n].phase
             case Waiting => Frame(CancelDisplaced)
             case Started => Handler(n, StartPlain)
             case Admitting => Handler(n, LoadCount)
             case _ => Handler(n, CompareAndSwap);
    assert Serves(s, n, e) && Enabled(s, e);
  }

  lemma OfferServed(s: Server, n: nat)
    requires OutputOk(s) && n < |s.calls| && s.calls[n].phase.Offering? && !s.out.Unborn?
    ensures exists e :: Serves(s, n, e) && Enabled(s, e)
  {
    if s.out.Selecting? {
      assert Serves(s, n, Out(HandOff(n))) && Enabled(s, Out(HandOff(n)));
    } else if s.out.Done? {
      assert Serves(s, n, Handler(n, OfferFails)) && Enabled(s, Handler(n, OfferFails));
    } else {
      OutputProceeds(s, n);
    }
  }

  // A call whose method is not running, and which is neither streaming nor over, never waits for good: a step of
  // its own is possible, or one of the output loop or the executor that it waits for. So a registration is always
  // decided, whatever the output loop is busy with, and a call that leaves is always finished.
  lemma HandlerNeverStuck(configured: int, run: seq<Event>, s: Server, n: nat)
    requires Reaches(configured, run, s) && n < |s.calls|
    requires var p := s.calls[n].phase; !p.Admitted? && !p.Running? && !p.Streaming? && !p.Over?
    ensures exists e :: Serves(s, n, e) && Enabled(s, e)
  {
    RunKeeps(configured, run, s);
    assert CallOk(s, n, s.calls[n]) && Tracked(s, n, s.calls[n]);
    match s.calls[n].phase
    case Offering => OfferServed(s, n);
    case HandedOver =>
      var e := if s.calls[n].accepted.Some? then Handler(n, SeeAccepted) else Out(Decide);
      assert Serves(s, n, e) && Enabled(s, e);
    case Leaving =>
      if s.calls[n].finish.Finished? {
        assert Serves(s, n, Finishing(n, Return)) && Enabled(s, Finishing(n, Return));
      } else {
        FinishProceeds(s, n, n);
      }
    case _ => OwnStepPossible(s, n);
  }

  // ---------- teardown ----------

  ghost predicate SweptForGood(s: Server) {
    s.sweep.Torn? || (s.sweep.Sweeping? && s.sweep.final)
  }

  lemma TeardownStep(s: Server, e: Event)
    requires Enabled(s, e) && SweptForGood(s)
    ensures SweptForGood(Next(s, e)) && (s.sweep.Torn? ==> Next(s, e).sweep.Torn?)
  {
    match e
    case Frame(_) =>
    case Handler(_, _) =>
    case Finishing(_, _) =>
    case Out(_) =>
    case Cleanup(_) =>
  }

  // Once the teardown has taken the calls, `handling` stays empty on every continuation, although
  // handlers and the executor keep running; and once it has gone through them, every call with an
  // identifier that is still running has been cancelled, or is about to be by the step that displaced it.
  lemma TeardownIsFinal(configured: int, run: seq<Event>, more: seq<Event>, s: Server, t: Server)
    requires Reaches(configured, run, s) && Reaches(configured, run + more, t) && SweptForGood(s)
    ensures t.failed && t.handling == map[]
    ensures s.sweep.Torn? ==> forall n | 0 <= n < |t.calls| && t.calls[n].id.Some? && !t.calls[n].finish.Finished? ::
              t.calls[n].cancelled || (t.exec.Displacing? && t.exec.previous == n)
  {
    var inv := (u: Server) => SweptForGood(u) && (s.sweep.Torn? ==> u.sweep.Torn?);
    forall u, e | inv(u) && Step(u, e).Some? ensures inv(Step(u, e).value) {
      TeardownStep(u, e);
    }
    Invariant(s, Step, inv, more);
    Continue(Init(EffectiveLimit(configured)), Step, run, more);
    RunKeeps(configured, run + more, t);
    assert forall n | 0 <= n < |t.calls| :: Tracked(t, n, t.calls[n]);
  }
}
