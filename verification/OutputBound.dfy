/**
 The calls and slots of the server half and the slices of its output loop, step by step together: whatever
 bounds the streams of the one bounds the select cases of the other.
 */
module OutputBound {
  import opened Options
  import opened Runs
  import opened SelectCases
  import S = ServerProtocol
  import I = ServerInvariant
  import Steps = ServerSteps
  import O = OutputLoop
  import T = OutputTheorems

  // callOf[k] is the call behind the k-th registration, whose channel ID is k + 1.
  datatype Linked = Linked(server: S.Server, loop: O.Loop, callOf: seq<nat>)

  function Init(limit: int): Linked {
    Linked(S.Init(limit), O.Init(true, limit), [])
  }

  /** Calls are steps of the server half that are none of the output loop's slices'; Register, Decide, Retire
      and Quit are steps of both. */
  datatype Event =
    | Calls(server: S.Event)
    | Register(call: nat, ch: nat)
    | Decide(k: nat, written: bool)
    | Retire(i: nat, written: bool)
    | Forward(chosen: nat, written: bool)
    | Quit
    | Methods(source: O.SourceEvent)
    | Break

  // A loop that has left its select receives no more.
  predicate CallsEnabled(s: Linked, e: S.Event) {
    && S.Enabled(s.server, e)
    && match e
       case Handler(_, h) => !h.Register?
       case Out(o) => !o.Decide? && !o.StreamEnds? && !o.Quit? && (o.HandOff? ==> !s.loop.done)
       case _ => true
  }

  predicate Fits(s: Linked) {
    |s.loop.registrations| < s.loop.limit
  }

  predicate Enabled(s: Linked, e: Event) {
    match e
    case Calls(x) => CallsEnabled(s, x)
    case Register(n, ch) => S.HandlerEnabled(s.server, n, S.Register) && ch < |s.loop.chans|
    case Decide(k, written) =>
      && S.OutEnabled(s.server, S.Decide) && !s.loop.done
      && k < |s.callOf| && k < |s.loop.offers| && s.callOf[k] == s.server.out.call
      && s.loop.offers[k].chID !in s.loop.got
    case Retire(i, written) =>
      S.OutEnabled(s.server, S.StreamEnds(i)) && O.SelectEnabled(s.loop, O.Retire(i + INTERNAL_CASES, written))
    case Forward(chosen, written) =>
      s.server.out.Selecting? && O.SelectEnabled(s.loop, O.Forward(chosen, written))
    case Quit => S.OutEnabled(s.server, S.Quit)
    case Methods(x) => !x.Offer? && O.SourceEnabled(s.loop, x)
    case Break => true
  }

  function Next(s: Linked, e: Event): Linked
    requires Enabled(s, e)
  {
    match e
    case Calls(x) => s.(server := S.Next(s.server, x))
    case Register(n, ch) =>
      s.(server := S.HandlerNext(s.server, n, S.Register),
         loop := O.SourceNext(s.loop, O.Offer(s.server.calls[n].id.value, ch)),
         callOf := s.callOf + [n])
    case Decide(k, written) =>
      s.(server := S.OutNext(s.server, S.Decide),
         loop := if Fits(s) then O.RegisterStream(s.loop, s.loop.offers[k], written) else s.loop)
    case Retire(i, written) =>
      s.(server := S.OutNext(s.server, S.StreamEnds(i)), loop := O.RetireStream(s.loop, i + INTERNAL_CASES, written))
    case Forward(chosen, written) => s.(loop := O.ForwardValue(s.loop, chosen, written))
    case Quit => s.(server := S.OutNext(s.server, S.Quit), loop := s.loop.(done := true))
    case Methods(x) => s.(loop := O.SourceNext(s.loop, x))
    case Break => s.(loop := O.LinkNext(s.loop, O.Break))
  }

  function Step(s: Linked, e: Event): Option<Linked> {
    if Enabled(s, e) then Some(Next(s, e)) else None
  }

  // ---------- calls and registrations ----------

  // Past reserving: the call has registered its channel, or left without one.
  predicate Late(p: S.Phase) {
    p.Offering? || p.HandedOver? || p.Leaving? || p.Streaming? || p.Over?
  }

  predicate Offers(p: S.Phase) {
    p.Offering? || p.HandedOver? || p.Streaming?
  }

  // The loop is in its select, or busy with what it received there.
  predicate AtWork(out: S.Output) {
    out.Unborn? || out.Selecting? || out.Received? || out.Cleaning?
  }

  // Registration k belongs to its call, and is in the loop's history exactly if the call was accepted.
  ghost predicate BelongsTo(s: Linked, k: nat) {
    && k < |s.callOf| && k < |s.loop.offers| && s.callOf[k] < |s.server.calls|
    && var c := s.server.calls[s.callOf[k]];
       && Late(c.phase) && c.id == Some(s.loop.offers[k].reqID)
       && (c.accepted.Some? <==> s.loop.offers[k].chID in s.loop.got)
  }

  ghost predicate CallsMatch(s: Linked) {
    && |s.callOf| == |s.loop.offers|
    && (forall k | 0 <= k < |s.callOf| :: BelongsTo(s, k))
    && (forall j, k | 0 <= j < k < |s.callOf| :: s.callOf[j] != s.callOf[k])
    && (forall n | 0 <= n < |s.server.calls| && Offers(s.server.calls[n].phase) :: n in s.callOf)
  }

  // While the loop is at work its registrations are the active calls of the server half, one by one.
  ghost predicate StreamsMatch(s: Linked) {
    && s.server.limit == s.loop.limit
    && |s.loop.registrations| <= s.loop.limit
    && (AtWork(s.server.out) ==> |s.server.active| == |s.loop.registrations|)
    && (AtWork(s.server.out) ==> forall i | 0 <= i < |s.server.active| :: SameStream(s, i))
    && (s.server.out.Received? || s.server.out.Cleaning? ==> !s.loop.done)
  }

  ghost predicate SameStream(s: Linked, i: nat) {
    && i < |s.server.active| && i < |s.loop.registrations|
    && 0 < s.loop.registrations[i].chID <= |s.callOf|
    && s.callOf[s.loop.registrations[i].chID - 1] == s.server.active[i]
  }

  ghost predicate Inv(s: Linked) {
    I.Inv(s.server) && T.Inv(s.loop) && s.loop.serverSide && CallsMatch(s) && StreamsMatch(s)
  }

  lemma InitInv(limit: int)
    requires 0 < limit
    ensures Inv(Init(limit))
  {
    I.InitInv(limit);
    T.InitInv(true, limit);
  }

  // ---------- steps of the server half alone ----------

  // What a registration needs to know of its call does not change, and no call registers.
  ghost predicate Kept(s: S.Server, t: S.Server, n: nat) {
    && (n < |s.calls| && Late(s.calls[n].phase) ==>
          && n < |t.calls| && Late(t.calls[n].phase)
          && t.calls[n].id == s.calls[n].id && t.calls[n].accepted == s.calls[n].accepted)
    && (n < |t.calls| && Offers(t.calls[n].phase) ==> n < |s.calls| && Offers(s.calls[n].phase))
  }

  lemma FrameKeeps(s: S.Server, e: S.ExecEvent, n: nat)
    requires I.ExecOk(s) && S.ExecEnabled(s, e)
    ensures Kept(s, S.ExecNext(s, e), n)
  {
  }

  lemma HandlerKeeps(s: S.Server, m: nat, e: S.HandlerEvent, n: nat)
    requires S.HandlerEnabled(s, m, e) && !e.Register?
    ensures Kept(s, S.HandlerNext(s, m, e), n)
  {
  }

  lemma FinishKeeps(s: S.Server, m: nat, e: S.FinishEvent, n: nat)
    requires S.FinishEnabled(s, m, e)
    ensures Kept(s, S.FinishNext(s, m, e), n)
  {
  }

  lemma OutKeeps(s: S.Server, e: S.OutputEvent, n: nat)
    requires S.OutEnabled(s, e) && !e.Decide?
    ensures Kept(s, S.OutNext(s, e), n)
  {
  }

  lemma CallStays(s: S.Server, e: S.Event, n: nat)
    requires I.ExecOk(s) && S.Enabled(s, e)
    requires (e.Handler? ==> !e.handler.Register?) && (e.Out? ==> !e.out.Decide?)
    ensures Kept(s, S.Next(s, e), n)
  {
    match e
    case Frame(x) => FrameKeeps(s, x, n);
    case Handler(m, x) => HandlerKeeps(s, m, x, n);
    case Finishing(m, x) => FinishKeeps(s, m, x, n);
    case Out(x) => OutKeeps(s, x, n);
    case Cleanup(_) =>
  }

  lemma OutputStays(s: S.Server, e: S.Event)
    requires S.Enabled(s, e)
    requires match e
             case Handler(_, h) => !h.Register?
             case Out(o) => !o.Decide? && !o.StreamEnds? && !o.Quit?
             case _ => true
    ensures var t := S.Next(s, e);
            && t.limit == s.limit && (AtWork(t.out) ==> AtWork(s.out) && t.active == s.active)
            && (t.out.Cleaning? ==> s.out.Cleaning?)
            && (t.out.Received? ==> s.out.Received? || (e.Out? && e.out.HandOff?))
  {
    match e
    case Frame(_) =>
    case Handler(_, _) =>
    case Finishing(_, _) =>
    case Out(_) =>
    case Cleanup(_) =>
  }

  lemma CallsKeep(s: Linked, e: S.Event)
    requires Inv(s) && CallsEnabled(s, e)
    ensures Inv(Next(s, Calls(e)))
  {
    var t := Next(s, Calls(e));
    Steps.StepKeeps(s.server, e);
    CallsKeepMatch(s, e);
    CallsKeepStreams(s, e);
  }

  lemma CallsKeepStreams(s: Linked, e: S.Event)
    requires StreamsMatch(s) && CallsEnabled(s, e)
    ensures StreamsMatch(Next(s, Calls(e)))
  {
    var t := Next(s, Calls(e));
    OutputStays(s.server, e);
    forall i | AtWork(t.server.out) && 0 <= i < |t.server.active| ensures SameStream(t, i) {
      assert SameStream(s, i);
    }
  }

  lemma CallsKeepMatch(s: Linked, e: S.Event)
    requires I.ExecOk(s.server) && CallsMatch(s) && CallsEnabled(s, e)
    ensures CallsMatch(Next(s, Calls(e)))
  {
    var t := Next(s, Calls(e));
    forall k | 0 <= k < |t.callOf| ensures BelongsTo(t, k) {
      assert BelongsTo(s, k);
      CallStays(s.server, e, s.callOf[k]);
    }
    forall n | 0 <= n < |t.server.calls| && Offers(t.server.calls[n].phase) ensures n in t.callOf {
      CallStays(s.server, e, n);
    }
  }

  // ---------- steps of the output loop alone ----------

  // The slices are untouched, and what is new in the loop's history was there before.
  lemma LoopKeeps(s: Linked, loop: O.Loop)
    requires Inv(s) && T.Inv(loop) && loop.serverSide
    requires loop.offers == s.loop.offers && loop.got.Keys == s.loop.got.Keys && loop.limit == s.loop.limit
    requires loop.registrations == s.loop.registrations
    requires loop.done ==> s.loop.done || s.server.out.Selecting?
    ensures Inv(s.(loop := loop))
  {
    var t := s.(loop := loop);
    forall k | 0 <= k < |t.callOf| ensures BelongsTo(t, k) {
      assert BelongsTo(s, k);
    }
    forall i | AtWork(t.server.out) && 0 <= i < |t.server.active| ensures SameStream(t, i) {
      assert SameStream(s, i);
    }
  }

  lemma ForwardKeeps(s: Linked, chosen: nat, written: bool)
    requires Inv(s) && Enabled(s, Forward(chosen, written))
    ensures Inv(Next(s, Forward(chosen, written)))
  {
    T.StepKeeps(s.loop, O.Select(O.Forward(chosen, written)));
    T.ForwardAligned(s.loop, chosen, written);
    var loop := O.ForwardValue(s.loop, chosen, written);
    assert loop.got.Keys == s.loop.got.Keys;
    LoopKeeps(s, loop);
  }

  lemma MethodsKeep(s: Linked, e: Event)
    requires Inv(s) && Enabled(s, e) && (e.Methods? || e.Break?)
    ensures Inv(Next(s, e))
  {
    if e.Methods? {
      T.StepKeeps(s.loop, O.Source(e.source));
    } else {
      T.StepKeeps(s.loop, O.Link(O.Break));
    }
    LoopKeeps(s, Next(s, e).loop);
  }

  // ---------- steps of both ----------

  lemma RegisterKeeps(s: Linked, n: nat, ch: nat)
    requires Inv(s) && Enabled(s, Register(n, ch))
    ensures Inv(Next(s, Register(n, ch)))
  {
    var t := Next(s, Register(n, ch));
    Steps.StepKeeps(s.server, S.Handler(n, S.Register));
    T.StepKeeps(s.loop, O.Source(O.Offer(s.server.calls[n].id.value, ch)));
    RegisterKeepsCalls(s, n, ch);
    RegisterKeepsStreams(s, n, ch);
  }

  lemma RegisterKeepsStreams(s: Linked, n: nat, ch: nat)
    requires StreamsMatch(s) && Enabled(s, Register(n, ch))
    ensures StreamsMatch(Next(s, Register(n, ch)))
  {
    var t := Next(s, Register(n, ch));
    forall i | AtWork(t.server.out) && 0 <= i < |t.server.active| ensures SameStream(t, i) {
      assert SameStream(s, i);
    }
  }

  lemma RegisterKeepsCalls(s: Linked, n: nat, ch: nat)
    requires I.Calls(s.server) && T.OffersOk(s.loop) && CallsMatch(s) && Enabled(s, Register(n, ch))
    ensures CallsMatch(Next(s, Register(n, ch)))
  {
    var t := Next(s, Register(n, ch));
    assert I.CallOk(s.server, n, s.server.calls[n]);
    forall k | 0 <= k < |t.callOf| ensures BelongsTo(t, k) {
      assert k < |s.callOf| ==> BelongsTo(s, k);
    }
    forall k | 0 <= k < |s.callOf| ensures s.callOf[k] != n {
      assert BelongsTo(s, k);
    }
    forall m | 0 <= m < |t.server.calls| && Offers(t.server.calls[m].phase) ensures m in t.callOf {
      assert t.callOf[|s.callOf|] == n;
      if m != n {
        assert Offers(s.server.calls[m].phase) && m in s.callOf;
      }
    }
  }

  // The loop's own test never fails, so both halves accept.
  lemma DecisionFits(s: Linked)
    requires Inv(s) && s.server.out.Received?
    ensures Fits(s) && |s.server.active| < s.server.limit
  {
    I.ArrivalFits(s.server);
  }

  lemma DecideKeeps(s: Linked, k: nat, written: bool)
    requires Inv(s) && Enabled(s, Decide(k, written))
    ensures Inv(Next(s, Decide(k, written)))
  {
    DecisionFits(s);
    Steps.StepKeeps(s.server, S.Out(S.Decide));
    T.StepKeeps(s.loop, O.Select(O.Register(k, written)));
    DecideKeepsCalls(s, k, written);
    DecideKeepsStreams(s, k, written);
  }

  lemma DecideKeepsCalls(s: Linked, k: nat, written: bool)
    requires T.OffersOk(s.loop) && CallsMatch(s) && Enabled(s, Decide(k, written)) && Fits(s)
    requires |s.server.active| < s.server.limit
    ensures CallsMatch(Next(s, Decide(k, written)))
  {
    var t := Next(s, Decide(k, written));
    forall j | 0 <= j < |t.callOf| ensures BelongsTo(t, j) {
      assert BelongsTo(s, j);
      assert j != k ==> s.callOf[j] != s.callOf[k];
      assert s.loop.offers[j].chID == j + 1 && s.loop.offers[k].chID == k + 1;
    }
    forall n | 0 <= n < |t.server.calls| && Offers(t.server.calls[n].phase) ensures n in t.callOf {
      assert t.server.calls[n].phase == s.server.calls[n].phase;
    }
  }

  lemma DecideKeepsStreams(s: Linked, k: nat, written: bool)
    requires StreamsMatch(s) && Enabled(s, Decide(k, written)) && Fits(s) && s.loop.offers[k].chID == k + 1
    requires |s.server.active| < s.server.limit
    ensures StreamsMatch(Next(s, Decide(k, written)))
  {
    var t := Next(s, Decide(k, written));
    assert t.server.active == s.server.active + [s.callOf[k]];
    assert t.loop.registrations == s.loop.registrations + [s.loop.offers[k]];
    forall i | 0 <= i < |t.server.active| ensures SameStream(t, i) {
      assert i < |s.server.active| ==> SameStream(s, i);
    }
  }

  lemma RetireKeeps(s: Linked, i: nat, written: bool)
    requires Inv(s) && Enabled(s, Retire(i, written))
    ensures Inv(Next(s, Retire(i, written)))
  {
    Steps.StepKeeps(s.server, S.Out(S.StreamEnds(i)));
    T.StepKeeps(s.loop, O.Select(O.Retire(i + INTERNAL_CASES, written)));
    RetireKeepsCalls(s, i, written);
    RetireKeepsStreams(s, i, written);
  }

  lemma RetireKeepsCalls(s: Linked, i: nat, written: bool)
    requires CallsMatch(s) && Enabled(s, Retire(i, written))
    ensures CallsMatch(Next(s, Retire(i, written)))
  {
    var t := Next(s, Retire(i, written));
    forall k | 0 <= k < |t.callOf| ensures BelongsTo(t, k) {
      assert BelongsTo(s, k);
    }
  }

  lemma RetireKeepsStreams(s: Linked, i: nat, written: bool)
    requires StreamsMatch(s) && Enabled(s, Retire(i, written))
    ensures StreamsMatch(Next(s, Retire(i, written)))
  {
    var t := Next(s, Retire(i, written));
    forall j | 0 <= j < |t.server.active| ensures SameStream(t, j) {
      assert SameStream(s, if j == i then |s.server.active| - 1 else j);
    }
  }

  lemma QuitKeeps(s: Linked)
    requires Inv(s) && Enabled(s, Quit)
    ensures Inv(Next(s, Quit))
  {
    Steps.StepKeeps(s.server, S.Out(S.Quit));
    if !s.loop.done {
      T.StepKeeps(s.loop, O.Select(O.Exit));
    }
    QuitKeepsCalls(s);
  }

  lemma QuitKeepsCalls(s: Linked)
    requires CallsMatch(s) && Enabled(s, Quit)
    ensures CallsMatch(Next(s, Quit))
  {
    var t := Next(s, Quit);
    forall k | 0 <= k < |t.callOf| ensures BelongsTo(t, k) {
      assert BelongsTo(s, k);
    }
  }

  lemma StepKeeps(s: Linked, e: Event)
    requires Inv(s) && Enabled(s, e)
    ensures Inv(Next(s, e))
  {
    match e
    case Calls(x) => CallsKeep(s, x);
    case Register(n, ch) => RegisterKeeps(s, n, ch);
    case Decide(k, written) => DecideKeeps(s, k, written);
    case Retire(i, written) => RetireKeeps(s, i, written);
    case Forward(chosen, written) => ForwardKeeps(s, chosen, written);
    case Quit => QuitKeeps(s);
    case Methods(_) => MethodsKeep(s, e);
    case Break => MethodsKeep(s, e);
  }

  // ---------- every run ----------

  ghost predicate Reaches(configured: int, run: seq<Event>, s: Linked) {
    After(Init(S.EffectiveLimit(configured)), Step, run) == Some(s)
  }

  lemma LimitStays(s: Linked, e: Event)
    requires Inv(s) && Enabled(s, e)
    ensures Next(s, e).loop.limit == s.loop.limit
  {
  }

  lemma RunKeeps(configured: int, run: seq<Event>, s: Linked)
    requires Reaches(configured, run, s)
    ensures Inv(s) && s.loop.limit == S.EffectiveLimit(configured)
  {
    var limit := S.EffectiveLimit(configured);
    var inv := (u: Linked) => Inv(u) && u.loop.limit == limit;
    InitInv(limit);
    forall u, e | inv(u) && Step(u, e).Some? ensures inv(Step(u, e).value) {
      StepKeeps(u, e);
      LimitStays(u, e);
    }
    Invariant(Init(limit), Step, inv, run);
  }

  // The slice reflect.Select works on never has more than 65536 cases, whatever is configured, and an arriving
  // registration always finds room in it.
  lemma CasesBounded(configured: int, run: seq<Event>, s: Linked)
    requires Reaches(configured, run, s)
    ensures |s.loop.cases| == |s.loop.registrations| + INTERNAL_CASES <= MAX_SELECT_CASES
    ensures s.server.out.Received? ==> |s.loop.registrations| < s.loop.limit && |s.loop.cases| < MAX_SELECT_CASES
  {
    RunKeeps(configured, run, s);
    if s.server.out.Received? {
      DecisionFits(s);
    }
  }

  // While the loop is at work, case i + 2 receives from the channel of the i-th active call: a call that holds a
  // reservation, was accepted, and whose request the response named.
  lemma CasesAreActiveCalls(configured: int, run: seq<Event>, s: Linked, i: nat)
    requires Reaches(configured, run, s) && AtWork(s.server.out) && i < |s.loop.registrations|
    ensures i < |s.server.active| && s.server.active[i] < |s.server.calls| && i + INTERNAL_CASES < |s.loop.cases|
    ensures s.loop.cases[i + INTERNAL_CASES] == O.Receive(s.loop.registrations[i].ch)
    ensures var c := s.server.calls[s.server.active[i]];
            c.id == Some(s.loop.registrations[i].reqID) && c.accepted == Some(true) && I.Holds(c)
  {
    RunKeeps(configured, run, s);
    assert SameStream(s, i);
    assert T.Listed(s.loop, s.loop.registrations[i]);
    assert BelongsTo(s, s.loop.registrations[i].chID - 1);
    assert I.Registered(s.server.calls[s.server.active[i]]);
  }

  // The two halves never wait for each other: what the loop has received it can decide.
  lemma DecisionPossible(configured: int, run: seq<Event>, s: Linked)
    requires Reaches(configured, run, s) && s.server.out.Received?
    ensures exists k :: Enabled(s, Decide(k, true))
  {
    RunKeeps(configured, run, s);
    assert s.server.out.call in s.callOf;
    var k :| 0 <= k < |s.callOf| && s.callOf[k] == s.server.out.call;
    assert BelongsTo(s, k);
    assert Enabled(s, Decide(k, true));
  }
}
