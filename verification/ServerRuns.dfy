/**
 What whole stretches of websocket.go do to the server half when no other goroutine comes in between, and
 that each of them is a run of ServerProtocol.
 */
module ServerRuns {
  import opened Options
  import opened Runs
  import opened ServerProtocol
  import opened ServerInvariant
  import ServerSteps

  // A run from a good state leads to a good state.
  lemma StaysGood(start: Server, run: seq<Event>, t: Server)
    requires Inv(start) && After(start, Step, run) == Some(t)
    ensures Inv(t)
  {
    forall u, e | Inv(u) && Step(u, e).Some? ensures Inv(Step(u, e).value) {
      ServerSteps.StepKeeps(u, e);
    }
    Invariant(start, Step, u => Inv(u), run);
  }

  // ---------- handleCall and cancelCtx ----------

  // A call arrives: it takes over its identifier, and the call that had it is cancelled.
  function Called(s: Server, id: Option<nat>): Server {
    var call := NewCall(id, Started);
    if id.None? then s.(calls := s.calls + [call])
    else if s.failed then s
    else
      s.(calls := (if id.value in s.handling then Cancel(s.calls, s.handling[id.value]) else s.calls) + [call],
         handling := s.handling[id.value := |s.calls|])
  }

  // The table entry and the goroutine, without the cancellation that a displaced call is owed.
  lemma InsertedIsRun(s: Server, id: nat) returns (run: seq<Event>)
    requires s.exec.Idle? && !s.failed
    ensures After(s, Step, run) == Some(InsertCall(s, id))
  {
    var u := s.(exec := Gate(id));
    assert Step(s, Frame(Arrive(Some(id)))) == Some(u);
    run := Advance(s, Step, [], s, Frame(Arrive(Some(id))), u);
    var v := InsertCall(s, id);
    assert v == InsertCall(u, id);
    assert Step(u, Frame(Insert)) == Some(v);
    run := Advance(s, Step, run, u, Frame(Insert), v);
  }

  lemma DisplacedIsStep(s: Server, id: nat)
    requires TableOk(s) && s.exec.Idle? && !s.failed && id in s.handling
    ensures Step(InsertCall(s, id), Frame(CancelDisplaced)) == Some(Called(s, Some(id)))
  {
    DisplaceParts(s, id);
  }

  lemma CalledIsRun(s: Server, id: Option<nat>) returns (run: seq<Event>)
    requires TableOk(s) && s.exec.Idle?
    ensures After(s, Step, run) == Some(Called(s, id))
  {
    if id.None? || s.failed {
      assert Step(s, Frame(Arrive(id))) == Some(Called(s, id));
      run := Advance(s, Step, [], s, Frame(Arrive(id)), Called(s, id));
    } else {
      run := InsertedIsRun(s, id.value);
      if id.value in s.handling {
        DisplacedIsStep(s, id.value);
        run := Advance(s, Step, run, InsertCall(s, id.value), Frame(CancelDisplaced), Called(s, id));
      }
    }
  }

  lemma DisplaceParts(s: Server, id: nat)
    requires TableOk(s) && id in s.handling
    ensures var n := |s.calls|;
            Start(Cancel(s.calls + [NewCall(Some(id), Waiting)], s.handling[id]), n) ==
            Cancel(s.calls, s.handling[id]) + [NewCall(Some(id), Started)]
  {
    assert s.handling[id] < |s.calls|;
  }

  function CancelledBy(s: Server, id: nat): Server {
    if id in s.handling then s.(calls := Cancel(s.calls, s.handling[id])) else s
  }

  lemma CancelledByIsRun(s: Server, id: nat) returns (run: seq<Event>)
    requires s.exec.Idle?
    ensures After(s, Step, run) == Some(CancelledBy(s, id))
  {
    run := Advance(s, Step, [], s, Frame(XCancel(id)), ExecNext(s, XCancel(id)));
    if id in s.handling {
      run := Advance(s, Step, run, s.(exec := Cancelling(s.handling[id])), Frame(DoCancel), CancelledBy(s, id));
    }
  }

  // ---------- finish ----------

  predicate InTableAs(s: Server, n: nat, id: Option<nat>) {
    id.Some? && id.value in s.handling && s.handling[id.value] == n
  }

  // The body of finish runs once; it removes the call from the table only if the table still holds this call.
  function FinishedCall(s: Server, n: nat): Server
    requires n < |s.calls|
  {
    var c := s.calls[n];
    if !c.finish.Live? then s
    else
      s.(calls := s.calls[n := c.(finish := Finished, cancelled := true,
          releases := if c.reserved then c.releases + 1 else c.releases)],
         subscriptions := if c.reserved then s.subscriptions - 1 else s.subscriptions,
         handling := if InTableAs(s, n, c.id) then s.handling - {c.id.value} else s.handling)
  }

  lemma FinishedCallIsRun(s: Server, n: nat) returns (run: seq<Event>)
    requires n < |s.calls| && !s.exec.Gate? && s.calls[n].finish.Live? &&
             (s.calls[n].phase.Leaving? || OutputCleans(s, n))
    ensures After(s, Step, run) == Some(FinishedCall(s, n))
  {
    var u := FinishNext(s, n, Stop);
    run := Advance(s, Step, [], s, Finishing(n, Stop), u);
    var v := FinishNext(u, n, Release);
    run := Advance(s, Step, run, u, Finishing(n, Release), v);
    assert FinishNext(v, n, Forget) == FinishedCall(s, n) by {
      assert v.calls == s.calls[n := v.calls[n]];
      assert FinishNext(v, n, Forget).calls == s.calls[n := FinishNext(v, n, Forget).calls[n]];
    }
    run := Advance(s, Step, run, v, Finishing(n, Forget), FinishedCall(s, n));
  }

  // ---------- the second half of closeInFlight ----------

  // Every call of a table, cancelled.
  function CancelledAll(calls: seq<Call>, table: map<nat, nat>): (r: seq<Call>)
    ensures |r| == |calls|
  {
    seq(|calls|, n requires 0 <= n < |calls| =>
      if calls[n].id.Some? && calls[n].id.value in table && table[calls[n].id.value] == n
      then calls[n].(cancelled := true) else calls[n])
  }

  ghost predicate OwnIds(calls: seq<Call>, table: map<nat, nat>) {
    forall id | id in table :: table[id] < |calls| && calls[table[id]].id == Some(id)
  }

  lemma CancelOthers(calls: seq<Call>, table: map<nat, nat>, id: nat)
    requires id in table && OwnIds(calls, table)
    ensures var next := Cancel(calls, table[id]);
            OwnIds(next, table - {id}) && CancelledAll(next, table - {id}) == CancelledAll(calls, table)
    ensures |table - {id}| < |table|
  {
    assert (table - {id}).Keys == table.Keys - {id};
  }

  function SweptCalls(s: Server, table: map<nat, nat>, final: bool): Server {
    s.(calls := CancelledAll(s.calls, table), sweep := if final then Torn else Resting)
  }

  lemma CancelOneIsStep(s: Server, table: map<nat, nat>, final: bool, id: nat)
    requires s.sweep == Sweeping(table, final) && id in table
    ensures Step(s, Cleanup(SweepOne(id))) == Some(s.(calls := Cancel(s.calls, table[id]),
            sweep := Sweeping(table - {id}, final)))
  {
  }

  // The loop at the end of closeInFlight, one call at a time and in any order.
  lemma {:induction false} SweepIsRun(s: Server, table: map<nat, nat>, final: bool) returns (run: seq<Event>)
    requires s.sweep == Sweeping(table, final) && OwnIds(s.calls, table)
    ensures After(s, Step, run) == Some(SweptCalls(s, table, final))
    decreases |table|
  {
    if table == map[] {
      assert CancelledAll(s.calls, map[]) == s.calls;
      run := Advance(s, Step, [], s, Cleanup(SweepDone), SweptCalls(s, table, final));
    } else {
      var id :| id in table;
      var u := s.(calls := Cancel(s.calls, table[id]), sweep := Sweeping(table - {id}, final));
      CancelOthers(s.calls, table, id);
      CancelOneIsStep(s, table, final, id);
      run := Advance(s, Step, [], s, Cleanup(SweepOne(id)), u);
      var more := SweepIsRun(u, table - {id}, final);
      run := Join(s, Step, run, u, more, SweptCalls(s, table, final));
    }
  }

  function WithoutCalls(s: Server, final: bool): Server {
    s.(calls := CancelledAll(MarkSwept(s.calls, s.handling), s.handling), handling := map[],
       sweep := if final then Torn else Resting)
  }

  lemma CloseHandlingIsRun(s: Server, final: bool) returns (run: seq<Event>)
    requires TableOk(s) && s.sweep.Resting? && !s.exec.Gate? && (final ==> s.failed)
    ensures After(s, Step, run) == Some(WithoutCalls(s, final))
  {
    var u := CleanupNext(s, BeginSweep(final));
    run := Advance(s, Step, [], s, Cleanup(BeginSweep(final)), u);
    var more := SweepIsRun(u, s.handling, final);
    run := Join(s, Step, run, u, more, WithoutCalls(s, final));
  }

  // ---------- reserveSubscription ----------

  predicate OwnStep(e: Event, n: nat) {
    e.Handler? && e.call == n
  }

  // Nobody but its own goroutine moves call n.
  ghost predicate Unmoved(s: Server, t: Server, n: nat) {
    n < |s.calls| && n < |t.calls| && t.calls[n].phase == s.calls[n].phase &&
        t.calls[n].reserved == s.calls[n].reserved &&
    t.limit == s.limit
  }

  lemma FramesLeave(s: Server, e: ExecEvent, n: nat)
    requires ExecOk(s) && ExecEnabled(s, e) && n < |s.calls| && !s.calls[n].phase.Waiting?
    ensures Unmoved(s, ExecNext(s, e), n)
  {
  }

  lemma OutputLeaves(s: Server, e: OutputEvent, n: nat)
    requires OutputOk(s) && OutEnabled(s, e) && n < |s.calls| && !s.calls[n].phase.Offering?
    ensures Unmoved(s, OutNext(s, e), n)
  {
  }

  lemma FinishLeaves(s: Server, m: nat, e: FinishEvent, n: nat)
    requires FinishEnabled(s, m, e) && n < |s.calls| && !s.calls[n].phase.Leaving?
    ensures Unmoved(s, FinishNext(s, m, e), n)
  {
  }

  // Between Load and CompareAndSwap no other goroutine touches the call.
  lemma OthersLeave(s: Server, e: Event, n: nat)
    requires ExecOk(s) && OutputOk(s) && Enabled(s, e) && n < |s.calls| && s.calls[n].phase.Counted? && !OwnStep(e, n)
    ensures Unmoved(s, Next(s, e), n)
  {
    match e
    case Frame(f) => FramesLeave(s, f, n);
    case Handler(_, _) =>
    case Finishing(m, f) => FinishLeaves(s, m, f, n);
    case Out(o) => OutputLeaves(s, o, n);
    case Cleanup(_) =>
  }

  // ---------- what these stretches do, in plain terms ----------

  // A call that arrives is stored as a new call and started, under its identifier if it has one; of the others only
  // one with that identifier is cancelled. On a failed connection a call with an identifier changes nothing.
  lemma CalledEffect(s: Server, id: Option<nat>)
    ensures var t, n := Called(s, id), |s.calls|;
            if id != None && s.failed then t == s
            else
              && |t.calls| == n + 1 && t.calls[n] == Call(id, Started, Live, false, 0, false, false, None)
              && (forall m | 0 <= m < n ::
                    t.calls[m] == if id != None && id.value in s.handling && s.handling[id.value] == m
                                  then s.calls[m].(cancelled := true) else s.calls[m])
              && t.handling == (if id == None then s.handling else s.handling[id.value := n])
              && t == s.(calls := t.calls, handling := t.handling)
  {
  }

  // xrpc.cancel cancels the call stored under the identifier, and no other.
  lemma CancelledByEffect(s: Server, id: nat)
    ensures var t := CancelledBy(s, id);
            && t == s.(calls := t.calls) && |t.calls| == |s.calls|
            && forall m | 0 <= m < |s.calls| ::
                 t.calls[m] == if id in s.handling && s.handling[id] == m then s.calls[m].(cancelled := true)
                               else s.calls[m]
  {
  }

  // The first finish of a call cancels it, gives its slot back and takes its own entry out of the table; a second
  // does nothing.
  lemma FinishedCallEffect(s: Server, n: nat)
    requires n < |s.calls|
    ensures var t, c := FinishedCall(s, n), s.calls[n];
            && (c.finish != Live ==> t == s)
            && (c.finish == Live ==>
                 && |t.calls| == |s.calls| && (forall m | 0 <= m < |s.calls| && m != n :: t.calls[m] == s.calls[m])
                 && t.calls[n].finish == Finished && t.calls[n].cancelled && t.calls[n].id == c.id
                 && t.calls[n].phase == c.phase && t.calls[n].reserved == c.reserved
                 && t.calls[n].releases == c.releases + (if c.reserved then 1 else 0)
                 && t.subscriptions == s.subscriptions - (if c.reserved then 1 else 0)
                 && t.handling == (if c.id != None && c.id.value in s.handling && s.handling[c.id.value] == n
                                   then s.handling - {c.id.value} else s.handling))
  {
  }

  // The sweep cancels every call in the table and no other, and empties it.
  lemma WithoutCallsEffect(s: Server, final: bool, n: nat)
    requires n < |s.calls|
    ensures var t, c := WithoutCalls(s, final), s.calls[n];
            && t.handling == map[] && |t.calls| == |s.calls| && t.subscriptions == s.subscriptions
            && (c.id != None && c.id.value in s.handling && s.handling[c.id.value] == n ==>
                 t.calls[n] == c.(cancelled := true, swept := true))
            && (!(c.id != None && c.id.value in s.handling && s.handling[c.id.value] == n) ==> t.calls[n] == c)
            && t.sweep == if final then Torn else Resting
  {
  }

  // How far a call has got.
  function Rank(p: Phase): nat {
    match p
    case Waiting => 0
    case Started => 1
    case Admitting => 2
    case Counted(_) => 3
    case Admitted => 4
    case Running => 4
    case Offering => 5
    case HandedOver => 6
    case Leaving => 7
    case Streaming => 8
    case Over => 8
  }

  // Every step of its goroutine takes a call further, except for a swap that fails because the counter has changed;
  // and no step of another call's goroutine moves it.
  lemma HandlerAdvances(s: Server, n: nat, e: HandlerEvent)
    requires HandlerEnabled(s, n, e)
    ensures var t := HandlerNext(s, n, e);
            && |t.calls| == |s.calls| && (forall m | 0 <= m < |s.calls| && m != n :: t.calls[m] == s.calls[m])
            && (Rank(t.calls[n].phase) > Rank(s.calls[n].phase) ||
                (s.calls[n].phase.Counted? && s.calls[n].phase.count != s.subscriptions &&
                    t.calls[n].phase == Admitting))
            && (t.calls[n].phase == Admitted ==> t.calls[n].reserved)
            && t.subscriptions == s.subscriptions + (if t.calls[n].phase == Admitted then 1 else 0)
  {
  }

  function FinishRank(f: Finish): nat {
    match f
    case Live => 0
    case Stopped => 1
    case Released => 2
    case Finished => 3
  }

  // Every step of finish takes it further, and then the goroutine returns.
  lemma FinishAdvances(s: Server, n: nat, e: FinishEvent)
    requires FinishEnabled(s, n, e)
    ensures var c, d := s.calls[n], FinishNext(s, n, e).calls[n];
            if e == Return then c.finish == Finished && d.phase == Over
            else FinishRank(d.finish) == FinishRank(c.finish) + 1 && d.phase == c.phase
  {
    match e
    case Stop =>
    case Release =>
    case Forget =>
    case Return =>
  }

  // ---------- the invariant over whole stretches ----------

  lemma CalledKeeps(s: Server, id: Option<nat>) returns (run: seq<Event>)
    requires Inv(s) && s.exec.Idle?
    ensures After(s, Step, run) == Some(Called(s, id)) && Inv(Called(s, id))
  {
    run := CalledIsRun(s, id);
    StaysGood(s, run, Called(s, id));
  }

  lemma CancelledByKeeps(s: Server, id: nat) returns (run: seq<Event>)
    requires Inv(s) && s.exec.Idle?
    ensures After(s, Step, run) == Some(CancelledBy(s, id)) && Inv(CancelledBy(s, id))
  {
    run := CancelledByIsRun(s, id);
    StaysGood(s, run, CancelledBy(s, id));
  }

  // Finishing a call releases its slot, cancels it, and leaves the table to its successor if it has one.
  lemma FinishedCallKeeps(s: Server, n: nat) returns (run: seq<Event>)
    requires Inv(s) && n < |s.calls| && !s.exec.Gate? && s.calls[n].finish.Live?
    requires s.calls[n].phase.Leaving? || OutputCleans(s, n)
    ensures After(s, Step, run) == Some(FinishedCall(s, n)) && Inv(FinishedCall(s, n))
    ensures n !in Holders(FinishedCall(s, n).calls) && FinishedCall(s, n).calls[n].cancelled
  {
    run := FinishedCallIsRun(s, n);
    StaysGood(s, run, FinishedCall(s, n));
  }

  lemma WithoutCallsKeeps(s: Server, final: bool) returns (run: seq<Event>)
    requires Inv(s) && s.sweep.Resting? && !s.exec.Gate? && (final ==> s.failed)
    ensures After(s, Step, run) == Some(WithoutCalls(s, final)) && Inv(WithoutCalls(s, final))
  {
    run := CloseHandlingIsRun(s, final);
    StaysGood(s, run, WithoutCalls(s, final));
  }

  // ---------- any order of such stretches ----------

  // `others` is what other goroutines do inside of the loop of reserveSubscription; Other is a single step of anybody.
  datatype Action =
    | Accept(id: Option<nat>)
    | XrpcCancel(target: nat)
    | Finish(n: nat)
    | Reserve(n: nat, others: seq<seq<Event>>)
    | SweepCalls(final: bool)
    | Other(event: Event)

  predicate Possible(s: Server, x: Action) {
    match x
    case Accept(_) => s.exec.Idle?
    case XrpcCancel(_) => s.exec.Idle?
    case Finish(n) => n < |s.calls| && !s.exec.Gate? && (s.calls[n].phase.Leaving? || OutputCleans(s, n))
    case Reserve(n, _) => n < |s.calls| && s.calls[n].phase.Started?
    case SweepCalls(final) => s.sweep.Resting? && !s.exec.Gate? && (final ==> s.failed)
    case Other(e) => Enabled(s, e)
  }

  // ---------- the compare-and-swap loop ----------

  // The goroutine of call n takes its own next step.
  lemma OwnMove(start: Server, run: seq<Event>, s: Server, n: nat, e: HandlerEvent,
      t: Server) returns (longer: seq<Event>)
    requires Inv(s) && After(start, Step, run) == Some(s)
    requires Step(s, Handler(n, e)) == Some(t)
    ensures After(start, Step, longer) == Some(t) && Inv(t)
  {
    longer := Advance(start, Step, run, s, Handler(n, e), t);
    ServerSteps.StepKeeps(s, Handler(n, e));
  }

  lemma SlotsCounted(s: Server, n: nat)
    requires Inv(s) && n < |s.calls| && s.calls[n].phase.Admitted?
    ensures n in Holders(s.calls)
  {
    assert CallOk(s, n, s.calls[n]);
  }

  lemma CounterOk(s: Server)
    requires Inv(s)
    ensures s.subscriptions == |Holders(s.calls)| <= s.limit
  {
  }

  lemma StartedIsFresh(s: Server, n: nat)
    requires Inv(s) && n < |s.calls| && s.calls[n].phase.Started?
    ensures !s.calls[n].reserved
  {
    assert CallOk(s, n, s.calls[n]);
  }
}
