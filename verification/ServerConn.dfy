/**
 wsConn's server half as the object it is: the handling table, the calls, and the subscription counter,
 updated in place. ServerRuns shows each method to be a run of ServerProtocol.
 */
module ServerConn {
  import opened Options
  import opened Runs
  import opened SelectCases
  import opened ServerProtocol
  import opened ServerInvariant
  import opened ServerRuns
  import ServerSteps
  import ServerTheorems

  class WsConn {
    const limit: int
    var calls: seq<Call>
    var handling: map<nat, nat>
    var subscriptions: int
    var failed: bool
    var exec: Executor
    var sweep: Sweep
    var out: Output
    var active: seq<nat>

    function View(): Server
      reads this
    {
      Server(limit, calls, handling, subscriptions, failed, exec, sweep, out, active)
    }

    // maxSubscriptions is clamped when the connection starts.
    constructor (configured: int)
      ensures View() == Init(EffectiveLimit(configured)) && Inv(View())
    {
      var max := configured;
      if max <= 0 {
        max := DEFAULT_MAX_SUBSCRIPTIONS;
      }
      if max > MAX_SELECT_CASES - INTERNAL_CASES {
        max := MAX_SELECT_CASES - INTERNAL_CASES;
      }
      limit := max;
      calls, handling, subscriptions, failed, active := [], map[], 0, false, [];
      exec, sweep, out := Idle, Resting, Unborn;
      new;
      InitInv(EffectiveLimit(configured));
    }

    method HandleCall(id: Option<nat>) returns (started: bool)
      modifies this`calls, this`handling
      ensures View() == Called(old(View()), id)
      ensures started <==> id == None || !failed
      // A call that is started is stored, under its identifier if it has one, and only a call it displaces is
      // cancelled.
      ensures started ==>
                && |calls| == |old(calls)| + 1
                && calls[|old(calls)|] == Call(id, Started, Live, false, 0, false, false, None)
                && handling == (if id == None then old(handling) else old(handling)[id.value := |old(calls)|])
                && forall m | 0 <= m < |old(calls)| ::
                     calls[m] == if id != None && id.value in old(handling) && old(handling)[id.value] == m
                                 then old(calls)[m].(cancelled := true) else old(calls)[m]
      ensures !started ==> calls == old(calls) && handling == old(handling)
    {
      CalledEffect(View(), id);
      var call := NewCall(id, Started);
      var n: nat := |calls|;
      if id.Some? {
        if failed {
          return false;
        }
        var key := id.value;
        var displaced := key in handling;
        var previous := if displaced then handling[key] else 0;
        handling := handling[key := n];
        if displaced {
          calls := Cancel(calls, previous);
        }
      }
      calls := calls + [call];
      started := true;
    }

    method CancelCtx(id: nat)
      modifies this`calls
      ensures View() == CancelledBy(old(View()), id)
      ensures |calls| == |old(calls)| && forall m | 0 <= m < |calls| ::
                calls[m] == if id in handling && handling[id] == m then old(calls)[m].(cancelled := true)
                            else old(calls)[m]
    {
      CancelledByEffect(View(), id);
      if id in handling {
        calls := Cancel(calls, handling[id]);
      }
    }

    // finish, which both the handler and the output loop may call.
    method FinishCall(n: nat)
      requires n < |calls|
      modifies this`calls, this`subscriptions, this`handling
      ensures View() == FinishedCall(old(View()), n)
    {
      if !calls[n].finish.Live? {
        return;
      }
      var c := calls[n];
      c := c.(cancelled := true);
      if c.reserved {
        subscriptions := subscriptions - 1;
        c := c.(releases := c.releases + 1);
      }
      if c.id.Some? && c.id.value in handling && handling[c.id.value] == n {
        handling := handling - {c.id.value};
      }
      calls := calls[n := c.(finish := Finished)];
    }

    // The second half of closeInFlight.
    method CloseHandling(final: bool)
      requires OwnIds(calls, handling)
      modifies this`calls, this`handling, this`sweep
      ensures View() == WithoutCalls(old(View()), final)
    {
      var table := handling;
      calls := MarkSwept(calls, handling);
      handling := map[];
      ghost var was, all := calls, table;
      assert all - all.Keys == map[] && CancelledAll(was, map[]) == was;
      while table != map[]
        invariant table.Keys <= all.Keys && forall id | id in table :: table[id] == all[id]
        invariant calls == CancelledAll(was, all - table.Keys)
        decreases table.Keys
        modifies this`calls
      {
        var id :| id in table;
        CancelOne(was, all - table.Keys, id, all[id]);
        MoveId(all, table, id);
        calls := Cancel(calls, table[id]);
        table := table - {id};
      }
      assert all - {} == all;
      sweep := if final then Torn else Resting;
    }

    // What other goroutines do between two operations of call n.
    method Others(n: nat, events: seq<Event>) returns (ghost run: seq<Event>)
      requires Inv(View()) && n < |calls| && calls[n].phase.Counted?
      modifies this
      ensures Inv(View()) && After(old(View()), Step, run) == Some(View())
      ensures Unmoved(old(View()), View(), n)
      ensures forall e | e in run :: e in events && !OwnStep(e, n)
      ensures events == [] ==> View() == old(View())
    {
      run := [];
      for i := 0 to |events|
        invariant Inv(View()) && After(old(View()), Step, run) == Some(View())
        invariant Unmoved(old(View()), View(), n)
        invariant forall e | e in run :: e in events && !OwnStep(e, n)
        invariant events == [] ==> View() == old(View())
      {
        if Enabled(View(), events[i]) && !OwnStep(events[i], n) {
          ghost var s := View();
          OthersLeave(s, events[i], n);
          ServerSteps.StepKeeps(s, events[i]);
          Set(Next(View(), events[i]));
          run := Advance(old(View()), Step, run, s, events[i], View());
        }
      }
    }

    method Set(t: Server)
      requires t.limit == limit
      modifies this
      ensures View() == t
    {
      calls, handling, subscriptions, failed := t.calls, t.handling, t.subscriptions, t.failed;
      exec, sweep, out, active := t.exec, t.sweep, t.out, t.active;
    }

    method Load(n: nat) returns (count: int, ghost run: seq<Event>)
      requires Inv(View()) && n < |calls| && calls[n].phase.Admitting?
      modifies this`calls
      ensures Inv(View()) && After(old(View()), Step, run) == Some(View())
      ensures count == subscriptions
      ensures calls == old(calls)[n := old(calls[n]).(phase := if count >= limit then Leaving else Counted(count))]
    {
      ghost var s := View();
      count := subscriptions;
      calls := calls[n := calls[n].(phase := if count >= limit then Leaving else Counted(count))];
      run := OwnMove(s, [], s, n, LoadCount, View());
    }

    method Swap(n: nat) returns (swapped: bool, ghost run: seq<Event>)
      requires Inv(View()) && n < |calls| && calls[n].phase.Counted?
      modifies this`calls, this`subscriptions
      ensures Inv(View()) && After(old(View()), Step, run) == Some(View())
      ensures swapped <==> old(subscriptions) == old(calls[n].phase.count)
      ensures subscriptions == old(subscriptions) + (if swapped then 1 else 0)
      ensures calls == old(calls)[n := if swapped then old(calls[n]).(phase := Admitted, reserved := true)
                                       else old(calls[n]).(phase := Admitting)]
    {
      ghost var s := View();
      var c := calls[n];
      swapped := subscriptions == c.phase.count;
      if swapped {
        calls := calls[n := c.(phase := Admitted, reserved := true)];
        subscriptions := c.phase.count + 1;
      } else {
        calls := calls[n := c.(phase := Admitting)];
      }
      run := OwnMove(s, [], s, n, CompareAndSwap, View());
    }

    /** One Load and CompareAndSwap, with whatever comes in between; `swapped` is None if the limit was reached.
        `mid` is the state after the Load, and `meanwhile` what of `between` really happened. The swap fails only if
        a step of another goroutine has changed the counter in between: so whenever one loop has to repeat, another
        has got on. */
    method TryReserve(n: nat, between: seq<Event>)
        returns (swapped: Option<bool>, ghost run: seq<Event>, ghost mid: Server, ghost meanwhile: seq<Event>)
      requires Inv(View()) && n < |calls| && calls[n].phase.Admitting? && !calls[n].reserved
      modifies this
      ensures Inv(View()) && After(old(View()), Step, run) == Some(View()) && n < |calls|
      ensures swapped.None? ==> calls[n].phase.Leaving? && !calls[n].reserved && old(subscriptions) >= limit
      ensures swapped == Some(true) ==> calls[n].phase.Admitted? && calls[n].reserved
      ensures swapped == Some(false) ==> calls[n].phase.Admitting? && !calls[n].reserved && between != []
      ensures swapped.Some? ==> old(subscriptions) < limit
      ensures forall e | e in meanwhile :: e in between && !OwnStep(e, n)
      ensures swapped == Some(false) ==>
                After(mid, Step, meanwhile).Some? && Changes(mid, Step, meanwhile, (u: Server) => u.subscriptions) > 0
    {
      ghost var start := View();
      var count, loaded := Load(n);
      run, mid, meanwhile := loaded, View(), [];
      if count >= limit {
        return None, run, mid, meanwhile;
      }
      meanwhile := Others(n, between);
      run := Join(start, Step, run, mid, meanwhile, View());
      ghost var s := View();
      var done, own := Swap(n);
      run := Join(start, Step, run, s, own, View());
      swapped := Some(done);
      if !done && Changes(mid, Step, meanwhile, (u: Server) => u.subscriptions) == 0 {
        UnchangedIsSame(mid, Step, meanwhile, (u: Server) => u.subscriptions);
      }
    }

    /** reserveSubscription for call n. `others[i]` is what other goroutines do between the Load and the
        CompareAndSwap of iteration i. A reservation is made exactly once, and however the loop is interfered with,
        the counter stays the number of holders and within the limit. */
    method ReserveSubscription(n: nat, others: seq<seq<Event>>) returns (ok: bool, ghost run: seq<Event>)
      requires Inv(View()) && n < |calls| && calls[n].phase.Started?
      modifies this
      ensures Inv(View()) && After(old(View()), Step, run) == Some(View())
      ensures n < |calls| && calls[n].reserved == ok && calls[n].phase == if ok then Admitted else Leaving
      ensures ok ==> !old(failed) && !old(calls[n].cancelled) && n in Holders(calls)
      ensures subscriptions == |Holders(calls)| <= limit
      ensures others == [] ==> ok == (!old(failed) && !old(calls[n].cancelled) && old(subscriptions) < limit)
    {
      ghost var start := View();
      StartedIsFresh(start, n);
      if failed || calls[n].cancelled {
        calls := calls[n := calls[n].(phase := Leaving)];
        run := OwnMove(start, [], start, n, RefuseReserve, View());
        CounterOk(View());
        return false, run;
      }
      calls := calls[n := calls[n].(phase := Admitting)];
      run := OwnMove(start, [], start, n, StartReserve, View());
      var i := 0;
      while true
        invariant i <= |others|
        invariant Inv(View()) && After(start, Step, run) == Some(View())
        invariant n < |calls| && calls[n].phase.Admitting? && !calls[n].reserved
        invariant others == [] ==> subscriptions == start.subscriptions
        decreases |others| - i
      {
        var between := if i < |others| then others[i] else [];
        ghost var s := View();
        var swapped, more, _, _ := TryReserve(n, between);
        run := Join(start, Step, run, s, more, View());
        if swapped.None? {
          CounterOk(View());
          return false, run;
        }
        if swapped.value {
          CounterOk(View());
          SlotsCounted(View(), n);
          return true, run;
        }
        i := i + 1;
      }
    }

    // ---------- any order ----------

    method Do(x: Action) returns (ghost run: seq<Event>)
      requires Inv(View()) && Possible(View(), x)
      modifies this
      ensures Inv(View()) && After(old(View()), Step, run) == Some(View())
    {
      ghost var s := View();
      match x
      case Accept(id) =>
        run := CalledKeeps(s, id);
        var _ := HandleCall(id);
      case XrpcCancel(id) =>
        run := CancelledByKeeps(s, id);
        CancelCtx(id);
      case Finish(n) =>
        run := [];
        if calls[n].finish.Live? {
          run := FinishedCallKeeps(s, n);
        }
        FinishCall(n);
      case Reserve(n, others) =>
        var ok, more := ReserveSubscription(n, others);
        run := more;
      case SweepCalls(final) =>
        run := WithoutCallsKeeps(s, final);
        CloseHandling(final);
      case Other(e) =>
        ServerSteps.StepKeeps(s, e);
        ServerTheorems.LimitStays(s, e);
        Set(Next(View(), e));
        run := Advance(s, Step, [], s, e, View());
    }

    // However its methods and the steps of others are ordered, the object is in a state that a run of the protocol
    // reaches.
    method Run(configured: int, xs: seq<Action>) returns (ghost run: seq<Event>)
      requires View() == Init(EffectiveLimit(configured))
      modifies this
      ensures ServerTheorems.Reaches(configured, run, View()) && Inv(View())
    {
      ghost var start := View();
      InitInv(limit);
      run := [];
      for i := 0 to |xs|
        invariant After(start, Step, run) == Some(View()) && Inv(View())
      {
        if Possible(View(), xs[i]) {
          ghost var s := View();
          ghost var more := Do(xs[i]);
          run := Join(start, Step, run, s, more, View());
        }
      }
    }
  }

  lemma CancelOne(was: seq<Call>, gone: map<nat, nat>, id: nat, n: nat)
    requires id !in gone && n < |was| && was[n].id == Some(id)
    ensures Cancel(CancelledAll(was, gone), n) == CancelledAll(was, gone[id := n])
  {
  }

  lemma MoveId(all: map<nat, nat>, left: map<nat, nat>, id: nat)
    requires left.Keys <= all.Keys && id in left
    ensures all - (left - {id}).Keys == (all - left.Keys)[id := all[id]]
  {
  }
}
