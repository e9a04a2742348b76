/** Every step of the server half keeps the invariant. */
module ServerSteps {
  import opened Options
  import opened ServerProtocol
  import opened ServerInvariant

  // ---------- slots ----------

  lemma AppendKeepsSlots(s: Server, t: Server, c: Call)
    requires Slots(s) && Fresh(c) && !c.reserved && c.releases == 0 && (c.phase.Waiting? || c.phase.Started?)
    requires t == s.(calls := s.calls + [c], handling := t.handling, exec := t.exec)
    ensures Slots(t)
  {
    HoldersAppend(s.calls, c);
  }

  // Only cancellations, sweep marks and the start of a waiting call.
  ghost predicate OnlyMarks(a: Call, b: Call) {
    || (b == a.(cancelled := b.cancelled, swept := b.swept) && (a.cancelled ==> b.cancelled))
    || (a.phase.Waiting? && b == a.(phase := Started))
  }

  lemma MarksKeepSlots(s: Server, t: Server)
    requires Slots(s)
    requires t == s.(calls := t.calls, handling := t.handling, exec := t.exec, sweep := t.sweep, failed := t.failed)
    requires |t.calls| == |s.calls| && forall n | 0 <= n < |s.calls| :: OnlyMarks(s.calls[n], t.calls[n])
    ensures Slots(t)
  {
    HoldersSame(s.calls, t.calls);
  }

  lemma ExecKeepsSlots(s: Server, e: ExecEvent)
    requires Slots(s) && ExecOk(s) && ExecEnabled(s, e)
    ensures Slots(ExecNext(s, e))
  {
    var t := ExecNext(s, e);
    if |t.calls| == |s.calls| {
      if e.CancelDisplaced? {
        MarksKeepSlots(s, s.(calls := Cancel(s.calls, s.exec.previous)));
        MarksKeepSlots(s.(calls := Cancel(s.calls, s.exec.previous)), t);
      } else {
        MarksKeepSlots(s, t);
      }
    } else {
      AppendKeepsSlots(s, t, t.calls[|s.calls|]);
    }
  }

  lemma HandlerKeepsCalls(s: Server, n: nat, e: HandlerEvent)
    requires Calls(s) && OutputOk(s) && HandlerEnabled(s, n, e)
    ensures Calls(HandlerNext(s, n, e))
  {
    var t := HandlerNext(s, n, e);
    HandlerKeepsOwn(s, n, e);
    forall m | 0 <= m < |t.calls| && m != n ensures CallOk(t, m, t.calls[m]) {
      HandlerKeepsOther(s, n, e, m);
    }
  }

  lemma HandlerKeepsOwn(s: Server, n: nat, e: HandlerEvent)
    requires n < |s.calls| && CallOk(s, n, s.calls[n]) && HandlerEnabled(s, n, e)
    ensures CallOk(HandlerNext(s, n, e), n, HandlerNext(s, n, e).calls[n])
  {
  }

  lemma HandlerKeepsOther(s: Server, n: nat, e: HandlerEvent, m: nat)
    requires m < |s.calls| && m != n && CallOk(s, m, s.calls[m]) && HandlerEnabled(s, n, e)
    ensures CallOk(HandlerNext(s, n, e), m, HandlerNext(s, n, e).calls[m])
  {
    assert HandlerNext(s, n, e).calls[m] == s.calls[m];
  }

  lemma HandlerKeepsOutput(s: Server, n: nat, e: HandlerEvent)
    requires Calls(s) && OutputOk(s) && HandlerEnabled(s, n, e)
    ensures OutputOk(HandlerNext(s, n, e))
  {
  }

  lemma HandlerKeepsSlots(s: Server, n: nat, e: HandlerEvent)
    requires Slots(s) && HandlerEnabled(s, n, e)
    ensures Slots(HandlerNext(s, n, e))
  {
    HandlerKeepsCalls(s, n, e);
    HandlerKeepsOutput(s, n, e);
    HoldersUpdate(s.calls, n, HandlerNext(s, n, e).calls[n]);
  }

  lemma FinishKeepsCalls(s: Server, n: nat, e: FinishEvent)
    requires Calls(s) && OutputOk(s) && FinishEnabled(s, n, e)
    ensures Calls(FinishNext(s, n, e)) && OutputOk(FinishNext(s, n, e))
  {
    FinishKeepsOutput(s, n, e);
    var t := FinishNext(s, n, e);
    forall m | 0 <= m < |t.calls| ensures CallOk(t, m, t.calls[m]) {
      assert CallOk(s, m, s.calls[m]);
      assert m != n ==> t.calls[m] == s.calls[m];
    }
  }

  lemma FinishKeepsOutput(s: Server, n: nat, e: FinishEvent)
    requires Calls(s) && OutputOk(s) && FinishEnabled(s, n, e)
    ensures OutputOk(FinishNext(s, n, e))
  {
    assert CallOk(s, n, s.calls[n]);
  }

  lemma FinishKeepsSlots(s: Server, n: nat, e: FinishEvent)
    requires Slots(s) && FinishEnabled(s, n, e)
    ensures Slots(FinishNext(s, n, e))
  {
    FinishKeepsCalls(s, n, e);
    HoldersUpdate(s.calls, n, FinishNext(s, n, e).calls[n]);
  }

  lemma StreamEndsKeepsSlots(s: Server, i: nat)
    requires Slots(s) && OutEnabled(s, StreamEnds(i))
    ensures Slots(OutNext(s, StreamEnds(i)))
  {
    StreamEndsKeepsOutput(s, i);
    StreamEndsKeepsCalls(s, i);
  }

  lemma StreamEndsKeepsOutput(s: Server, i: nat)
    requires OutputOk(s) && OutEnabled(s, StreamEnds(i))
    ensures OutputOk(OutNext(s, StreamEnds(i)))
  {
    var t := OutNext(s, StreamEnds(i));
    assert forall j | 0 <= j < |t.active| :: t.active[j] == if j == i then s.active[|s.active| - 1] else s.active[j];
  }

  lemma StreamEndsKeepsCalls(s: Server, i: nat)
    requires Calls(s) && OutEnabled(s, StreamEnds(i))
    ensures Calls(OutNext(s, StreamEnds(i)))
  {
    var t := OutNext(s, StreamEnds(i));
    forall n | n in s.active && n != s.active[i] ensures n in t.active {
      var j :| 0 <= j < |s.active| && s.active[j] == n;
      assert t.active[if j == |s.active| - 1 then i else j] == n;
    }
    forall n | 0 <= n < |t.calls| ensures CallOk(t, n, t.calls[n]) {
      assert CallOk(s, n, s.calls[n]);
    }
  }

  lemma DrainNextKeepsSlots(s: Server)
    requires Slots(s) && OutEnabled(s, DrainNext)
    ensures Slots(OutNext(s, DrainNext))
  {
    DrainNextKeepsCalls(s);
  }

  lemma DrainNextKeepsCalls(s: Server)
    requires Calls(s) && OutEnabled(s, DrainNext)
    ensures Calls(OutNext(s, DrainNext))
  {
    var t := OutNext(s, DrainNext);
    forall n | n in s.active && n != s.active[0] ensures n in t.active {
      var j :| 0 <= j < |s.active| && s.active[j] == n;
      assert t.active[j - 1] == n;
    }
    forall n | 0 <= n < |t.calls| ensures CallOk(t, n, t.calls[n]) {
      assert CallOk(s, n, s.calls[n]);
    }
  }

  lemma DecideKeepsSlots(s: Server)
    requires Slots(s) && OutEnabled(s, Decide)
    ensures Slots(OutNext(s, Decide))
  {
    ArrivalFits(s);
    HoldersSame(s.calls, OutNext(s, Decide).calls);
  }

  lemma HandOffKeepsSlots(s: Server, n: nat)
    requires Slots(s) && OutEnabled(s, HandOff(n))
    ensures Slots(OutNext(s, HandOff(n)))
  {
    HoldersSame(s.calls, OutNext(s, HandOff(n)).calls);
  }

  lemma OutKeepsSlots(s: Server, e: OutputEvent)
    requires Slots(s) && OutEnabled(s, e)
    ensures Slots(OutNext(s, e))
  {
    match e
    case HandOff(n) => HandOffKeepsSlots(s, n);
    case Decide => DecideKeepsSlots(s);
    case StreamEnds(i) => StreamEndsKeepsSlots(s, i);
    case DrainNext => DrainNextKeepsSlots(s);
    case _ =>
  }

  lemma CleanupKeepsSlots(s: Server, e: SweepEvent)
    requires Slots(s) && CleanupEnabled(s, e)
    ensures Slots(CleanupNext(s, e))
  {
    MarksKeepSlots(s, CleanupNext(s, e));
  }

  // ---------- the handling table ----------

  lemma NewestSame(s: Server, t: Server)
    requires |s.calls| == |t.calls| && forall n | 0 <= n < |s.calls| :: t.calls[n].id == s.calls[n].id
    ensures forall n: nat :: Newest(t, n) <==> Newest(s, n)
  {
    forall n: nat ensures Newest(t, n) <==> Newest(s, n) {
      if Newest(s, n) {
        assert forall m | n < m < |t.calls| :: t.calls[m].id == s.calls[m].id;
      }
      if Newest(t, n) {
        assert forall m | n < m < |s.calls| :: s.calls[m].id == t.calls[m].id;
      }
    }
  }

  // A step that finishes no call and cancels at most more.
  ghost predicate SameEntry(a: Call, b: Call) {
    && b.id == a.id
    && b.swept == a.swept
    && (a.cancelled ==> b.cancelled)
    && b.finish.Finished? == a.finish.Finished?
    && b.phase.Waiting? == a.phase.Waiting?
  }

  lemma TableStays(s: Server, t: Server)
    requires Table(s)
    requires |s.calls| == |t.calls| && forall n | 0 <= n < |s.calls| :: SameEntry(s.calls[n], t.calls[n])
    requires t.handling == s.handling && t.exec == s.exec && t.sweep == s.sweep && (s.failed ==> t.failed)
    ensures Table(t)
  {
    NewestSame(s, t);
  }

  lemma InsertKeepsTable(s: Server, id: nat)
    requires Table(s) && s.exec == Gate(id)
    ensures Table(InsertCall(s, id))
  {
    InsertKeepsEntries(s, id);
    InsertKeepsTracks(s, id);
  }

  // The new call is the newest with its identifier; no other identifier is concerned.
  lemma NewestAfterInsert(s: Server, id: nat)
    ensures forall n | 0 <= n < |s.calls| ::
              Newest(InsertCall(s, id), n) <==> Newest(s, n) && s.calls[n].id != Some(id)
    ensures Newest(InsertCall(s, id), |s.calls|)
  {
    var t := InsertCall(s, id);
    forall n | 0 <= n < |s.calls| ensures Newest(t, n) <==> Newest(s, n) && s.calls[n].id != Some(id) {
      assert t.calls[|s.calls|].id == Some(id);
      if Newest(s, n) && s.calls[n].id != Some(id) {
        assert forall m | n < m < |s.calls| :: t.calls[m] == s.calls[m];
      }
      if Newest(t, n) {
        assert forall m | n < m < |s.calls| :: t.calls[m] == s.calls[m];
      }
    }
  }

  lemma InsertKeepsEntries(s: Server, id: nat)
    requires TableOk(s) && SweepOk(s) && s.exec == Gate(id)
    ensures TableOk(InsertCall(s, id)) && ExecOk(InsertCall(s, id)) && SweepOk(InsertCall(s, id))
  {
    NewestAfterInsert(s, id);
  }

  lemma InsertKeepsTracks(s: Server, id: nat)
    requires AllTracked(s) && s.exec == Gate(id)
    ensures AllTracked(InsertCall(s, id))
  {
    var t := InsertCall(s, id);
    NewestAfterInsert(s, id);
    forall n | 0 <= n < |t.calls| ensures Tracked(t, n, t.calls[n]) {
      assert n < |s.calls| ==> Tracked(s, n, s.calls[n]) && t.calls[n] == s.calls[n];
    }
  }

  lemma NotifyKeepsTable(s: Server)
    requires Table(s)
    ensures Table(s.(calls := s.calls + [NewCall(None, Started)]))
  {
    var t := s.(calls := s.calls + [NewCall(None, Started)]);
    forall n | 0 <= n < |s.calls| ensures Newest(t, n) <==> Newest(s, n) {
      assert forall m | n < m < |s.calls| :: t.calls[m] == s.calls[m];
    }
  }

  lemma CancelDisplacedKeepsTable(s: Server)
    requires Table(s) && s.exec.Displacing?
    ensures Table(ExecNext(s, CancelDisplaced))
  {
    NewestSame(s, ExecNext(s, CancelDisplaced));
  }

  lemma DoCancelKeepsTable(s: Server)
    requires Table(s) && s.exec.Cancelling?
    ensures Table(ExecNext(s, DoCancel))
  {
    NewestSame(s, ExecNext(s, DoCancel));
  }

  lemma ExecKeepsTable(s: Server, e: ExecEvent)
    requires Table(s) && ExecEnabled(s, e)
    ensures Table(ExecNext(s, e))
  {
    match e
    case Arrive(id) => NotifyKeepsTable(s);
    case Insert => InsertKeepsTable(s, s.exec.id);
    case CancelDisplaced => CancelDisplacedKeepsTable(s);
    case XCancel(_) => NewestSame(s, ExecNext(s, e));
    case DoCancel => DoCancelKeepsTable(s);
  }

  lemma HandlerKeepsTable(s: Server, n: nat, e: HandlerEvent)
    requires Table(s) && HandlerEnabled(s, n, e)
    ensures Table(HandlerNext(s, n, e))
  {
    TableStays(s, HandlerNext(s, n, e));
  }

  // Removing call n from the table, if it is the one stored there, touches no other entry.
  lemma ForgetOnlyOwn(s: Server, n: nat)
    requires TableOk(s) && FinishEnabled(s, n, Forget)
    ensures TableOk(FinishNext(s, n, Forget))
    ensures forall m | 0 <= m < |s.calls| && m != n ::
              FinishNext(s, n, Forget).calls[m] == s.calls[m] &&
              (InTable(FinishNext(s, n, Forget), m, s.calls[m]) <==> InTable(s, m, s.calls[m]))
  {
    NewestSame(s, FinishNext(s, n, Forget));
  }

  lemma ForgetKeepsTable(s: Server, n: nat)
    requires Table(s) && FinishEnabled(s, n, Forget) && s.calls[n].cancelled && !s.calls[n].phase.Waiting?
    ensures Table(FinishNext(s, n, Forget))
  {
    var t := FinishNext(s, n, Forget);
    ForgetOnlyOwn(s, n);
    NewestSame(s, t);
    forall m | 0 <= m < |t.calls| ensures Tracked(t, m, t.calls[m]) {
      assert Tracked(s, m, s.calls[m]);
    }
  }

  lemma FinishKeepsTable(s: Server, n: nat, e: FinishEvent)
    requires Slots(s) && Table(s) && FinishEnabled(s, n, e)
    ensures Table(FinishNext(s, n, e))
  {
    if e.Forget? {
      ForgetKeepsTable(s, n);
    } else {
      TableStays(s, FinishNext(s, n, e));
    }
  }

  lemma OutKeepsTable(s: Server, e: OutputEvent)
    requires Slots(s) && Table(s) && OutEnabled(s, e)
    ensures Table(OutNext(s, e))
  {
    TableStays(s, OutNext(s, e));
  }

  lemma BeginSweepKeepsTable(s: Server, final: bool)
    requires Table(s) && CleanupEnabled(s, BeginSweep(final))
    ensures Table(CleanupNext(s, BeginSweep(final)))
  {
    NewestSame(s, CleanupNext(s, BeginSweep(final)));
  }

  lemma SweepOneTracks(s: Server, id: nat, m: nat)
    requires SweepOk(s) && CleanupEnabled(s, SweepOne(id)) && m < |s.calls| && Tracked(s, m, s.calls[m])
    requires Newest(CleanupNext(s, SweepOne(id)), m) <==> Newest(s, m)
    ensures Tracked(CleanupNext(s, SweepOne(id)), m, CleanupNext(s, SweepOne(id)).calls[m])
  {
    assert m != s.sweep.calls[id] ==> CleanupNext(s, SweepOne(id)).calls[m] == s.calls[m];
  }

  lemma SweepOneKeepsTable(s: Server, id: nat)
    requires Table(s) && CleanupEnabled(s, SweepOne(id))
    ensures Table(CleanupNext(s, SweepOne(id)))
  {
    var t := CleanupNext(s, SweepOne(id));
    NewestSame(s, t);
    forall m | 0 <= m < |t.calls| ensures Tracked(t, m, t.calls[m]) {
      SweepOneTracks(s, id, m);
    }
  }

  lemma CleanupKeepsTable(s: Server, e: SweepEvent)
    requires Table(s) && CleanupEnabled(s, e)
    ensures Table(CleanupNext(s, e))
  {
    match e
    case BeginSweep(final) => BeginSweepKeepsTable(s, final);
    case SweepOne(id) => SweepOneKeepsTable(s, id);
    case _ => NewestSame(s, CleanupNext(s, e));
  }

  lemma StepKeeps(s: Server, e: Event)
    requires Inv(s) && Enabled(s, e)
    ensures Inv(Next(s, e))
  {
    match e
    case Frame(f) => ExecKeepsSlots(s, f); ExecKeepsTable(s, f);
    case Handler(n, h) => HandlerKeepsSlots(s, n, h); HandlerKeepsTable(s, n, h);
    case Finishing(n, f) => FinishKeepsSlots(s, n, f); FinishKeepsTable(s, n, f);
    case Out(o) => OutKeepsSlots(s, o); OutKeepsTable(s, o);
    case Cleanup(c) => CleanupKeepsSlots(s, c); CleanupKeepsTable(s, c);
  }
}
