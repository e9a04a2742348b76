/**
 The mutexes of a connection. Every critical section is the list of lock operations its code performs;
 any number of goroutines run any sections, interleaved at single operations. sync.Once blocks later
 callers until the first is done, so it counts as a lock.
 */
module LockOrder {
  import opened Options
  import opened Runs

  datatype Lock =
    | WriteLk
    | ConnMu
    | ErrLk
    | InflightLk
    | ChanHandlersLk
    | HandlerLk(sink: nat)
    | HandlingLk
    | FailOnce
    | FinishOnce(call: nat)
    | ReleaseOnce(call: nat)
    | SpawnOnce

  // Locks are taken in increasing rank.
  function Rank(l: Lock): (r: nat)
    ensures r <= 3
  {
    match l
    case WriteLk => 0
    case FailOnce => 0
    case FinishOnce(_) => 0
    case SpawnOnce => 0
    case ConnMu => 1
    case ErrLk => 1
    case InflightLk => 1
    case HandlingLk => 1
    case ReleaseOnce(_) => 1
    case ChanHandlersLk => 2
    case HandlerLk(_) => 3
  }

  datatype Ops = Done | Acquire(lock: Lock, rest: Ops) | Release(lock: Lock, rest: Ops)

  // The critical sections, as they nest in the code.
  datatype Section =
    | UseWriter              // nextWriter, sendRequest and the ping goroutine
    | ReadError              // nextMessage, and the event loop reading incomingErr
    | Ready                  // a request with an identifier, until it is in the table
    | Refused                // the same when the connection has an error
    | TableAccess            // unstoring a request; the first lookup of handleResponse
    | Respond                // handleResponse without a channel, or finding the request gone
    | RespondWithSink        // handleResponse publishing a sink
    | ChannelFrame(sink: nat)// handleChanMessage and handleChanClose: hand over hand
    | UnknownChannel         // the same for a channel that is not there, and the swap in closeChans
    | CloseSink(sink: nat)   // closeChans, one handler at a time
    | CallTable              // handleCall, cancelCtx, the swap in closeInFlight
    | CloseTransport         // closeTransport and the stop case
    | Fail
    | Install                // tryReconnect replacing the connection
    | Discard                // the same when the client has failed or was stopped meanwhile
    | FinishCall(call: nat)
    | SpawnOutput

  function Script(s: Section): Ops {
    match s
    case UseWriter => Acquire(WriteLk, Release(WriteLk, Done))
    case ReadError => Acquire(ErrLk, Release(ErrLk, Done))
    case Ready => Acquire(WriteLk, Acquire(ErrLk, Release(ErrLk,
                  Acquire(InflightLk, Release(InflightLk, Release(WriteLk, Done))))))
    case Refused => Acquire(WriteLk, Acquire(ErrLk, Release(ErrLk, Release(WriteLk, Done))))
    case TableAccess => Acquire(InflightLk, Release(InflightLk, Done))
    case Respond => Acquire(InflightLk, Release(InflightLk, Done))
    case RespondWithSink => Acquire(InflightLk, Acquire(ChanHandlersLk,
                            Release(ChanHandlersLk, Release(InflightLk, Done))))
    case ChannelFrame(k) => Acquire(ChanHandlersLk, Acquire(HandlerLk(k),
                            Release(ChanHandlersLk, Release(HandlerLk(k), Done))))
    case UnknownChannel => Acquire(ChanHandlersLk, Release(ChanHandlersLk, Done))
    case CloseSink(k) => Acquire(HandlerLk(k), Release(HandlerLk(k), Done))
    case CallTable => Acquire(HandlingLk, Release(HandlingLk, Done))
    case CloseTransport => Acquire(ConnMu, Release(ConnMu, Done))
    case Fail => Acquire(FailOnce, Acquire(ConnMu, Release(ConnMu, Release(FailOnce, Done))))
    case Install => Acquire(WriteLk, Acquire(ConnMu, Release(ConnMu,
                    Acquire(ErrLk, Release(ErrLk, Release(WriteLk, Done))))))
    case Discard => Acquire(WriteLk, Acquire(ConnMu, Release(ConnMu, Release(WriteLk, Done))))
    case FinishCall(n) => Acquire(FinishOnce(n), Acquire(ReleaseOnce(n), Release(ReleaseOnce(n),
                          Acquire(HandlingLk, Release(HandlingLk, Release(FinishOnce(n), Done))))))
    case SpawnOutput => Acquire(SpawnOnce, Release(SpawnOnce, Done))
  }

  // The locks a section takes, each with those it holds at that moment.
  function Taken(ops: Ops, held: set<Lock>): seq<(Lock, set<Lock>)> {
    match ops
    case Done => []
    case Acquire(l, rest) => [(l, held)] + Taken(rest, held + {l})
    case Release(l, rest) => Taken(rest, held - {l})
  }

  // What every section takes, and inside of what: in particular the table lock is held while a sink is published,
  // and a handler's lock is taken before the lock of the handler table is given back.
  lemma SectionsTake(s: Section)
    ensures match s
            case UseWriter => Taken(Script(s), {}) == [(WriteLk, {})]
            case ReadError => Taken(Script(s), {}) == [(ErrLk, {})]
            case Ready => Taken(Script(s), {}) == [(WriteLk, {}), (ErrLk, {WriteLk}), (InflightLk, {WriteLk})]
            case Refused => Taken(Script(s), {}) == [(WriteLk, {}), (ErrLk, {WriteLk})]
            case TableAccess => Taken(Script(s), {}) == [(InflightLk, {})]
            case Respond => Taken(Script(s), {}) == [(InflightLk, {})]
            case RespondWithSink => Taken(Script(s), {}) == [(InflightLk, {}), (ChanHandlersLk, {InflightLk})]
            case ChannelFrame(k) => Taken(Script(s), {}) == [(ChanHandlersLk, {}), (HandlerLk(k), {ChanHandlersLk})]
            case UnknownChannel => Taken(Script(s), {}) == [(ChanHandlersLk, {})]
            case CloseSink(k) => Taken(Script(s), {}) == [(HandlerLk(k), {})]
            case CallTable => Taken(Script(s), {}) == [(HandlingLk, {})]
            case CloseTransport => Taken(Script(s), {}) == [(ConnMu, {})]
            case Fail => Taken(Script(s), {}) == [(FailOnce, {}), (ConnMu, {FailOnce})]
            case Install => Taken(Script(s), {}) == [(WriteLk, {}), (ConnMu, {WriteLk}), (ErrLk, {WriteLk})]
            case Discard => Taken(Script(s), {}) == [(WriteLk, {}), (ConnMu, {WriteLk})]
            case FinishCall(n) =>
              Taken(Script(s), {}) ==
                [(FinishOnce(n), {}), (ReleaseOnce(n), {FinishOnce(n)}), (HandlingLk, {FinishOnce(n)})]
            case SpawnOutput => Taken(Script(s), {}) == [(SpawnOnce, {})]
  {
    match s
    case Ready => TwoInside(WriteLk, ErrLk, InflightLk);
    case Refused => OneInside(WriteLk, ErrLk);
    case RespondWithSink => OneInside(InflightLk, ChanHandlersLk);
    case ChannelFrame(k) => HandedOver(ChanHandlersLk, HandlerLk(k));
    case Fail => OneInside(FailOnce, ConnMu);
    case Install => TwoInside(WriteLk, ConnMu, ErrLk);
    case Discard => OneInside(WriteLk, ConnMu);
    case FinishCall(n) => TwoInside(FinishOnce(n), ReleaseOnce(n), HandlingLk);
    case CloseSink(k) => Single(HandlerLk(k));
    case _ =>
  }

  lemma Single(l: Lock)
    ensures Taken(Acquire(l, Release(l, Done)), {}) == [(l, {})]
  {
    assert Taken(Release(l, Done), {} + {l}) == [];
  }

  // A lock taken and released inside of another leaves the other alone held.
  lemma Inside(outer: Lock, inner: Lock, rest: Ops)
    requires inner != outer
    ensures Taken(Acquire(inner, Release(inner, rest)), {outer}) == [(inner, {outer})] + Taken(rest, {outer})
  {
    assert ({outer} + {inner}) - {inner} == {outer};
  }

  lemma Whole(outer: Lock, rest: Ops)
    ensures Taken(Acquire(outer, rest), {}) == [(outer, {})] + Taken(rest, {outer})
  {
    assert {} + {outer} == {outer};
  }

  lemma OneInside(outer: Lock, inner: Lock)
    requires inner != outer
    ensures Taken(Acquire(outer, Acquire(inner, Release(inner, Release(outer, Done)))), {}) ==
            [(outer, {}), (inner, {outer})]
  {
    Whole(outer, Acquire(inner, Release(inner, Release(outer, Done))));
    Inside(outer, inner, Release(outer, Done));
  }

  lemma TwoInside(outer: Lock, first: Lock, second: Lock)
    requires first != outer && second != outer
    ensures Taken(Acquire(outer, Acquire(first, Release(first,
                  Acquire(second, Release(second, Release(outer, Done)))))), {}) ==
            [(outer, {}), (first, {outer}), (second, {outer})]
  {
    var rest := Acquire(second, Release(second, Release(outer, Done)));
    Whole(outer, Acquire(first, Release(first, rest)));
    Inside(outer, first, rest);
    Inside(outer, second, Release(outer, Done));
  }

  lemma HandedOver(first: Lock, second: Lock)
    ensures Taken(Acquire(first, Acquire(second, Release(first, Release(second, Done)))), {}) ==
            [(first, {}), (second, {first})]
  {
    var held := {first} + {second};
    Whole(first, Acquire(second, Release(first, Release(second, Done))));
    assert Taken(Release(second, Done), held - {first}) == [];
    assert Taken(Release(first, Release(second, Done)), held) == [];
  }

  // Starting with `held`, the operations take locks in increasing rank, release only what they hold, and end with
  // nothing.
  ghost predicate Ranked(ops: Ops, held: set<Lock>) {
    match ops
    case Done => held == {}
    case Acquire(l, rest) => (forall h | h in held :: Rank(h) < Rank(l)) && Ranked(rest, held + {l})
    case Release(l, rest) => l in held && Ranked(rest, held - {l})
  }

  lemma AcquireOk(l: Lock, rest: Ops, held: set<Lock>)
    requires (forall h | h in held :: Rank(h) < Rank(l)) && Ranked(rest, held + {l})
    ensures Ranked(Acquire(l, rest), held)
  {
  }

  lemma ReleaseOk(l: Lock, rest: Ops, held: set<Lock>, left: set<Lock>)
    requires held == left + {l} && l !in left && Ranked(rest, left)
    ensures Ranked(Release(l, rest), held)
  {
    assert held - {l} == left;
  }

  // One lock around ranked operations.
  lemma Around(outer: Lock, inner: Lock, rest: Ops)
    requires Rank(outer) < Rank(inner) && Ranked(rest, {outer})
    ensures Ranked(Acquire(inner, Release(inner, rest)), {outer})
  {
    ReleaseOk(inner, rest, {outer} + {inner}, {outer});
    AcquireOk(inner, Release(inner, rest), {outer});
  }

  lemma Alone(l: Lock)
    ensures Ranked(Release(l, Done), {l})
  {
    ReleaseOk(l, Done, {l}, {});
  }

  lemma Outer(l: Lock, rest: Ops)
    requires Ranked(rest, {l})
    ensures Ranked(Acquire(l, rest), {})
  {
    assert {} + {l} == {l};
  }

  lemma HandOverHand(first: Lock, second: Lock)
    requires Rank(first) < Rank(second)
    ensures Ranked(Acquire(second, Release(first, Release(second, Done))), {first})
  {
    Alone(second);
    ReleaseOk(first, Release(second, Done), {first} + {second}, {second});
    AcquireOk(second, Release(first, Release(second, Done)), {first});
  }

  // Every critical section of the connection follows the rank.
  lemma SectionsRanked(s: Section)
    ensures Ranked(Script(s), {})
  {
    match Script(s)
    case Acquire(outer, rest) =>
      Alone(outer);
      match s {
        case Ready =>
          Around(outer, InflightLk, Release(outer, Done));
          Around(outer, ErrLk, Acquire(InflightLk, Release(InflightLk, Release(outer, Done))));
        case Refused => Around(outer, ErrLk, Release(outer, Done));
        case RespondWithSink => Around(outer, ChanHandlersLk, Release(outer, Done));
        case ChannelFrame(k) => HandOverHand(outer, HandlerLk(k));
        case Fail => Around(outer, ConnMu, Release(outer, Done));
        case Install =>
          Around(outer, ErrLk, Release(outer, Done));
          Around(outer, ConnMu, Acquire(ErrLk, Release(ErrLk, Release(outer, Done))));
        case Discard => Around(outer, ConnMu, Release(outer, Done));
        case FinishCall(n) =>
          Around(outer, HandlingLk, Release(outer, Done));
          Around(outer, ReleaseOnce(n), Acquire(HandlingLk, Release(HandlingLk, Release(outer, Done))));
        case _ =>
      }
      Outer(outer, rest);
  }

  // ---------- goroutines ----------

  datatype Thread = Thread(todo: Ops, held: set<Lock>)

  datatype Event = Spawn | Enter(thread: nat, section: Section) | Proceed(thread: nat)

  predicate Free(s: seq<Thread>, l: Lock) {
    forall i | 0 <= i < |s| :: l !in s[i].held
  }

  predicate Enabled(s: seq<Thread>, e: Event) {
    match e
    case Spawn => true
    case Enter(i, _) => i < |s| && s[i].todo.Done?
    case Proceed(i) => i < |s| && !s[i].todo.Done? && (s[i].todo.Acquire? ==> Free(s, s[i].todo.lock))
  }

  function Next(s: seq<Thread>, e: Event): seq<Thread>
    requires Enabled(s, e)
  {
    match e
    case Spawn => s + [Thread(Done, {})]
    case Enter(i, section) => s[i := Thread(Script(section), s[i].held)]
    case Proceed(i) =>
      if s[i].todo.Acquire? then s[i := Thread(s[i].todo.rest, s[i].held + {s[i].todo.lock})]
      else s[i := Thread(s[i].todo.rest, s[i].held - {s[i].todo.lock})]
  }

  function Step(s: seq<Thread>, e: Event): Option<seq<Thread>> {
    if Enabled(s, e) then Some(Next(s, e)) else None
  }

  ghost predicate Inv(s: seq<Thread>) {
    && (forall i | 0 <= i < |s| :: Ranked(s[i].todo, s[i].held))
    && (forall i, j | 0 <= i < j < |s| :: s[i].held !! s[j].held)
  }

  lemma StepKeeps(s: seq<Thread>, e: Event)
    requires Inv(s) && Enabled(s, e)
    ensures Inv(Next(s, e))
  {
    if e.Enter? {
      SectionsRanked(e.section);
      assert s[e.thread].held == {};
    }
  }

  lemma RunKeeps(run: seq<Event>, s: seq<Thread>)
    requires After([], Step, run) == Some(s)
    ensures Inv(s)
  {
    forall u, e | Inv(u) && Step(u, e).Some? ensures Inv(Step(u, e).value) {
      StepKeeps(u, e);
    }
    Invariant([], Step, u => Inv(u), run);
  }

  // A lock is held by one goroutine at a time.
  lemma MutualExclusion(run: seq<Event>, s: seq<Thread>, i: nat, j: nat, l: Lock)
    requires After([], Step, run) == Some(s) && i < |s| && j < |s| && l in s[i].held && l in s[j].held
    ensures i == j
  {
    RunKeeps(run, s);
  }

  // Goroutine i waits for a lock that goroutine j holds.
  ghost predicate WaitsFor(s: seq<Thread>, i: nat, j: nat) {
    i < |s| && j < |s| && s[i].todo.Acquire? && s[i].todo.lock in s[j].held
  }

  // From any waiting goroutine, following waits inside a set leads out of it.
  lemma {:induction false} WaitsLeadOut(s: seq<Thread>, waiting: set<nat>, i: nat)
    requires Inv(s) && i in waiting
    requires i < |s| && s[i].todo.Acquire?
    ensures exists k :: k in waiting && forall j | j in waiting :: !WaitsFor(s, k, j)
    decreases 3 - Rank(s[i].todo.lock)
  {
    if j :| j in waiting && WaitsFor(s, i, j) {
      assert Ranked(s[j].todo, s[j].held);
      if s[j].todo.Acquire? {
        WaitsLeadOut(s, waiting, j);
      }
    }
  }

  // No reachable state has a cycle of lock waits: in every set of goroutines, one does not wait for another of the set.
  lemma NoDeadlock(run: seq<Event>, s: seq<Thread>, waiting: set<nat>)
    requires After([], Step, run) == Some(s) && waiting != {}
    ensures exists k :: k in waiting && forall j | j in waiting :: !WaitsFor(s, k, j)
  {
    RunKeeps(run, s);
    var i :| i in waiting;
    if i < |s| && s[i].todo.Acquire? {
      WaitsLeadOut(s, waiting, i);
    }
  }

  // While any goroutine is inside a critical section, one of them can perform its next operation.
  lemma {:induction false} SomeoneProceeds(s: seq<Thread>, i: nat)
    requires Inv(s) && i < |s| && !s[i].todo.Done?
    ensures exists k: nat :: k < |s| && !s[k].todo.Done? && Enabled(s, Proceed(k))
    decreases if s[i].todo.Acquire? then 3 - Rank(s[i].todo.lock) else 0, if s[i].todo.Acquire? then 1 else 0
  {
    if Enabled(s, Proceed(i)) {
    } else {
      var j :| 0 <= j < |s| && s[i].todo.lock in s[j].held;
      assert Ranked(s[j].todo, s[j].held);
      if s[j].todo.Release? {
        assert Enabled(s, Proceed(j));
      } else {
        SomeoneProceeds(s, j);
      }
    }
  }

  lemma NeverStuck(run: seq<Event>, s: seq<Thread>, i: nat)
    requires After([], Step, run) == Some(s) && i < |s| && !s[i].todo.Done?
    ensures exists k: nat :: k < |s| && !s[k].todo.Done? && Enabled(s, Proceed(k))
  {
    RunKeeps(run, s);
    SomeoneProceeds(s, i);
  }
}
