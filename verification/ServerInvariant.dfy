/** What every step of the server half keeps. */
module ServerInvariant {
  import opened Options
  import opened ServerProtocol

  // ---------- subscription slots ----------

  predicate Holds(c: Call) {
    c.reserved && (c.finish.Live? || c.finish.Stopped?)
  }

  // Calls whose reservation has not been released.
  function Holders(calls: seq<Call>): set<nat> {
    set n: nat | n < |calls| && Holds(calls[n])
  }

  ghost predicate Fresh(c: Call) {
    c.finish.Live? && c.accepted.None?
  }

  ghost predicate CallOk(s: Server, n: nat, c: Call) {
    && c.releases == (if c.reserved && !Holds(c) then 1 else 0)
    && (!c.finish.Live? ==> c.cancelled)
    && c.accepted != Some(false)
    && (c.accepted == Some(true) ==> n in s.active || OutputCleans(s, n) || c.finish.Finished?)
    && match c.phase
       case Waiting => Fresh(c) && !c.reserved
       case Started => Fresh(c) && !c.reserved
       case Admitting => Fresh(c) && !c.reserved
       case Counted(count) => Fresh(c) && !c.reserved && count < s.limit
       case Admitted => Fresh(c) && c.reserved
       case Running => Fresh(c) && !c.reserved
       case Offering => Fresh(c) && c.reserved && c.id.Some? && !s.out.Unborn?
       case HandedOver => c.reserved && c.id.Some? && (c.accepted.None? ==> s.out == Received(n))
       case Leaving => true
       case Streaming => c.reserved && c.accepted == Some(true)
       case Over => c.finish.Finished?
  }

  // A registered stream: its call holds a reservation until the output loop cleans up.
  ghost predicate Registered(c: Call) {
    c.reserved && c.finish.Live? && c.accepted == Some(true) && (c.phase.HandedOver? || c.phase.Streaming?)
  }

  ghost predicate Distinct(active: seq<nat>) {
    forall i, j | 0 <= i < j < |active| :: active[i] != active[j]
  }

  ghost predicate OutputOk(s: Server) {
    && Distinct(s.active)
    && (forall i | 0 <= i < |s.active| :: s.active[i] < |s.calls| && Registered(s.calls[s.active[i]]))
    && (s.out.Unborn? || s.out.Done? ==> s.active == [])
    && (s.out.Received? ==>
          s.out.call < |s.calls| && s.calls[s.out.call].phase.HandedOver? && s.calls[s.out.call].reserved &&
          s.calls[s.out.call].finish.Live? && s.calls[s.out.call].accepted.None?)
    && (s.out.Cleaning? || s.out.DrainCleaning? ==>
          s.out.call < |s.calls| && s.out.call !in s.active && s.calls[s.out.call].reserved &&
          s.calls[s.out.call].accepted == Some(true))
  }

  ghost predicate Accounted(s: Server) {
    s.subscriptions == |Holders(s.calls)| && s.subscriptions <= s.limit
  }

  ghost predicate Calls(s: Server) {
    forall n | 0 <= n < |s.calls| :: CallOk(s, n, s.calls[n])
  }

  ghost predicate Slots(s: Server) {
    Calls(s) && OutputOk(s) && Accounted(s)
  }

  // ---------- the handling table ----------

  ghost predicate Newest(s: Server, n: nat) {
    n < |s.calls| && s.calls[n].id.Some? && forall m | n < m < |s.calls| :: s.calls[m].id != s.calls[n].id
  }

  ghost predicate InTable(s: Server, n: nat, c: Call) {
    c.id.Some? && c.id.value in s.handling && s.handling[c.id.value] == n
  }

  // A goroutine is about to cancel call n.
  ghost predicate Owed(s: Server, n: nat, c: Call) {
    || (s.exec.Displacing? && s.exec.previous == n)
    || InSweep(s, n, c)
  }

  ghost predicate InSweep(s: Server, n: nat, c: Call) {
    s.sweep.Sweeping? && c.id.Some? && c.id.value in s.sweep.calls && s.sweep.calls[c.id.value] == n
  }

  ghost predicate TableOk(s: Server) {
    forall id | id in s.handling ::
      && Newest(s, s.handling[id])
      && s.calls[s.handling[id]].id == Some(id)
      && !s.calls[s.handling[id]].finish.Finished?
      && !s.calls[s.handling[id]].swept
  }

  ghost predicate Tracked(s: Server, n: nat, c: Call) {
    && (c.swept ==> c.cancelled || InSweep(s, n, c))
    && (c.id.Some? && !c.finish.Finished? ==> InTable(s, n, c) || c.cancelled || Owed(s, n, c))
    && (Newest(s, n) && !c.finish.Finished? && !c.swept ==> InTable(s, n, c))
    && (c.phase.Waiting? ==> s.exec.Displacing? && s.exec.call == n)
  }

  ghost predicate AllTracked(s: Server) {
    forall n | 0 <= n < |s.calls| :: Tracked(s, n, s.calls[n])
  }

  ghost predicate ExecOk(s: Server) {
    match s.exec
    case Displacing(previous, n) =>
      previous < n < |s.calls| && s.calls[n].phase.Waiting? && s.calls[previous].id.Some? &&
          s.calls[previous].id == s.calls[n].id
    case Cancelling(n) => Newest(s, n)
    case _ => true
  }

  // No call is in the table and none will be.
  ghost predicate Closed(s: Server) {
    s.failed && s.handling == map[] && !s.exec.Gate?
  }

  ghost predicate SweepOk(s: Server) {
    match s.sweep
    case Resting => true
    case Sweeping(calls, final) =>
      && (final ==> Closed(s))
      && (forall id | id in calls :: calls[id] < |s.calls| && s.calls[calls[id]].id == Some(id))
    case Torn => Closed(s)
  }

  ghost predicate Table(s: Server) {
    TableOk(s) && AllTracked(s) && ExecOk(s) && SweepOk(s)
  }

  ghost predicate Inv(s: Server) {
    Slots(s) && Table(s)
  }

  lemma InitInv(limit: int)
    requires 0 < limit
    ensures Inv(Init(limit))
  {
    assert Holders([]) == {};
  }

  // ---------- counting holders ----------

  lemma HoldersAppend(calls: seq<Call>, c: Call)
    requires !Holds(c)
    ensures Holders(calls + [c]) == Holders(calls)
  {
  }

  lemma HoldersSame(before: seq<Call>, after: seq<Call>)
    requires |before| == |after| && forall n | 0 <= n < |before| :: Holds(before[n]) == Holds(after[n])
    ensures Holders(before) == Holders(after)
  {
  }

  lemma HoldersUpdate(calls: seq<Call>, n: nat, c: Call)
    requires n < |calls|
    ensures |Holders(calls[n := c])| ==
            |Holders(calls)| - (if Holds(calls[n]) then 1 else 0) + (if Holds(c) then 1 else 0)
  {
    var rest := Holders(calls) - {n};
    assert Holders(calls) == if Holds(calls[n]) then rest + {n} else rest;
    assert Holders(calls[n := c]) == if Holds(c) then rest + {n} else rest;
  }

  // Members of a sequence without repetitions are as many as its length.
  lemma {:induction false} DistinctCount(active: seq<nat>)
    requires Distinct(active)
    ensures |set i | 0 <= i < |active| :: active[i]| == |active|
  {
    if active != [] {
      var front := active[..|active| - 1];
      DistinctCount(front);
      var all := set i | 0 <= i < |active| :: active[i];
      var fewer := set i | 0 <= i < |front| :: front[i];
      OneMore(active, front, all, fewer);
      assert active[|active| - 1] !in fewer;
    }
  }

  lemma OneMore(active: seq<nat>, front: seq<nat>, all: set<nat>, fewer: set<nat>)
    requires active != [] && front == active[..|active| - 1]
    requires all == set i | 0 <= i < |active| :: active[i]
    requires fewer == set i | 0 <= i < |front| :: front[i]
    ensures all == fewer + {active[|active| - 1]}
  {
    forall x | x in all ensures x in fewer + {active[|active| - 1]} {
      var i :| 0 <= i < |active| && active[i] == x;
      assert i < |front| ==> front[i] == x;
    }
    forall x | x in fewer ensures x in all {
      var i :| 0 <= i < |front| && front[i] == x;
      assert active[i] == x;
    }
    assert active[|active| - 1] in all;
  }

  lemma SubsetSize(a: set<nat>, b: set<nat>)
    requires a <= b
    ensures |a| <= |b|
  {
    assert b == a + (b - a);
  }

  // Active streams, and one that is arriving, hold distinct reservations.
  lemma ActiveWithinHolders(s: Server)
    requires Calls(s) && OutputOk(s)
    ensures |s.active| + (if s.out.Received? then 1 else 0) <= |Holders(s.calls)|
  {
    var streams := set i | 0 <= i < |s.active| :: s.active[i];
    DistinctCount(s.active);
    if s.out.Received? {
      SubsetSize(streams + {s.out.call}, Holders(s.calls));
    } else {
      SubsetSize(streams, Holders(s.calls));
    }
  }

  // The refusal in the output loop is unreachable.
  lemma ArrivalFits(s: Server)
    requires Slots(s) && s.out.Received?
    ensures |s.active| < s.limit
  {
    ActiveWithinHolders(s);
  }
}
