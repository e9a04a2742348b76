/** handleOutChans itself: the two slices, changed in place, and the loop over whatever reflect.Select chooses. */
module OutChans {
  import opened Options
  import opened Runs
  import opened Slices
  import opened SelectCases
  import opened OutputLoop
  import T = OutputTheorems

  function CleanupsOf(registrations: seq<Registration>): (r: seq<nat>)
    ensures |r| == |registrations|
  {
    seq(|registrations|, i requires 0 <= i < |registrations| => registrations[i].chID)
  }

  // ---------- what an iteration does, in plain terms ----------

  // A write goes out exactly if the connection works and goes on working; after one that fails, none does.
  lemma WriteEffect(s: Loop, m: Msg, written: bool)
    ensures var t := Write(s, m, written);
            && t.tried == s.tried + [m] && t == s.(tried := t.tried, log := t.log, broken := t.broken)
            && t.broken == (s.broken || !written)
            && t.log == (if t.broken then s.log else s.log + [m])
  {
  }

  // A registration: both slices grow by the same stream, and its response is sent with its channel and request
  // identifiers.
  lemma RegisterEffect(s: Loop, r: Registration, written: bool)
    ensures var t := RegisterStream(s, r, written);
            && t.registrations == s.registrations + [r] && t.cases == s.cases + [Receive(r.ch)]
            && t.tried == s.tried + [Opened(r.chID, r.reqID)] && t.broken == (s.broken || !written)
            && t.log == (if t.broken then s.log else s.log + [Opened(r.chID, r.reqID)])
            && t.done == s.done && t.chans == s.chans && t.ended == s.ended
  {
  }

  // A value: it is taken from the chosen channel for the stream at the same position, and sent under its channel ID
  // if it encodes; a server whose write fails leaves the loop, and nothing else does so.
  lemma ForwardEffect(s: Loop, chosen: nat, written: bool)
    requires SelectEnabled(s, Forward(chosen, written))
    ensures var t, ch, id := ForwardValue(s, chosen, written), s.cases[chosen].ch,
            s.registrations[chosen - INTERNAL_CASES].chID;
            var item := s.chans[ch].written[s.chans[ch].Taken()];
            && t.cases == s.cases && t.registrations == s.registrations && t.ended == s.ended
            && |t.chans| == |s.chans| && (forall d | 0 <= d < |s.chans| && d != ch :: t.chans[d] == s.chans[d])
            && t.chans[ch].takers == s.chans[ch].takers + [id] && t.chans[ch].written == s.chans[ch].written
            && t.tried == (if item.encodes then s.tried + [Value(id, item)] else s.tried)
            && t.broken == (s.broken || (item.encodes && !written))
            && t.log == (if item.encodes && !t.broken then s.log + [Value(id, item)] else s.log)
            && (t.done <==> s.serverSide && item.encodes && t.broken)
  {
  }

  // The end of a stream: its entries leave both slices, and its close is sent.
  lemma RetireEffect(s: Loop, chosen: nat, written: bool)
    requires SelectEnabled(s, Retire(chosen, written))
    ensures var t, c := RetireStream(s, chosen, written), s.registrations[chosen - INTERNAL_CASES].chID;
            && |t.cases| == |s.cases| - 1 && |t.registrations| == |s.registrations| - 1
            && (forall j | 0 <= j < |t.cases| :: t.cases[j] == if j ==
                chosen then s.cases[|s.cases| - 1] else s.cases[j])
            && (forall j | 0 <= j < |t.registrations| ::
                  t.registrations[j] == if j == chosen - INTERNAL_CASES then s.registrations[|s.registrations| - 1]
                                        else s.registrations[j])
            && t.ended == s.ended + {c} && t.tried == s.tried + [Ended(c)] && t.broken == (s.broken || !written)
            && t.log == (if t.broken then s.log else s.log + [Ended(c)]) && t.done == s.done
  {
  }

  // A loop that is told to quit does, whatever it holds.
  lemma ExitEffect(s: Loop)
    ensures SelectEnabled(s, Exit) <==> !s.done
    ensures !s.done ==> SelectNext(s, Exit) == s.(done := true)
  {
  }

  // What methods do to their channels, and what becomes of the connection.
  lemma ElsewhereEffect(s: Loop, e: Event)
    requires Enabled(s, e) && !e.Select?
    ensures var t := Next(s, e);
            match e
            case Source(MakeChan) => t == s.(chans := s.chans + [Chan([], [], false)])
            case Source(SendItem(ch, item)) =>
              t == s.(chans := t.chans) && |t.chans| == |s.chans| &&
                  t.chans[ch].written == s.chans[ch].written + [item] &&
              t.chans[ch].takers == s.chans[ch].takers &&
              forall d | 0 <= d < |s.chans| && d != ch :: t.chans[d] == s.chans[d]
            case Source(CloseChan(ch)) =>
              t == s.(chans := t.chans) && |t.chans| == |s.chans| && t.chans[ch].closed &&
              t.chans[ch].written == s.chans[ch].written && t.chans[ch].takers == s.chans[ch].takers &&
              forall d | 0 <= d < |s.chans| && d != ch :: t.chans[d] == s.chans[d]
            case Source(Offer(reqID, ch)) =>
              t == s.(offers := s.offers + [Registration(reqID, |s.offers| + 1, ch)])
            case Link(Break) => t == s.(broken := true)
            case Link(Reconnect) => t == s.(base := |s.tried|, log := [], broken := false)
  {
  }

  class OutLoop {
    const serverSide: bool
    const limit: int
    var cases: seq<Case>
    var registrations: seq<Registration>
    var chans: seq<Chan>
    var offers: seq<Registration>
    var got: map<nat, seq<Item>>
    var ended: set<nat>
    var tried: seq<Msg>
    var base: nat
    var log: seq<Msg>
    var broken: bool
    var done: bool

    function View(): Loop
      reads this
    {
      Loop(serverSide, limit, cases, registrations, chans, offers, got, ended, tried, base, log, broken, done)
    }

    constructor (serverSide: bool, limit: int)
      ensures View() == Init(serverSide, limit)
    {
      this.serverSide, this.limit := serverSide, limit;
      cases := [RegisterCase, ExitCase];
      registrations, chans, offers, tried, log := [], [], [], [], [];
      got, ended, base, broken, done := map[], {}, 0, false, false;
    }

    // A write to the connection, which may break it.
    method Send(m: Msg, written: bool) returns (failed: bool)
      modifies this`tried, this`log, this`broken
      ensures View() == Write(old(View()), m, written)
      ensures failed == broken
    {
      tried := tried + [m];
      if !broken && written {
        log := log + [m];
      } else {
        broken := true;
      }
      failed := broken;
    }

    // Case 0: a registration arrives. A full table refuses it and changes nothing.
    method Accept(r: Registration, written: bool) returns (accepted: bool)
      modifies this`cases, this`registrations, this`got, this`tried, this`log, this`broken
      ensures accepted <==> |old(registrations)| < limit
      ensures View() == if accepted then RegisterStream(old(View()), r, written) else old(View())
    {
      if |registrations| >= limit {
        return false;
      }
      registrations := registrations + [r];
      cases := cases + [Receive(r.ch)];
      got := got[r.chID := []];
      var _ := Send(Opened(r.chID, r.reqID), written);
      accepted := true;
    }

    // A value arrives on the chosen channel.
    method ForwardMessage(chosen: nat, written: bool)
      requires SelectEnabled(View(), Forward(chosen, written))
      modifies this`chans, this`got, this`tried, this`log, this`broken, this`done
      ensures View() == ForwardValue(old(View()), chosen, written)
      // A server leaves the loop if the write of a value fails, and only then.
      ensures var ch := old(cases)[chosen].ch;
              var item := old(chans)[ch].written[old(chans)[ch].Taken()];
              done <==> serverSide && item.encodes && (old(broken) || !written)
    {
      ForwardEffect(View(), chosen, written);
      var ch := cases[chosen].ch;
      var item := chans[ch].written[chans[ch].Taken()];
      var id := registrations[chosen - INTERNAL_CASES].chID;
      chans := chans[ch := chans[ch].(takers := chans[ch].takers + [id])];
      got := got[id := (if id in got then got[id] else []) + [item]];
      if !item.encodes {
        return;
      }
      var failed := Send(Value(id, item), written);
      if failed && serverSide {
        done := true;
      }
    }

    // The chosen channel is closed: the last entries of both slices move into its place.
    method RetireChannel(chosen: nat, written: bool) returns (cleaned: nat)
      requires SelectEnabled(View(), Retire(chosen, written)) && |cases| == |registrations| + INTERNAL_CASES
      modifies this`cases, this`registrations, this`ended, this`tried, this`log, this`broken
      ensures View() == RetireStream(old(View()), chosen, written)
      ensures cleaned == old(registrations)[chosen - INTERNAL_CASES].chID
    {
      var registration := registrations[chosen - INTERNAL_CASES];
      var n := |cases| - 1;
      if n > 0 {
        cases := cases[chosen := cases[n]];
        registrations := registrations[chosen - INTERNAL_CASES := registrations[n - INTERNAL_CASES]];
      }
      cases := cases[..n];
      registrations := registrations[..n - INTERNAL_CASES];
      assert cases == SwapRemove(old(cases), chosen);
      assert registrations == SwapRemove(old(registrations), chosen - INTERNAL_CASES);
      cleaned := registration.chID;
      ended := ended + {cleaned};
      var _ := Send(Ended(cleaned), written);
    }

    // The deferred cleanup: every stream still registered is cleaned up once.
    method CleanUp() returns (cleaned: seq<nat>)
      ensures cleaned == CleanupsOf(registrations)
    {
      cleaned := [];
      for i := 0 to |registrations|
        invariant cleaned == CleanupsOf(registrations[..i])
      {
        assert registrations[..i + 1] == registrations[..i] + [registrations[i]];
        cleaned := cleaned + [registrations[i].chID];
      }
      assert registrations[..|registrations|] == registrations;
    }

    method Select(e: SelectEvent)
      requires SelectEnabled(View(), e) && |cases| == |registrations| + INTERNAL_CASES
      modifies this
      ensures View() == SelectNext(old(View()), e)
    {
      match e
      case Register(i, written) => var _ := Accept(offers[i], written);
      case Forward(chosen, written) => ForwardMessage(chosen, written);
      case Retire(chosen, written) => var _ := RetireChannel(chosen, written);
      case Exit => done := true;
    }

    // What methods do with their channels, and what happens to the connection.
    method Elsewhere(e: Event)
      requires Enabled(View(), e) && !e.Select?
      modifies this`chans, this`offers, this`base, this`log, this`broken
      ensures View() == Next(old(View()), e)
    {
      match e
      case Source(MakeChan) => chans := chans + [Chan([], [], false)];
      case Source(SendItem(ch, item)) => chans := chans[ch := chans[ch].(written := chans[ch].written + [item])];
      case Source(CloseChan(ch)) => chans := chans[ch := chans[ch].(closed := true)];
      case Source(Offer(reqID, ch)) => offers := offers + [Registration(reqID, |offers| + 1, ch)];
      case Link(Break) => broken := true;
      case Link(Reconnect) => base, log, broken := |tried|, [], false;
    }

    // Whatever is chosen and whatever happens in between, the slices stay in step and every trace is as promised.
    // When the loop leaves, exactly the streams that have not ended are cleaned up.
    method HandleOutChans(schedule: seq<Event>) returns (cleaned: seq<nat>)
      requires T.Inv(View())
      modifies this
      ensures View() == Play(old(View()), Step, schedule) && T.Inv(View())
      ensures forall c :: c in cleaned <==> c in T.Streams(View())
      ensures forall i, j | 0 <= i < j < |cleaned| :: cleaned[i] != cleaned[j]
    {
      for i := 0 to |schedule|
        invariant View() == Play(old(View()), Step, schedule[..i]) && T.Inv(View())
      {
        var e := schedule[i];
        assert schedule[..i + 1][..i] == schedule[..i];
        if Enabled(View(), e) {
          T.StepKeeps(View(), e);
          if e.Select? {
            Select(e.select);
          } else {
            Elsewhere(e);
          }
        }
      }
      assert schedule[..|schedule|] == schedule;
      cleaned := CleanUp();
      LeftoversAreStreams(View());
    }
  }

  // The registrations left are the streams that were opened and have not ended, each once.
  lemma LeftoversAreStreams(s: Loop)
    requires T.Structure(s)
    ensures forall c :: c in CleanupsOf(s.registrations) <==> c in T.Streams(s)
    ensures var ids := CleanupsOf(s.registrations); forall i, j | 0 <= i < j < |ids| :: ids[i] != ids[j]
  {
    var ids := CleanupsOf(s.registrations);
    forall c ensures c in ids <==> c in T.Streams(s) {
      if c in ids {
        var i :| 0 <= i < |ids| && ids[i] == c;
        assert T.Listed(s, s.registrations[i]);
      }
      if c in T.Streams(s) {
        assert T.Held(s, c);
        var i :| 0 <= i < |s.registrations| && s.registrations[i].chID == c;
        assert ids[i] == c;
      }
    }
  }
}
