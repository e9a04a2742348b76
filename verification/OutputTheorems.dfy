/** The output loop refines a map from channel IDs to channels, and what each stream looks like on the wire. */
module OutputTheorems {
  import opened Options
  import opened Runs
  import opened Slices
  import opened SelectCases
  import opened OutputLoop

  // ---------- the two slices ----------

  // cases[i+2] and registrations[i] name the same channel.
  ghost predicate Aligned(s: Loop) {
    && |s.cases| == |s.registrations| + INTERNAL_CASES
    && s.cases[0] == RegisterCase && s.cases[1] == ExitCase
    && forall i | 0 <= i < |s.registrations| :: s.cases[i + INTERNAL_CASES] == Receive(s.registrations[i].ch)
  }

  ghost predicate OffersOk(s: Loop) {
    && (forall i | 0 <= i < |s.offers| :: s.offers[i].chID == i + 1 && s.offers[i].ch < |s.chans|)
    && (forall c | c in s.got :: 0 < c <= |s.offers|)
    && s.ended <= s.got.Keys
    && (forall ch | 0 <= ch < |s.chans| :: s.chans[ch].Taken() <= |s.chans[ch].written|)
  }

  ghost predicate Listed(s: Loop, r: Registration) {
    0 < r.chID <= |s.offers| && s.offers[r.chID - 1] == r && r.chID in s.got && r.chID !in s.ended
  }

  ghost predicate Held(s: Loop, c: nat) {
    exists i :: 0 <= i < |s.registrations| && s.registrations[i].chID == c
  }

  // The registrations are exactly the streams that were opened and have not ended, once each.
  ghost predicate RegistrationsOk(s: Loop) {
    && (forall i | 0 <= i < |s.registrations| :: Listed(s, s.registrations[i]))
    && (forall i, j | 0 <= i < j < |s.registrations| :: s.registrations[i].chID != s.registrations[j].chID)
    && (forall c {:trigger Held(s, c)} | c in s.got && c !in s.ended :: Held(s, c))
  }

  ghost predicate Structure(s: Loop) {
    Aligned(s) && OffersOk(s) && RegistrationsOk(s)
  }

  // The map the loop implements.
  function Streams(s: Loop): map<nat, nat> {
    map c | c in s.got && c !in s.ended && 0 < c <= |s.offers| :: s.offers[c - 1].ch
  }

  // ---------- one stream ----------

  // Everything the loop has tried to send for channel ID c.
  function Expected(s: Loop, c: nat): seq<Msg>
    requires OffersOk(s)
  {
    if c !in s.got then []
    else [Opened(c, s.offers[c - 1].reqID)] + Values(c, Encodable(s.got[c])) +
         (if c in s.ended then [Ended(c)] else [])
  }

  ghost predicate TracesOk(s: Loop)
    requires OffersOk(s)
  {
    forall c: nat :: Trace(s.tried, c) == Expected(s, c)
  }

  // The current connection shows a stretch of what was tried, all of it while it works.
  ghost predicate Segment(s: Loop) {
    && s.base + |s.log| <= |s.tried|
    && s.log == s.tried[s.base..s.base + |s.log|]
    && (!s.broken ==> s.base + |s.log| == |s.tried|)
  }

  // What each stream received is its share of its channel: every value received went to exactly one of
  // the channel's streams, in order. A stream ends when its channel is closed and empty.
  ghost predicate TakersOk(s: Loop, ch: nat)
    requires ch < |s.chans|
  {
    forall k | 0 <= k < |s.chans[ch].takers| :: IsTaker(s, ch, s.chans[ch].takers[k])
  }

  ghost predicate IsTaker(s: Loop, ch: nat, c: nat) {
    0 < c <= |s.offers| && s.offers[c - 1].ch == ch && c in s.got
  }

  ghost predicate ShareOk(s: Loop, c: nat)
    requires OffersOk(s) && 0 < c <= |s.offers|
  {
    var chan := s.chans[s.offers[c - 1].ch];
    && Got(s, c) == Share(chan.written, chan.takers, c)
    && (c in s.ended ==> chan.closed && chan.Taken() == |chan.written|)
  }

  ghost predicate Dealt(s: Loop)
    requires OffersOk(s)
  {
    && (forall ch | 0 <= ch < |s.chans| :: TakersOk(s, ch))
    && (forall c | 0 < c <= |s.offers| :: ShareOk(s, c))
  }

  ghost predicate Inv(s: Loop) {
    Structure(s) && TracesOk(s) && Segment(s) && Dealt(s)
  }

  lemma InitInv(serverSide: bool, limit: int)
    ensures Inv(Init(serverSide, limit))
  {
  }

  // ---------- what the methods do ----------

  lemma ExpectedStays(s: Loop, t: Loop, c: nat)
    requires OffersOk(s) && OffersOk(t) && s.offers <= t.offers
    requires (c in t.got) == (c in s.got) && (c in s.got ==> t.got[c] == s.got[c]) && (c in t.ended <==> c in s.ended)
    ensures Expected(t, c) == Expected(s, c)
  {
  }

  lemma SourceStructure(s: Loop, e: SourceEvent)
    requires Structure(s) && SourceEnabled(s, e)
    ensures Structure(SourceNext(s, e))
  {
    var t := SourceNext(s, e);
    assert forall i | 0 <= i < |s.registrations| :: Listed(s, s.registrations[i]);
    forall c | c in t.got && c !in t.ended ensures Held(t, c) {
      assert Held(s, c);
    }
  }

  // Values written later change no share.
  lemma {:induction false} ShareOfPrefix(a: seq<Item>, b: seq<Item>, takers: seq<nat>, c: nat)
    requires |takers| <= |a| && a <= b
    ensures Share(a, takers, c) == Share(b, takers, c)
  {
    if takers != [] {
      ShareOfPrefix(a, b, takers[..|takers| - 1], c);
    }
  }

  lemma {:induction false} NoShare(written: seq<Item>, takers: seq<nat>, c: nat)
    requires |takers| <= |written| && c !in takers
    ensures Share(written, takers, c) == []
  {
    if takers != [] {
      NoShare(written, takers[..|takers| - 1], c);
    }
  }

  lemma ShareSnoc(written: seq<Item>, takers: seq<nat>, taker: nat, c: nat)
    requires |takers| < |written|
    ensures Share(written, takers + [taker], c) ==
            Share(written, takers, c) + (if taker == c then [written[|takers|]] else [])
  {
    assert (takers + [taker])[..|takers|] == takers;
  }

  // A stream that nobody has registered yet has received nothing.
  lemma UnregisteredHasNothing(s: Loop, c: nat)
    requires OffersOk(s) && Dealt(s) && c !in s.got
    ensures forall ch | 0 <= ch < |s.chans| :: Share(s.chans[ch].written, s.chans[ch].takers, c) == []
  {
    forall ch | 0 <= ch < |s.chans| ensures Share(s.chans[ch].written, s.chans[ch].takers, c) == [] {
      assert TakersOk(s, ch);
      assert forall k | 0 <= k < |s.chans[ch].takers| :: IsTaker(s, ch, s.chans[ch].takers[k]);
      NoShare(s.chans[ch].written, s.chans[ch].takers, c);
    }
  }

  // A step that leaves takers and values received alone, and lets channels only grow.
  ghost predicate OnlyWrites(s: Loop, t: Loop) {
    && s.offers <= t.offers && t.got == s.got && t.ended == s.ended && |s.chans| <= |t.chans|
    && (forall ch | 0 <= ch < |s.chans| ::
          && t.chans[ch].takers == s.chans[ch].takers && s.chans[ch].written <= t.chans[ch].written
          && (s.chans[ch].closed ==> t.chans[ch].closed && t.chans[ch].written == s.chans[ch].written))
    && (forall ch | |s.chans| <= ch < |t.chans| :: t.chans[ch].takers == [])
  }

  lemma OnlyWritesDeals(s: Loop, t: Loop)
    requires OffersOk(s) && Dealt(s) && OffersOk(t) && OnlyWrites(s, t)
    ensures Dealt(t)
  {
    forall ch | 0 <= ch < |t.chans| ensures TakersOk(t, ch) {
      assert ch < |s.chans| ==> TakersOk(s, ch);
      forall k | 0 <= k < |t.chans[ch].takers| ensures IsTaker(t, ch, t.chans[ch].takers[k]) {
        assert IsTaker(s, ch, s.chans[ch].takers[k]);
      }
    }
    forall c | 0 < c <= |t.offers| ensures ShareOk(t, c) {
      OnlyWritesShares(s, t, c);
    }
  }

  lemma OnlyWritesShares(s: Loop, t: Loop, c: nat)
    requires OffersOk(s) && Dealt(s) && OffersOk(t) && OnlyWrites(s, t) && 0 < c <= |t.offers|
    ensures ShareOk(t, c)
  {
    var ch := t.offers[c - 1].ch;
    if c <= |s.offers| {
      assert ShareOk(s, c) && t.offers[c - 1] == s.offers[c - 1];
      ShareOfPrefix(s.chans[ch].written, t.chans[ch].written, s.chans[ch].takers, c);
    } else {
      assert c !in s.got;
      if ch < |s.chans| {
        UnregisteredHasNothing(s, c);
        ShareOfPrefix(s.chans[ch].written, t.chans[ch].written, s.chans[ch].takers, c);
      }
    }
  }

  lemma SourceKeeps(s: Loop, e: SourceEvent)
    requires Inv(s) && SourceEnabled(s, e)
    ensures Inv(SourceNext(s, e))
  {
    var t := SourceNext(s, e);
    SourceStructure(s, e);
    OnlyWritesDeals(s, t);
    forall c: nat ensures Trace(t.tried, c) == Expected(t, c) {
      ExpectedStays(s, t, c);
      assert Trace(s.tried, c) == Expected(s, c);
    }
  }

  // ---------- what the loop does ----------

  lemma WriteKeeps(s: Loop, m: Msg, written: bool)
    requires Segment(s)
    ensures Segment(Write(s, m, written))
  {
  }

  // A step that touches no channel: what stream `changed` has received stays, or starts with nothing.
  lemma SameChannelsDeal(s: Loop, t: Loop, changed: nat)
    requires OffersOk(s) && Dealt(s) && OffersOk(t) && t.offers == s.offers && t.chans == s.chans
    requires s.got.Keys <= t.got.Keys && forall c: nat :: Got(t, c) == Got(s, c)
    requires forall c | c in t.ended && c != changed :: c in s.ended
    requires changed in t.ended && 0 < changed <= |s.offers| ==>
               s.chans[s.offers[changed - 1].ch].closed &&
               s.chans[s.offers[changed - 1].ch].Taken() == |s.chans[s.offers[changed - 1].ch].written|
    ensures Dealt(t)
  {
    forall ch | 0 <= ch < |t.chans| ensures TakersOk(t, ch) {
      assert TakersOk(s, ch);
      forall k | 0 <= k < |t.chans[ch].takers| ensures IsTaker(t, ch, t.chans[ch].takers[k]) {
        assert IsTaker(s, ch, s.chans[ch].takers[k]);
      }
    }
    forall c | 0 < c <= |t.offers| ensures ShareOk(t, c) {
      assert ShareOk(s, c);
    }
  }

  lemma RegisterHeld(s: Loop, r: Registration, written: bool)
    requires RegistrationsOk(s)
    ensures var t := RegisterStream(s, r, written);
            forall c {:trigger Held(t, c)} | c in t.got && c !in t.ended :: Held(t, c)
  {
    var t := RegisterStream(s, r, written);
    assert t.registrations[|s.registrations|] == r;
    forall c | c in t.got && c !in t.ended ensures Held(t, c) {
      if c != r.chID {
        assert Held(s, c);
        var j :| 0 <= j < |s.registrations| && s.registrations[j].chID == c;
        assert t.registrations[j].chID == c;
      }
    }
  }

  lemma RegisterEntries(s: Loop, i: nat, written: bool)
    requires Structure(s) && SelectEnabled(s, Register(i, written))
    ensures var t := RegisterStream(s, s.offers[i], written);
            && Aligned(t) && OffersOk(t)
            && (forall j | 0 <= j < |t.registrations| :: Listed(t, t.registrations[j]))
            && (forall j, k | 0 <= j < k < |t.registrations| :: t.registrations[j].chID != t.registrations[k].chID)
  {
    assert forall j | 0 <= j < |s.registrations| :: Listed(s, s.registrations[j]);
  }

  lemma RegisterStructure(s: Loop, i: nat, written: bool)
    requires Structure(s) && SelectEnabled(s, Register(i, written))
    ensures Structure(RegisterStream(s, s.offers[i], written))
  {
    RegisterEntries(s, i, written);
    RegisterHeld(s, s.offers[i], written);
  }

  lemma RegisterTraces(s: Loop, i: nat, written: bool, c: nat)
    requires Structure(s) && TracesOk(s) && SelectEnabled(s, Register(i, written))
    requires OffersOk(RegisterStream(s, s.offers[i], written))
    ensures Trace(RegisterStream(s, s.offers[i], written).tried, c) ==
            Expected(RegisterStream(s, s.offers[i], written), c)
  {
    TraceSnoc(s.tried, Opened(s.offers[i].chID, s.offers[i].reqID), c);
    assert Trace(s.tried, c) == Expected(s, c);
  }

  lemma RegisterTracesOk(s: Loop, i: nat, written: bool)
    requires Structure(s) && TracesOk(s) && SelectEnabled(s, Register(i, written))
    requires OffersOk(RegisterStream(s, s.offers[i], written))
    ensures TracesOk(RegisterStream(s, s.offers[i], written))
  {
    var t := RegisterStream(s, s.offers[i], written);
    forall c: nat ensures Trace(t.tried, c) == Expected(t, c) {
      RegisterTraces(s, i, written, c);
    }
  }

  lemma RegisterDeals(s: Loop, i: nat, written: bool)
    requires OffersOk(s) && Dealt(s) && SelectEnabled(s, Register(i, written))
    requires OffersOk(RegisterStream(s, s.offers[i], written))
    ensures Dealt(RegisterStream(s, s.offers[i], written))
  {
    SameChannelsDeal(s, RegisterStream(s, s.offers[i], written), 0);
  }

  lemma RegisterKeepsSegment(s: Loop, r: Registration, written: bool)
    requires Segment(s)
    ensures Segment(RegisterStream(s, r, written))
  {
    WriteKeeps(s, Opened(r.chID, r.reqID), written);
  }

  lemma RegisterKeeps(s: Loop, i: nat, written: bool)
    requires Inv(s) && SelectEnabled(s, Register(i, written))
    ensures Inv(RegisterStream(s, s.offers[i], written))
  {
    RegisterStructure(s, i, written);
    RegisterKeepsSegment(s, s.offers[i], written);
    RegisterTracesOk(s, i, written);
    RegisterDeals(s, i, written);
  }

  // Forwarding reads from the channel of the registration whose ID it puts on the wire.
  lemma ForwardAligned(s: Loop, chosen: nat, written: bool)
    requires Structure(s) && SelectEnabled(s, Forward(chosen, written))
    ensures s.cases[chosen].ch == s.registrations[chosen - INTERNAL_CASES].ch
    ensures Listed(s, s.registrations[chosen - INTERNAL_CASES])
  {
    assert s.cases[(chosen - INTERNAL_CASES) + INTERNAL_CASES] == Receive(s.registrations[chosen - INTERNAL_CASES].ch);
  }

  // Stream r received the next value of its own channel.
  ghost predicate Took(s: Loop, t: Loop, r: Registration, item: Item) {
    && Listed(s, r) && r.ch < |s.chans|
    && s.chans[r.ch].Taken() < |s.chans[r.ch].written| && item == s.chans[r.ch].written[s.chans[r.ch].Taken()]
    && t.cases == s.cases && t.registrations == s.registrations && t.offers == s.offers && t.ended == s.ended
    && t.got == s.got[r.chID := s.got[r.chID] + [item]]
    && t.chans == s.chans[r.ch := s.chans[r.ch].(takers := s.chans[r.ch].takers + [r.chID])]
  }

  lemma ForwardTook(s: Loop, chosen: nat, written: bool)
    requires Structure(s) && SelectEnabled(s, Forward(chosen, written))
    ensures var r := s.registrations[chosen - INTERNAL_CASES];
            Took(s, ForwardValue(s, chosen, written), r, s.chans[r.ch].written[s.chans[r.ch].Taken()])
  {
    ForwardAligned(s, chosen, written);
  }

  lemma TookStructure(s: Loop, t: Loop, r: Registration, item: Item)
    requires Structure(s) && Took(s, t, r, item)
    ensures Structure(t) && Streams(t) == Streams(s)
  {
    assert t.got.Keys == s.got.Keys;
    assert forall i | 0 <= i < |s.registrations| :: Listed(s, s.registrations[i]);
    forall c | c in t.got && c !in t.ended ensures Held(t, c) {
      assert Held(s, c);
    }
  }

  lemma TookDeals(s: Loop, t: Loop, r: Registration, item: Item)
    requires OffersOk(s) && Dealt(s) && Took(s, t, r, item) && OffersOk(t)
    ensures Dealt(t)
  {
    forall ch | 0 <= ch < |t.chans| ensures TakersOk(t, ch) {
      assert TakersOk(s, ch);
      forall k | 0 <= k < |t.chans[ch].takers| ensures IsTaker(t, ch, t.chans[ch].takers[k]) {
        if k < |s.chans[ch].takers| {
          assert IsTaker(s, ch, s.chans[ch].takers[k]);
        } else {
          assert t.chans[ch].takers[k] == r.chID;
        }
      }
    }
    forall c | 0 < c <= |t.offers| ensures ShareOk(t, c) {
      TookShares(s, t, r, item, c);
    }
  }

  lemma TookShares(s: Loop, t: Loop, r: Registration, item: Item, c: nat)
    requires OffersOk(s) && Dealt(s) && Took(s, t, r, item) && OffersOk(t) && 0 < c <= |s.offers|
    ensures ShareOk(t, c)
  {
    assert ShareOk(s, c);
    assert s.offers[r.chID - 1] == r;
    ShareSnoc(s.chans[r.ch].written, s.chans[r.ch].takers, r.chID, c);
  }

  lemma TookTraces(s: Loop, t: Loop, r: Registration, item: Item, c: nat)
    requires OffersOk(s) && TracesOk(s) && Took(s, t, r, item) && OffersOk(t)
    requires t.tried == if item.encodes then s.tried + [Value(r.chID, item)] else s.tried
    ensures Trace(t.tried, c) == Expected(t, c)
  {
    assert Trace(s.tried, c) == Expected(s, c);
    if item.encodes {
      TraceSnoc(s.tried, Value(r.chID, item), c);
    }
    if c == r.chID {
      ExpectedGrows(s, t, c, item);
    } else {
      ExpectedStays(s, t, c);
    }
  }

  lemma ExpectedGrows(s: Loop, t: Loop, c: nat, item: Item)
    requires OffersOk(s) && OffersOk(t) && t.offers == s.offers && t.ended == s.ended
    requires c in s.got && c !in s.ended && c in t.got && t.got[c] == s.got[c] + [item]
    ensures Expected(t, c) == Expected(s, c) + (if item.encodes then [Value(c, item)] else [])
  {
    EncodableSnoc(s.got[c], item);
    ValuesSnoc(c, Encodable(s.got[c]), item);
  }

  lemma ForwardKeeps(s: Loop, chosen: nat, written: bool)
    requires Inv(s) && SelectEnabled(s, Forward(chosen, written))
    ensures Inv(ForwardValue(s, chosen, written))
  {
    var r := s.registrations[chosen - INTERNAL_CASES];
    var item := s.chans[r.ch].written[s.chans[r.ch].Taken()];
    var t := ForwardValue(s, chosen, written);
    ForwardTook(s, chosen, written);
    TookStructure(s, t, r, item);
    TookDeals(s, t, r, item);
    WriteKeeps(s, Value(r.chID, item), written);
    forall c: nat ensures Trace(t.tried, c) == Expected(t, c) {
      TookTraces(s, t, r, item, c);
    }
  }

  // The slices after entry i was removed from both.
  ghost predicate Removed(s: Loop, t: Loop, i: nat) {
    && i < |s.registrations| && |s.cases| == |s.registrations| + INTERNAL_CASES
    && t.cases == SwapRemove(s.cases, i + INTERNAL_CASES) && t.registrations == SwapRemove(s.registrations, i)
    && t.offers == s.offers && t.got == s.got && t.chans == s.chans && t.ended == s.ended + {s.registrations[i].chID}
  }

  lemma RetireEntries(s: Loop, t: Loop, i: nat)
    requires Structure(s) && Removed(s, t, i)
    ensures Aligned(t) && OffersOk(t)
    ensures forall j | 0 <= j < |t.registrations| :: Listed(t, t.registrations[j])
    ensures forall j, k | 0 <= j < k < |t.registrations| :: t.registrations[j].chID != t.registrations[k].chID
  {
    assert forall j | 0 <= j < |s.registrations| :: Listed(s, s.registrations[j]);
  }

  lemma RetireHeld(s: Loop, t: Loop, i: nat)
    requires RegistrationsOk(s) && Removed(s, t, i)
    ensures forall c {:trigger Held(t, c)} | c in t.got && c !in t.ended :: Held(t, c)
  {
    forall c | c in t.got && c !in t.ended ensures Held(t, c) {
      assert Held(s, c);
      var j :| 0 <= j < |s.registrations| && s.registrations[j].chID == c;
      assert t.registrations[if j == |s.registrations| - 1 then i else j].chID == c;
    }
  }

  // A stream ends: exactly its entry leaves the map, whichever entry moves into the gap.
  lemma RetireStructure(s: Loop, chosen: nat, written: bool)
    requires Structure(s) && SelectEnabled(s, Retire(chosen, written))
    ensures Structure(RetireStream(s, chosen, written))
  {
    var t := RetireStream(s, chosen, written);
    RetireRemoves(s, chosen, written);
    RetireEntries(s, t, chosen - INTERNAL_CASES);
    RetireHeld(s, t, chosen - INTERNAL_CASES);
  }

  lemma RetireOther(s: Loop, t: Loop, i: nat, c: nat)
    requires OffersOk(s) && OffersOk(t) && Removed(s, t, i) && c != s.registrations[i].chID
    requires Trace(s.tried, c) == Expected(s, c) && t.tried == s.tried + [Ended(s.registrations[i].chID)]
    ensures Trace(t.tried, c) == Expected(t, c)
  {
    TraceSnoc(s.tried, Ended(s.registrations[i].chID), c);
    ExpectedStays(s, t, c);
  }

  lemma RetireOwn(s: Loop, t: Loop, i: nat)
    requires OffersOk(s) && OffersOk(t) && i < |s.registrations| && Listed(s, s.registrations[i]) && Removed(s, t, i)
    requires var c := s.registrations[i].chID;
             Trace(s.tried, c) == Expected(s, c) && t.tried == s.tried + [Ended(c)]
    ensures var c := s.registrations[i].chID; Trace(t.tried, c) == Expected(t, c)
  {
    var c := s.registrations[i].chID;
    TraceSnoc(s.tried, Ended(c), c);
    var begun := [Opened(c, s.offers[c - 1].reqID)] + Values(c, Encodable(s.got[c]));
    assert Expected(s, c) == begun + [] == begun;
    assert Expected(t, c) == begun + [Ended(c)];
  }

  lemma RetireTraces(s: Loop, chosen: nat, written: bool, c: nat)
    requires Structure(s) && TracesOk(s) && SelectEnabled(s, Retire(chosen, written))
    requires OffersOk(RetireStream(s, chosen, written))
    ensures Trace(RetireStream(s, chosen, written).tried, c) == Expected(RetireStream(s, chosen, written), c)
  {
    var i := chosen - INTERNAL_CASES;
    assert Listed(s, s.registrations[i]);
    assert Trace(s.tried, c) == Expected(s, c);
    if c == s.registrations[i].chID {
      RetireOwn(s, RetireStream(s, chosen, written), i);
    } else {
      RetireOther(s, RetireStream(s, chosen, written), i, c);
    }
  }

  lemma RetireTracesOk(s: Loop, chosen: nat, written: bool)
    requires Structure(s) && TracesOk(s) && SelectEnabled(s, Retire(chosen, written))
    requires OffersOk(RetireStream(s, chosen, written))
    ensures TracesOk(RetireStream(s, chosen, written))
  {
    forall c: nat ensures Trace(RetireStream(s, chosen, written).tried, c) ==
        Expected(RetireStream(s, chosen, written), c) {
      RetireTraces(s, chosen, written, c);
    }
  }

  // The stream that ends has drained its channel, and no share changes.
  lemma RetireDeals(s: Loop, t: Loop, i: nat)
    requires OffersOk(s) && Dealt(s) && OffersOk(t) && Removed(s, t, i) && Listed(s, s.registrations[i])
    requires s.registrations[i].ch < |s.chans|
    requires var chan := s.chans[s.registrations[i].ch]; chan.closed && chan.Taken() == |chan.written|
    ensures Dealt(t)
  {
    SameChannelsDeal(s, t, s.registrations[i].chID);
  }

  // What the loop receives from the chosen case is what the registration at that position waits for.
  lemma RetireDrained(s: Loop, chosen: nat, written: bool)
    requires Structure(s) && SelectEnabled(s, Retire(chosen, written))
    ensures var r := s.registrations[chosen - INTERNAL_CASES];
            && Listed(s, r) && r.ch < |s.chans|
            && s.chans[r.ch].closed && s.chans[r.ch].Taken() == |s.chans[r.ch].written|
  {
    assert s.cases[(chosen - INTERNAL_CASES) + INTERNAL_CASES] == Receive(s.registrations[chosen - INTERNAL_CASES].ch);
  }

  lemma RetireRemoves(s: Loop, chosen: nat, written: bool)
    requires |s.cases| == |s.registrations| + INTERNAL_CASES && SelectEnabled(s, Retire(chosen, written))
    ensures Removed(s, RetireStream(s, chosen, written), chosen - INTERNAL_CASES)
  {
  }

  lemma RetireKeepsSegment(s: Loop, chosen: nat, written: bool)
    requires Segment(s) && SelectEnabled(s, Retire(chosen, written))
    ensures Segment(RetireStream(s, chosen, written))
  {
    WriteKeeps(s, Ended(s.registrations[chosen - INTERNAL_CASES].chID), written);
  }

  lemma RetireKeeps(s: Loop, chosen: nat, written: bool)
    requires Inv(s) && SelectEnabled(s, Retire(chosen, written))
    ensures Inv(RetireStream(s, chosen, written))
  {
    var t := RetireStream(s, chosen, written);
    RetireStructure(s, chosen, written);
    RetireKeepsSegment(s, chosen, written);
    RetireTracesOk(s, chosen, written);
    RetireRemoves(s, chosen, written);
    RetireDrained(s, chosen, written);
    RetireDeals(s, t, chosen - INTERNAL_CASES);
  }

  // ---------- the loop refines a map ----------

  lemma RegisterRefines(s: Loop, i: nat, written: bool)
    requires Structure(s) && SelectEnabled(s, Register(i, written))
    ensures s.offers[i].chID !in Streams(s)
    ensures Streams(RegisterStream(s, s.offers[i], written)) == Streams(s)[s.offers[i].chID := s.offers[i].ch]
  {
  }

  lemma RetireRefines(s: Loop, chosen: nat, written: bool)
    requires Structure(s) && SelectEnabled(s, Retire(chosen, written))
    ensures var r := s.registrations[chosen - INTERNAL_CASES];
            r.chID in Streams(s) && Streams(s)[r.chID] == r.ch &&
            Streams(RetireStream(s, chosen, written)) == Streams(s) - {r.chID}
  {
    assert Listed(s, s.registrations[chosen - INTERNAL_CASES]);
  }

  // Removal changes the order of the registrations, but loses only the one of the stream that ended.
  lemma RetireLosesOne(s: Loop, chosen: nat, written: bool)
    requires SelectEnabled(s, Retire(chosen, written))
    ensures multiset(RetireStream(s, chosen, written).registrations) ==
            multiset(s.registrations) - multiset{s.registrations[chosen - INTERNAL_CASES]}
  {
    var t, i := RetireStream(s, chosen, written), chosen - INTERNAL_CASES;
    assert t.registrations == SwapRemove(s.registrations, i);
    LosesOne(s, t, i);
  }

  lemma LosesOne(s: Loop, t: Loop, i: nat)
    requires i < |s.registrations| && t.registrations == SwapRemove(s.registrations, i)
    ensures multiset(t.registrations) == multiset(s.registrations) - multiset{s.registrations[i]}
  {
    SwapRemoveKeeps(s.registrations, i);
  }

  // A step that touches only the connection or stops the loop.
  lemma RestKeeps(s: Loop, t: Loop)
    requires Inv(s) && Segment(t)
    requires t == s.(base := t.base, log := t.log, broken := t.broken, done := t.done)
    ensures Inv(t)
  {
    assert Structure(t) by {
      assert forall i | 0 <= i < |s.registrations| :: Listed(s, s.registrations[i]);
      forall c | c in t.got && c !in t.ended ensures Held(t, c) {
        assert Held(s, c);
      }
    }
    forall c: nat ensures Trace(t.tried, c) == Expected(t, c) {
      assert Trace(s.tried, c) == Expected(s, c);
    }
    SameChannelsDeal(s, t, 0);
  }

  lemma SelectKeeps(s: Loop, e: SelectEvent)
    requires Inv(s) && SelectEnabled(s, e)
    ensures Inv(SelectNext(s, e))
  {
    match e
    case Register(i, written) => RegisterKeeps(s, i, written);
    case Forward(chosen, written) => ForwardKeeps(s, chosen, written);
    case Retire(chosen, written) => RetireKeeps(s, chosen, written);
    case Exit => RestKeeps(s, SelectNext(s, e));
  }

  lemma StepKeeps(s: Loop, e: Event)
    requires Inv(s) && Enabled(s, e)
    ensures Inv(Next(s, e))
  {
    match e
    case Source(x) => SourceKeeps(s, x);
    case Select(x) => SelectKeeps(s, x);
    case Link(x) => RestKeeps(s, LinkNext(s, x));
  }

  // ---------- every run ----------

  ghost predicate Reaches(serverSide: bool, limit: int, run: seq<Event>, s: Loop) {
    After(Init(serverSide, limit), Step, run) == Some(s)
  }

  lemma RunKeeps(serverSide: bool, limit: int, run: seq<Event>, s: Loop)
    requires Reaches(serverSide, limit, run, s)
    ensures Inv(s)
  {
    InitInv(serverSide, limit);
    forall u, e | Inv(u) && Step(u, e).Some? ensures Inv(Step(u, e).value) {
      StepKeeps(u, e);
    }
    Invariant(Init(serverSide, limit), Step, u => Inv(u), run);
  }

  // Both slices always describe the same set of streams, each once.
  lemma SlicesAgree(serverSide: bool, limit: int, run: seq<Event>, s: Loop, i: nat)
    requires Reaches(serverSide, limit, run, s) && i < |s.registrations|
    ensures |s.cases| == |s.registrations| + INTERNAL_CASES
    ensures s.cases[i + INTERNAL_CASES] == Receive(s.registrations[i].ch)
    ensures s.registrations[i].chID in Streams(s) && Streams(s)[s.registrations[i].chID] == s.registrations[i].ch
    ensures forall j | 0 <= j < |s.registrations| && j != i :: s.registrations[j].chID != s.registrations[i].chID
  {
    RunKeeps(serverSide, limit, run, s);
    assert Listed(s, s.registrations[i]);
  }

  // The whole story of a stream: its response, its own encodable values in the order its method sent them, one end.
  function Story(s: Loop, c: nat): seq<Msg> {
    if 0 < c <= |s.offers| && s.offers[c - 1].ch < |s.chans| then
      [Opened(c, s.offers[c - 1].reqID)] + Values(c, Encodable(s.chans[s.offers[c - 1].ch].written)) + [Ended(c)]
    else []
  }

  lemma ValuesPrefix(c: nat, a: seq<Item>, b: seq<Item>)
    requires a <= b
    ensures Values(c, a) <= Values(c, b)
  {
  }

  // ---------- a server stops ----------

  // Frame i was tried but did not go out on the current connection.
  ghost predicate Unsent(s: Loop, i: nat) {
    s.base + |s.log| <= i < |s.tried|
  }

  ghost predicate LostValue(s: Loop) {
    exists i: nat :: Unsent(s, i) && s.tried[i].Value?
  }

  ghost predicate Quits(run: seq<Event>) {
    Select(Exit) in run
  }

  // A server is done exactly if it was told to quit or has lost a value.
  ghost predicate StopsRight(run: seq<Event>, s: Loop) {
    && s.serverSide && s.base == 0 && s.base + |s.log| <= |s.tried|
    && (!s.broken ==> |s.log| == |s.tried|)
    && (s.done <==> Quits(run) || LostValue(s))
  }

  // Frames that were lost stay lost on a server.
  lemma OneFrame(s: Loop, t: Loop, m: Msg, written: bool)
    requires s.base == 0 && |s.log| <= |s.tried| && (!s.broken ==> |s.log| == |s.tried|)
    requires t.base == s.base && t.tried == Write(s, m, written).tried && t.log == Write(s, m, written).log
    ensures LostValue(t) <==> LostValue(s) || (m.Value? && (s.broken || !written))
  {
    assert t.tried[|s.tried|] == m;
    if LostValue(s) {
      var i: nat :| Unsent(s, i) && s.tried[i].Value?;
      assert Unsent(t, i) && t.tried[i] == s.tried[i];
    }
    if m.Value? && (s.broken || !written) {
      assert Unsent(t, |s.tried|);
    }
    if LostValue(t) {
      var i: nat :| Unsent(t, i) && t.tried[i].Value?;
      assert i < |s.tried| ==> Unsent(s, i) && t.tried[i] == s.tried[i];
    }
  }

  lemma SelectStopsRight(run: seq<Event>, s: Loop, e: SelectEvent)
    requires StopsRight(run, s) && SelectEnabled(s, e)
    ensures StopsRight(run + [Select(e)], SelectNext(s, e))
  {
    var t := SelectNext(s, e);
    QuitsSnoc(run, Select(e));
    match e
    case Register(i, written) => OneFrame(s, t, Opened(s.offers[i].chID, s.offers[i].reqID), written);
    case Retire(chosen, written) => OneFrame(s, t, Ended(s.registrations[chosen - INTERNAL_CASES].chID), written);
    case Forward(chosen, written) => ForwardStopsRight(run, s, chosen, written);
    case Exit => SameLoss(s, t);
  }

  lemma ForwardStopsRight(run: seq<Event>, s: Loop, chosen: nat, written: bool)
    requires StopsRight(run, s) && SelectEnabled(s, Forward(chosen, written))
    ensures StopsRight(run + [Select(Forward(chosen, written))], ForwardValue(s, chosen, written))
  {
    var t := ForwardValue(s, chosen, written);
    var item := s.chans[s.cases[chosen].ch].written[s.chans[s.cases[chosen].ch].Taken()];
    QuitsSnoc(run, Select(Forward(chosen, written)));
    if item.encodes {
      OneFrame(s, t, Value(s.registrations[chosen - INTERNAL_CASES].chID, item), written);
    } else {
      SameLoss(s, t);
    }
  }

  lemma QuitsSnoc(run: seq<Event>, e: Event)
    ensures Quits(run + [e]) <==> Quits(run) || e == Select(Exit)
  {
  }

  lemma SameLoss(s: Loop, t: Loop)
    requires t.base == s.base && t.tried == s.tried && t.log == s.log
    ensures LostValue(t) <==> LostValue(s)
  {
    if LostValue(s) {
      var i: nat :| Unsent(s, i) && s.tried[i].Value?;
      assert Unsent(t, i);
    }
    if LostValue(t) {
      var i: nat :| Unsent(t, i) && t.tried[i].Value?;
      assert Unsent(s, i);
    }
  }

  // In every run of a server: the loop is done if and only if it was told to quit or a value was lost to a failed
  // write. So a loop at work has lost no value, although the response or the end of a stream may have been lost.
  lemma ServerStopsIff(limit: int, run: seq<Event>, s: Loop)
    requires Reaches(true, limit, run, s)
    ensures s.done <==> Quits(run) || LostValue(s)
    ensures !s.done ==> |s.log| <= |s.tried| && forall i | |s.log| <= i < |s.tried| :: !s.tried[i].Value?
  {
    var init := Init(true, limit);
    var inv := (r: seq<Event>, u: Loop) => StopsRight(r, u);
    forall r, u, e | After(init, Step, r) == Some(u) && inv(r, u) && Step(u, e).Some?
      ensures inv(r + [e], Step(u, e).value)
    {
      QuitsSnoc(r, e);
      if e.Select? {
        SelectStopsRight(r, u, e.select);
      } else {
        SameLoss(u, Next(u, e));
      }
    }
    HistoryInvariant(init, Step, inv, run);
    forall i | !s.done && |s.log| <= i < |s.tried| ensures !s.tried[i].Value? {
      assert Unsent(s, i);
    }
  }

  // A client's loop, which a reconnect may save, is done only if it was told to quit.
  lemma ClientStopsIff(limit: int, run: seq<Event>, s: Loop)
    requires Reaches(false, limit, run, s)
    ensures s.done <==> Quits(run)
  {
    var init := Init(false, limit);
    var inv := (r: seq<Event>, u: Loop) => !u.serverSide && (u.done <==> Quits(r));
    forall r, u, e | After(init, Step, r) == Some(u) && inv(r, u) && Step(u, e).Some?
      ensures inv(r + [e], Step(u, e).value)
    {
      QuitsSnoc(r, e);
    }
    HistoryInvariant(init, Step, inv, run);
  }

  // ---------- shared channels ----------

  // Stream c is the only one that has received anything from its channel.
  ghost predicate Alone(s: Loop, c: nat) {
    && 0 < c <= |s.offers|
    && forall d | 0 < d <= |s.offers| && d != c && s.offers[d - 1].ch == s.offers[c - 1].ch :: Got(s, d) == []
  }

  lemma {:induction false} ShareSome(written: seq<Item>, takers: seq<nat>, c: nat)
    requires |takers| <= |written| && c in takers
    ensures Share(written, takers, c) != []
  {
    if takers[|takers| - 1] != c {
      var k :| 0 <= k < |takers| && takers[k] == c;
      assert takers[..|takers| - 1][k] == c;
      ShareSome(written, takers[..|takers| - 1], c);
    }
  }

  // A share is everything if and only if everything was taken for it.
  lemma {:induction false} ShareIsAll(written: seq<Item>, takers: seq<nat>, c: nat)
    requires |takers| <= |written|
    ensures |Share(written, takers, c)| <= |takers|
    ensures Share(written, takers, c) == written[..|takers|] <==> forall k | 0 <= k < |takers| :: takers[k] == c
    ensures |Share(written, takers, c)| == |takers| <==> forall k | 0 <= k < |takers| :: takers[k] == c
  {
    if takers != [] {
      var front, last := takers[..|takers| - 1], takers[|takers| - 1];
      ShareIsAll(written, front, c);
      assert takers == front + [last];
      assert written[..|takers|] == written[..|front|] + [written[|front|]];
    }
  }

  // A stream has exactly the values received from its channel, in order, if and only if no other stream has
  // received any of them.
  lemma InOrderIffAlone(serverSide: bool, limit: int, run: seq<Event>, s: Loop, c: nat)
    requires Reaches(serverSide, limit, run, s) && 0 < c <= |s.offers|
    ensures s.offers[c - 1].ch < |s.chans|
    ensures var chan := s.chans[s.offers[c - 1].ch];
            chan.Taken() <= |chan.written| && (Got(s, c) == chan.written[..chan.Taken()] <==> Alone(s, c))
  {
    RunKeeps(serverSide, limit, run, s);
    AloneIff(s, c);
  }

  lemma AloneIff(s: Loop, c: nat)
    requires OffersOk(s) && Dealt(s) && 0 < c <= |s.offers|
    ensures var chan := s.chans[s.offers[c - 1].ch]; Got(s, c) == chan.written[..chan.Taken()] <==> Alone(s, c)
  {
    var ch := s.offers[c - 1].ch;
    var chan := s.chans[ch];
    assert ShareOk(s, c) && TakersOk(s, ch);
    ShareIsAll(chan.written, chan.takers, c);
    if forall k | 0 <= k < |chan.takers| :: chan.takers[k] == c {
      forall d | 0 < d <= |s.offers| && d != c && s.offers[d - 1].ch == ch ensures Got(s, d) == [] {
        assert ShareOk(s, d);
        NoShare(chan.written, chan.takers, d);
      }
    } else {
      var k :| 0 <= k < |chan.takers| && chan.takers[k] != c;
      var d := chan.takers[k];
      assert IsTaker(s, ch, d) && ShareOk(s, d);
      ShareSome(chan.written, chan.takers, d);
    }
  }

  // No other call has returned the channel of stream c.
  ghost predicate Unshared(s: Loop, c: nat) {
    && 0 < c <= |s.offers|
    && forall i | 0 <= i < |s.offers| && i != c - 1 :: s.offers[i].ch != s.offers[c - 1].ch
  }

  // No call returns channel ch.
  ghost predicate NoneReturns(more: seq<Event>, ch: nat) {
    forall k | 0 <= k < |more| && more[k].Source? && more[k].source.Offer? :: more[k].source.ch != ch
  }

  lemma UnsharedStep(s: Loop, e: Event, c: nat)
    requires Unshared(s, c) && Enabled(s, e)
    requires e.Source? && e.source.Offer? ==> e.source.ch != s.offers[c - 1].ch
    ensures Unshared(Next(s, e), c) && Next(s, e).offers[c - 1] == s.offers[c - 1]
  {
    match e
    case Source(_) =>
    case Select(_) =>
    case Link(_) =>
  }

  lemma {:induction false} StaysUnshared(s: Loop, more: seq<Event>, c: nat)
    requires Unshared(s, c) && NoneReturns(more, s.offers[c - 1].ch) && After(s, Step, more).Some?
    ensures Unshared(After(s, Step, more).value, c)
    ensures After(s, Step, more).value.offers[c - 1] == s.offers[c - 1]
  {
    if more != [] {
      StaysUnshared(s, more[..|more| - 1], c);
      UnsharedStep(After(s, Step, more[..|more| - 1]).value, more[|more| - 1], c);
    }
  }

  // As long as no other call returns its channel, a stream has exactly the channel's values, in order, on every
  // continuation.
  lemma UnsharedKeepsOrder(serverSide: bool, limit: int, run: seq<Event>, more: seq<Event>, s: Loop, t: Loop, c: nat)
    requires Reaches(serverSide, limit, run, s) && After(s, Step, more) == Some(t)
    requires Unshared(s, c) && NoneReturns(more, s.offers[c - 1].ch)
    ensures Alone(t, c) && t.offers[c - 1].ch < |t.chans|
    ensures var chan := t.chans[t.offers[c - 1].ch];
            chan.Taken() <= |chan.written| && Got(t, c) == chan.written[..chan.Taken()]
  {
    StaysUnshared(s, more, c);
    Continue(Init(serverSide, limit), Step, run, more);
    InOrderIffAlone(serverSide, limit, run + more, t, c);
  }

  // But as soon as another stream of the same channel is registered, and the channel is open or holds a value,
  // there is a continuation in which that stream gets a value and this one's order is broken.
  lemma SharedBreaksOrder(serverSide: bool, limit: int, run: seq<Event>, s: Loop, c: nat, d: nat)
      returns (longer: seq<Event>, t: Loop)
    requires Reaches(serverSide, limit, run, s) && !s.done
    requires 0 < c <= |s.offers| && 0 < d <= |s.offers| && d != c && s.offers[d - 1].ch == s.offers[c - 1].ch
    requires d in s.got && d !in s.ended && s.offers[d - 1].ch < |s.chans|
    requires var chan := s.chans[s.offers[d - 1].ch]; !chan.closed || chan.Taken() < |chan.written|
    ensures run <= longer && Reaches(serverSide, limit, longer, t)
    ensures c <= |t.offers| && !Alone(t, c) && t.offers[c - 1].ch < |t.chans|
    ensures var chan := t.chans[t.offers[c - 1].ch];
            chan.Taken() <= |chan.written| && Got(t, c) != chan.written[..chan.Taken()]
  {
    var init, ch := Init(serverSide, limit), s.offers[d - 1].ch;
    RunKeeps(serverSide, limit, run, s);
    longer, t := run, s;
    if s.chans[ch].Taken() >= |s.chans[ch].written| {
      longer, t := Extend(init, Step, run, s, Source(SendItem(ch, Item(0, true, true))));
    }
    longer, t := TakeNext(serverSide, limit, longer, t, d);
    InOrderIffAlone(serverSide, limit, longer, t, c);
  }

  // A registered stream whose channel holds a value takes it.
  lemma TakeNext(serverSide: bool, limit: int, run: seq<Event>, s: Loop, d: nat) returns (longer: seq<Event>, t: Loop)
    requires Reaches(serverSide, limit, run, s) && !s.done
    requires 0 < d <= |s.offers| && d in s.got && d !in s.ended && s.offers[d - 1].ch < |s.chans|
    requires s.chans[s.offers[d - 1].ch].Taken() < |s.chans[s.offers[d - 1].ch].written|
    ensures run <= longer && Reaches(serverSide, limit, longer, t) && t.offers == s.offers && Got(t, d) != []
  {
    RunKeeps(serverSide, limit, run, s);
    var i := CaseOf(s, d);
    longer, t := Extend(Init(serverSide, limit), Step, run, s, Select(Forward(i + INTERNAL_CASES, true)));
  }

  // The case of a registered stream.
  lemma CaseOf(s: Loop, d: nat) returns (i: nat)
    requires Structure(s) && d in s.got && d !in s.ended
    ensures i < |s.registrations| && s.registrations[i].chID == d && i + INTERNAL_CASES < |s.cases|
    ensures s.cases[i + INTERNAL_CASES] == Receive(s.offers[d - 1].ch)
  {
    assert Held(s, d);
    i :| 0 <= i < |s.registrations| && s.registrations[i].chID == d;
    assert Listed(s, s.registrations[i]);
  }

  // How often x is in a sequence.
  function Times(items: seq<Item>, x: Item): nat {
    if items == [] then 0 else Times(items[..|items| - 1], x) + (if items[|items| - 1] == x then 1 else 0)
  }

  lemma TimesSnoc(items: seq<Item>, item: Item, x: Item)
    ensures Times(items + [item], x) == Times(items, x) + (if item == x then 1 else 0)
  {
    assert (items + [item])[..|items|] == items;
  }

  // What the last value taken adds to the share of stream c.
  lemma LastShare(written: seq<Item>, takers: seq<nat>, front: seq<nat>, c: nat, x: Item)
    requires takers != [] && |takers| <= |written| && front == takers[..|takers| - 1]
    ensures Times(Share(written, takers, c), x) ==
            Times(Share(written, front, c), x) +
            (if takers[|front|] == c && written[|front|] == x then 1 else 0)
  {
    var before := Share(written, front, c);
    if takers[|front|] == c {
      assert Share(written, takers, c) == before + [written[|front|]];
      TimesSnoc(before, written[|front|], x);
    } else {
      assert Share(written, takers, c) == before + [] == before;
    }
  }

  // How often the first n streams have received x from channel ch, all together.
  function Together(s: Loop, ch: nat, n: nat, x: Item): nat
    requires n <= |s.offers|
  {
    if n == 0 then 0
    else Together(s, ch, n - 1, x) + (if s.offers[n - 1].ch == ch then Times(Got(s, n), x) else 0)
  }

  // How often x is in the shares of streams 1 to n.
  function InShares(written: seq<Item>, takers: seq<nat>, n: nat, x: Item): nat
    requires |takers| <= |written|
  {
    if n == 0 then 0 else InShares(written, takers, n - 1, x) + Times(Share(written, takers, n), x)
  }

  // The last value taken is in exactly one of the shares.
  lemma {:induction false} LastInShares(written: seq<Item>, takers: seq<nat>, front: seq<nat>, n: nat, x: Item)
    requires takers != [] && |takers| <= |written| && front == takers[..|takers| - 1] && 0 < takers[|front|]
    ensures InShares(written, takers, n, x) ==
            InShares(written, front, n, x) + (if takers[|front|] <= n && written[|front|] == x then 1 else 0)
  {
    if n > 0 {
      LastInShares(written, takers, front, n - 1, x);
      LastShare(written, takers, front, n, x);
    }
  }

  lemma {:induction false} NothingInShares(written: seq<Item>, n: nat, x: Item)
    ensures InShares(written, [], n, x) == 0
  {
    if n > 0 {
      NothingInShares(written, n - 1, x);
    }
  }

  lemma {:induction false} SharesAreAll(written: seq<Item>, takers: seq<nat>, n: nat, x: Item)
    requires |takers| <= |written| && forall k | 0 <= k < |takers| :: 0 < takers[k] <= n
    ensures InShares(written, takers, n, x) == Times(written[..|takers|], x)
  {
    if takers == [] {
      NothingInShares(written, n, x);
    } else {
      var front := takers[..|takers| - 1];
      SharesAreAll(written, front, n, x);
      LastInShares(written, takers, front, n, x);
      assert written[..|takers|][..|front|] == written[..|front|];
    }
  }

  lemma {:induction false} TogetherIsShares(s: Loop, ch: nat, n: nat, x: Item)
    requires OffersOk(s) && Dealt(s) && ch < |s.chans| && n <= |s.offers|
    ensures Together(s, ch, n, x) == InShares(s.chans[ch].written, s.chans[ch].takers, n, x)
  {
    if n > 0 {
      TogetherIsShares(s, ch, n - 1, x);
      assert ShareOk(s, n) && TakersOk(s, ch);
      if s.offers[n - 1].ch != ch {
        forall k | 0 <= k < |s.chans[ch].takers| ensures s.chans[ch].takers[k] != n {
          assert IsTaker(s, ch, s.chans[ch].takers[k]);
        }
        NoShare(s.chans[ch].written, s.chans[ch].takers, n);
      }
    }
  }

  // However many calls return the same Go channel, no value is lost and none is forwarded twice: each value
  // received went to exactly one of the channel's streams, and each stream has its share in the order the method
  // sent it.
  lemma ValuesAreDealt(serverSide: bool, limit: int, run: seq<Event>, s: Loop, ch: nat)
    requires Reaches(serverSide, limit, run, s) && ch < |s.chans|
    ensures s.chans[ch].Taken() <= |s.chans[ch].written|
    ensures forall x :: Together(s, ch, |s.offers|, x) == Times(s.chans[ch].written[..s.chans[ch].Taken()], x)
    ensures forall k | 0 <= k < s.chans[ch].Taken() :: IsTaker(s, ch, s.chans[ch].takers[k])
    ensures forall c | 0 < c <= |s.offers| && s.offers[c - 1].ch == ch ::
              Got(s, c) == Share(s.chans[ch].written, s.chans[ch].takers, c)
  {
    RunKeeps(serverSide, limit, run, s);
    assert TakersOk(s, ch);
    forall c | 0 < c <= |s.offers| && s.offers[c - 1].ch == ch
      ensures Got(s, c) == Share(s.chans[ch].written, s.chans[ch].takers, c)
    {
      assert ShareOk(s, c);
    }
    forall k | 0 <= k < |s.chans[ch].takers| ensures 0 < s.chans[ch].takers[k] <= |s.offers| {
      assert IsTaker(s, ch, s.chans[ch].takers[k]);
    }
    forall x ensures Together(s, ch, |s.offers|, x) == Times(s.chans[ch].written[..s.chans[ch].Taken()], x) {
      TogetherIsShares(s, ch, |s.offers|, x);
      SharesAreAll(s.chans[ch].written, s.chans[ch].takers, |s.offers|, x);
    }
  }

  // ---------- on the wire ----------

  // What the loop has tried to send for a stream is a prefix of its story, as long as no other stream has taken
  // from its channel; and once its end is tried, the whole of it.
  lemma TriedIsStory(s: Loop, c: nat)
    requires Inv(s) && Alone(s, c)
    ensures Trace(s.tried, c) <= Story(s, c)
    ensures Ended(c) in Trace(s.tried, c) ==>
              s.offers[c - 1].ch < |s.chans| && s.chans[s.offers[c - 1].ch].closed && Trace(s.tried, c) == Story(s, c)
  {
    assert Trace(s.tried, c) == Expected(s, c);
    assert ShareOk(s, c);
    AloneIff(s, c);
    var chan := s.chans[s.offers[c - 1].ch];
    EncodablePrefix(Got(s, c), chan.written);
    ValuesPrefix(c, Encodable(Got(s, c)), Encodable(chan.written));
    if c in s.ended {
      assert chan.written[..chan.Taken()] == chan.written;
    }
  }

  // On any connection the frames of a stream continue its story from where the loop stood when the connection was
  // installed. On the first connection, the only one a server has, they are therefore a prefix of the story.
  lemma WireIsStory(serverSide: bool, limit: int, run: seq<Event>, s: Loop, c: nat)
    requires Reaches(serverSide, limit, run, s) && Alone(s, c)
    ensures s.base <= |s.tried| && Trace(s.tried[..s.base], c) + Trace(s.log, c) <= Story(s, c)
    ensures serverSide || s.base == 0 ==> Trace(s.log, c) <= Story(s, c)
    ensures Trace(s.log, c) == [] || (Trace(s.log, c)[0].Opened? <==> Trace(s.tried[..s.base], c) == [])
  {
    RunKeeps(serverSide, limit, run, s);
    TriedIsStory(s, c);
    SegmentTrace(s, c);
    Continues(Trace(s.tried[..s.base], c), Trace(s.log, c), Story(s, c));
    StoryOpensOnce(s, c);
    if serverSide {
      ServerKeepsConnection(limit, run, s);
    }
  }

  lemma Continues(past: seq<Msg>, now: seq<Msg>, story: seq<Msg>)
    requires past + now <= story
    ensures now != [] ==> |past| < |story| && story[|past|] == now[0]
    ensures past == [] ==> now <= story
  {
    if now != [] {
      assert (past + now)[|past|] == now[0];
    }
    assert past == [] ==> past + now == now;
  }

  lemma StoryOpensOnce(s: Loop, c: nat)
    ensures forall i | 0 <= i < |Story(s, c)| :: Story(s, c)[i].Opened? <==> i == 0
  {
  }

  lemma SegmentTrace(s: Loop, c: nat)
    requires Segment(s)
    ensures s.base <= |s.tried| && Trace(s.tried[..s.base], c) + Trace(s.log, c) <= Trace(s.tried, c)
    ensures s.base == 0 ==> Trace(s.tried[..s.base], c) == []
  {
    var shown := s.tried[..s.base + |s.log|];
    assert shown == s.tried[..s.base] + s.log;
    TraceConcat(s.tried[..s.base], s.log, c);
    TracePrefix(shown, s.tried, c);
  }

  lemma ServerKeepsConnection(limit: int, run: seq<Event>, s: Loop)
    requires Reaches(true, limit, run, s)
    ensures s.base == 0
  {
    Invariant(Init(true, limit), Step, (u: Loop) => u.serverSide && u.base == 0, run);
  }

  // If two calls return the same Go channel, each of its values goes to only one of the two streams.
  lemma SharedChannelSplits()
    ensures exists run, s: Loop ::
              Reaches(true, 2, run, s) && |s.offers| == 2 && s.offers[0].ch == s.offers[1].ch &&
              !(Trace(s.log, 2) <= Story(s, 2))
  {
    var one, two := Item(1, true, true), Item(2, true, true);
    var run, s := ShareChannel(one, two);
    run, s := RegisterBoth(run, s);
    assert s.cases == [RegisterCase, ExitCase, Receive(0), Receive(0)];
    assert s.chans[0].written[0] == one;
    run, s := ForwardOne(run, s, 2, one);
    assert s.chans[0].written[1] == two;
    run, s := ForwardOne(run, s, 3, two);
    assert s.log == [Opened(1, 10), Opened(2, 11), Value(1, one), Value(2, two)];
    SharedTrace(s, one, two);
  }

  lemma ForwardOne(run: seq<Event>, s: Loop, chosen: nat, item: Item) returns (longer: seq<Event>, t: Loop)
    requires Reaches(true, 2, run, s) && SelectEnabled(s, Forward(chosen, true)) && !s.broken
    requires item == s.chans[s.cases[chosen].ch].written[s.chans[s.cases[chosen].ch].Taken()] && item.encodes
    ensures Reaches(true, 2, longer, t)
    ensures var c := s.registrations[chosen - INTERNAL_CASES].chID;
            var ch := s.cases[chosen].ch;
            t == s.(chans := s.chans[ch := s.chans[ch].(takers := s.chans[ch].takers + [c])],
                    got := t.got, tried := t.tried, log := s.log + [Value(c, item)])
  {
    longer, t := Extend(Init(true, 2), Step, run, s, Select(Forward(chosen, true)));
  }

  lemma RegisterBoth(run: seq<Event>, s: Loop) returns (longer: seq<Event>, t: Loop)
    requires Reaches(true, 2, run, s)
    requires s == Init(true, 2).(chans := s.chans, offers := [Registration(10, 1, 0), Registration(11, 2, 0)])
    ensures Reaches(true, 2, longer, t)
    ensures t == s.(cases := [RegisterCase, ExitCase, Receive(0), Receive(0)], registrations := s.offers,
                    got := map[1 := [], 2 := []], tried := t.tried, log := [Opened(1, 10), Opened(2, 11)])
  {
    longer, t := Extend(Init(true, 2), Step, run, s, Select(Register(0, true)));
    longer, t := Extend(Init(true, 2), Step, longer, t, Select(Register(1, true)));
    assert t.registrations == s.offers;
    assert t.cases == [RegisterCase, ExitCase, Receive(0), Receive(0)];
    assert t.log == [Opened(1, 10), Opened(2, 11)];
    assert t.got == map[1 := [], 2 := []];
  }

  lemma ShareChannel(one: Item, two: Item) returns (run: seq<Event>, s: Loop)
    ensures Reaches(true, 2, run, s)
    ensures s == Init(true, 2).(chans := [Chan([one, two], [], false)],
                                offers := [Registration(10, 1, 0), Registration(11, 2, 0)])
  {
    var init := Init(true, 2);
    run, s := OfferTwice();
    assert [] + [one] == [one] && [one] + [two] == [one, two];
    run, s := Extend(init, Step, run, s, Source(SendItem(0, one)));
    assert s.chans == [Chan([one], [], false)];
    run, s := Extend(init, Step, run, s, Source(SendItem(0, two)));
    assert s.chans == [Chan([one, two], [], false)];
  }

  lemma OfferTwice() returns (run: seq<Event>, s: Loop)
    ensures Reaches(true, 2, run, s)
    ensures s == Init(true, 2).(chans := [Chan([], [], false)],
                                offers := [Registration(10, 1, 0), Registration(11, 2, 0)])
  {
    var init := Init(true, 2);
    run, s := Extend(init, Step, [], init, Source(MakeChan));
    assert s.chans == [Chan([], [], false)];
    run, s := Extend(init, Step, run, s, Source(Offer(10, 0)));
    assert s.offers == [Registration(10, 1, 0)];
    run, s := Extend(init, Step, run, s, Source(Offer(11, 0)));
    assert s.offers == [Registration(10, 1, 0), Registration(11, 2, 0)];
  }

  lemma SharedTrace(s: Loop, one: Item, two: Item)
    requires s.log == [Opened(1, 10), Opened(2, 11), Value(1, one), Value(2, two)]
    requires |s.offers| == 2 && s.offers[1].ch < |s.chans| && s.chans[s.offers[1].ch].written == [one, two]
    requires one == Item(1, true, true) && two == Item(2, true, true)
    ensures !(Trace(s.log, 2) <= Story(s, 2))
  {
    SecondTrace(one, two);
    BothEncode(one, two);
    assert Trace(s.log, 2)[1] == Value(2, two);
    assert Story(s, 2)[1] == Value(2, one);
  }

  lemma SecondTrace(one: Item, two: Item)
    ensures Trace([Opened(1, 10), Opened(2, 11), Value(1, one), Value(2, two)], 2) == [Opened(2, 11), Value(2, two)]
  {
    var a := [Opened(1, 10)];
    var b := [Opened(1, 10), Opened(2, 11)];
    var c := [Opened(1, 10), Opened(2, 11), Value(1, one)];
    TraceSnoc([], Opened(1, 10), 2);
    assert [] + [Opened(1, 10)] == a;
    TraceSnoc(a, Opened(2, 11), 2);
    assert a + [Opened(2, 11)] == b;
    TraceSnoc(b, Value(1, one), 2);
    assert b + [Value(1, one)] == c;
    TraceSnoc(c, Value(2, two), 2);
    assert c + [Value(2, two)] == [Opened(1, 10), Opened(2, 11), Value(1, one), Value(2, two)];
  }

  lemma BothEncode(one: Item, two: Item)
    requires one.encodes && two.encodes
    ensures Encodable([one, two]) == [one, two]
  {
    EncodableSnoc([], one);
    EncodableSnoc([one], two);
    assert [] + [one] == [one] && [one] + [two] == [one, two];
  }
}
