/**
 handleOutChans: one loop selects over all registered output channels and forwards their values.

 reflect.Select receives from cases[i], but the channel ID put on the wire comes from
 registrations[i-2]; the two slices are only kept in step by appending to both and by moving the
 last entry of both into the gap when a stream ends.
 */
module OutputLoop {
  import opened Options
  import opened Slices
  import opened SelectCases

  // A value a method sends on its channel; encoding it may fail, and so may decoding it at the other end.
  datatype Item = Item(value: int, encodes: bool, decodes: bool)

  // A Go channel: what was sent on it, which stream received each value so far, and whether it was closed.
  datatype Chan = Chan(written: seq<Item>, takers: seq<nat>, closed: bool) {
    function Taken(): nat {
      |takers|
    }
  }

  datatype Registration = Registration(reqID: nat, chID: nat, ch: nat)

  datatype Case = RegisterCase | ExitCase | Receive(ch: nat)

  // Frames the loop writes: the response carrying the channel ID, xrpc.ch.val and xrpc.ch.close.
  datatype Msg = Opened(chID: nat, reqID: nat) | Value(chID: nat, item: Item) | Ended(chID: nat)

  /** `offers` are the registrations handleChanOut made, in the order of chanCtr; `got` what each
      registered stream received; `tried` every frame handed to the connection, `log` those that went out
      on the current connection, which was installed when `base` frames had been tried. */
  datatype Loop = Loop(
    serverSide: bool,
    limit: int,
    cases: seq<Case>,
    registrations: seq<Registration>,
    chans: seq<Chan>,
    offers: seq<Registration>,
    got: map<nat, seq<Item>>,
    ended: set<nat>,
    tried: seq<Msg>,
    base: nat,
    log: seq<Msg>,
    broken: bool,
    done: bool)

  function Init(serverSide: bool, limit: int): Loop {
    Loop(serverSide, limit, [RegisterCase, ExitCase], [], [], [], map[], {}, [], 0, [], false, false)
  }

  // What the methods do with their channels, and handleChanOut.
  datatype SourceEvent = MakeChan | SendItem(ch: nat, item: Item) | CloseChan(ch: nat) | Offer(reqID: nat, ch: nat)

  // One iteration of the loop; `written` says whether the write succeeds if the connection still works.
  datatype SelectEvent =
    | Register(offer: nat, written: bool)
    | Forward(chosen: nat, written: bool)
    | Retire(chosen: nat, written: bool)
    | Exit

  datatype LinkEvent = Break | Reconnect

  datatype Event = Source(source: SourceEvent) | Select(select: SelectEvent) | Link(link: LinkEvent)

  predicate SourceEnabled(s: Loop, e: SourceEvent) {
    match e
    case MakeChan => true
    case SendItem(ch, _) => ch < |s.chans| && !s.chans[ch].closed
    case CloseChan(ch) => ch < |s.chans| && !s.chans[ch].closed
    case Offer(_, ch) => ch < |s.chans|
  }

  function SourceNext(s: Loop, e: SourceEvent): Loop
    requires SourceEnabled(s, e)
  {
    match e
    case MakeChan => s.(chans := s.chans + [Chan([], [], false)])
    case SendItem(ch, item) => s.(chans := s.chans[ch := s.chans[ch].(written := s.chans[ch].written + [item])])
    case CloseChan(ch) => s.(chans := s.chans[ch := s.chans[ch].(closed := true)])
    case Offer(reqID, ch) => s.(offers := s.offers + [Registration(reqID, |s.offers| + 1, ch)])
  }

  // A write goes out unless the connection broke earlier or breaks now; after a failed write all others fail.
  function Write(s: Loop, m: Msg, written: bool): Loop {
    s.(tried := s.tried + [m],
       log := if !s.broken && written then s.log + [m] else s.log,
       broken := s.broken || !written)
  }

  predicate CanReceive(s: Loop, chosen: nat) {
    && !s.done
    && INTERNAL_CASES <= chosen < |s.cases|
    && chosen - INTERNAL_CASES < |s.registrations|
    && s.cases[chosen].Receive?
    && s.cases[chosen].ch < |s.chans|
  }

  predicate SelectEnabled(s: Loop, e: SelectEvent) {
    match e
    case Register(i, _) => !s.done && i < |s.offers| && s.offers[i].chID !in s.got && |s.registrations| < s.limit
    case Forward(chosen, _) =>
      CanReceive(s, chosen) && s.chans[s.cases[chosen].ch].Taken() < |s.chans[s.cases[chosen].ch].written|
    case Retire(chosen, _) =>
      CanReceive(s, chosen) && s.chans[s.cases[chosen].ch].closed &&
      s.chans[s.cases[chosen].ch].Taken() >= |s.chans[s.cases[chosen].ch].written|
    case Exit => !s.done
  }

  function RegisterStream(s: Loop, r: Registration, written: bool): Loop {
    var t := s.(registrations := s.registrations + [r], cases := s.cases + [Receive(r.ch)], got := s.got[r.chID := []]);
    Write(t, Opened(r.chID, r.reqID), written)
  }

  function Got(s: Loop, c: nat): seq<Item> {
    if c in s.got then s.got[c] else []
  }

  // Receive from the chosen case, send under the ID of the registration at the same position. A value that
  // does not encode is skipped; a failed write ends the loop of a server.
  function ForwardValue(s: Loop, chosen: nat, written: bool): Loop
    requires SelectEnabled(s, Forward(chosen, written))
  {
    var ch := s.cases[chosen].ch;
    var item := s.chans[ch].written[s.chans[ch].Taken()];
    var c := s.registrations[chosen - INTERNAL_CASES].chID;
    var t := s.(chans := s.chans[ch := s.chans[ch].(takers := s.chans[ch].takers + [c])],
                got := s.got[c := Got(s, c) + [item]]);
    if !item.encodes then t
    else
      var u := Write(t, Value(c, item), written);
      u.(done := u.broken && s.serverSide)
  }

  function RetireStream(s: Loop, chosen: nat, written: bool): Loop
    requires SelectEnabled(s, Retire(chosen, written))
  {
    var c := s.registrations[chosen - INTERNAL_CASES].chID;
    var t := s.(cases := SwapRemove(s.cases, chosen),
                registrations := SwapRemove(s.registrations, chosen - INTERNAL_CASES),
                ended := s.ended + {c});
    Write(t, Ended(c), written)
  }

  function SelectNext(s: Loop, e: SelectEvent): Loop
    requires SelectEnabled(s, e)
  {
    match e
    case Register(i, written) => RegisterStream(s, s.offers[i], written)
    case Forward(chosen, written) => ForwardValue(s, chosen, written)
    case Retire(chosen, written) => RetireStream(s, chosen, written)
    case Exit => s.(done := true)
  }

  // Only a reconnecting client replaces its connection.
  predicate LinkEnabled(s: Loop, e: LinkEvent) {
    e.Reconnect? ==> !s.serverSide
  }

  function LinkNext(s: Loop, e: LinkEvent): Loop
    requires LinkEnabled(s, e)
  {
    match e
    case Break => s.(broken := true)
    case Reconnect => s.(base := |s.tried|, log := [], broken := false)
  }

  predicate Enabled(s: Loop, e: Event) {
    match e
    case Source(x) => SourceEnabled(s, x)
    case Select(x) => SelectEnabled(s, x)
    case Link(x) => LinkEnabled(s, x)
  }

  function Next(s: Loop, e: Event): Loop
    requires Enabled(s, e)
  {
    match e
    case Source(x) => SourceNext(s, x)
    case Select(x) => SelectNext(s, x)
    case Link(x) => LinkNext(s, x)
  }

  function Step(s: Loop, e: Event): Option<Loop> {
    if Enabled(s, e) then Some(Next(s, e)) else None
  }

  // ---------- traces ----------

  // The frames of one channel ID, in order.
  function Trace(log: seq<Msg>, c: nat): seq<Msg> {
    if log == [] then []
    else Trace(log[..|log| - 1], c) + (if log[|log| - 1].chID == c then [log[|log| - 1]] else [])
  }

  function Encodable(items: seq<Item>): seq<Item> {
    if items == [] then []
    else Encodable(items[..|items| - 1]) + (if items[|items| - 1].encodes then [items[|items| - 1]] else [])
  }

  function Values(c: nat, items: seq<Item>): (r: seq<Msg>)
    ensures |r| == |items|
  {
    seq(|items|, i requires 0 <= i < |items| => Value(c, items[i]))
  }

  // The values stream c received from a channel, given who received each.
  function Share(written: seq<Item>, takers: seq<nat>, c: nat): seq<Item>
    requires |takers| <= |written|
  {
    if takers == [] then []
    else
      var k := |takers| - 1;
      Share(written, takers[..k], c) + (if takers[k] == c then [written[k]] else [])
  }

  lemma TraceSnoc(log: seq<Msg>, m: Msg, c: nat)
    ensures Trace(log + [m], c) == Trace(log, c) + (if m.chID == c then [m] else [])
  {
    assert (log + [m])[..|log|] == log;
  }

  lemma {:induction false} TraceConcat(a: seq<Msg>, b: seq<Msg>, c: nat)
    ensures Trace(a + b, c) == Trace(a, c) + Trace(b, c)
  {
    if b == [] {
      assert a + b == a;
    } else {
      var front, last := b[..|b| - 1], b[|b| - 1];
      TraceConcat(a, front, c);
      TraceSnoc(a + front, last, c);
      TraceSnoc(front, last, c);
      assert a + b == (a + front) + [last] && b == front + [last];
    }
  }

  lemma TracePrefix(a: seq<Msg>, b: seq<Msg>, c: nat)
    requires a <= b
    ensures Trace(a, c) <= Trace(b, c)
  {
    TraceConcat(a, b[|a|..], c);
    assert b == a + b[|a|..];
  }

  lemma EncodableSnoc(items: seq<Item>, item: Item)
    ensures Encodable(items + [item]) == Encodable(items) + (if item.encodes then [item] else [])
  {
    assert (items + [item])[..|items|] == items;
  }

  lemma {:induction false} EncodablePrefix(a: seq<Item>, b: seq<Item>)
    requires a <= b
    ensures Encodable(a) <= Encodable(b)
  {
    if a != b {
      EncodablePrefix(a, b[..|b| - 1]);
      assert b == b[..|b| - 1] + [b[|b| - 1]];
    }
  }

  lemma ValuesSnoc(c: nat, items: seq<Item>, item: Item)
    ensures Values(c, items + [item]) == Values(c, items) + [Value(c, item)]
  {
  }
}
