/** The batch part of handleReader: framing of the elements, whatever the writes are cut into. */
module Batch {
  import opened Options
  import opened Slices
  import opened Handler

  // ---------- framing ----------

  function Joined(bodies: seq<string>): string {
    if bodies == [] then ""
    else if |bodies| == 1 then bodies[0]
    else Joined(bodies[..|bodies| - 1]) + "," + bodies[|bodies| - 1]
  }

  // A batch response before its closing bracket.
  function Started(bodies: seq<string>): string {
    if bodies == [] then "" else "[" + Joined(bodies)
  }

  // Section 6 of the JSON-RPC 2.0 Specification: an array of the elements, or nothing at all.
  function Framed(bodies: seq<string>): string {
    if bodies == [] then "" else "[" + Joined(bodies) + "]"
  }

  // Where element i stands in the output: behind the bracket and the elements and separators before it.
  function Offset(bodies: seq<string>, i: nat): nat
    requires i <= |bodies|
  {
    if i == 0 then 1 else Offset(bodies, i - 1) + |bodies[i - 1]| + 1
  }

  lemma {:induction false} OffsetStays(bodies: seq<string>, more: seq<string>, i: nat)
    requires i <= |bodies| && bodies <= more
    ensures Offset(more, i) == Offset(bodies, i)
  {
    if i > 0 {
      OffsetStays(bodies, more, i - 1);
    }
  }

  lemma {:induction false} OffsetGrows(bodies: seq<string>, i: nat, j: nat)
    requires i < j <= |bodies|
    ensures Offset(bodies, i) + |bodies[i]| + 1 <= Offset(bodies, j)
  {
    if i + 1 < j {
      OffsetGrows(bodies, i, j - 1);
    }
  }

  // Element i stands at its offset, behind the bracket or a separator.
  ghost predicate StandsAt(out: string, bodies: seq<string>, i: nat)
    requires i < |bodies|
  {
    var at := Offset(bodies, i);
    && 1 <= at && at + |bodies[i]| <= |out|
    && out[at..at + |bodies[i]|] == bodies[i]
    && out[at - 1] == if i == 0 then '[' else ','
  }

  lemma StandsStill(out: string, more: string, bodies: seq<string>, longer: seq<string>, i: nat)
    requires i < |bodies| && bodies <= longer && out <= more && StandsAt(out, bodies, i)
    ensures StandsAt(more, longer, i)
  {
    OffsetStays(bodies, longer, i);
    var at := Offset(bodies, i);
    assert more[at..at + |bodies[i]|] == out[at..at + |bodies[i]|];
  }

  // One more element behind a separator.
  lemma StandsLast(before: string, front: seq<string>, last: string)
    requires front != [] && |before| + 1 == Offset(front, |front|)
    ensures StandsAt(before + "," + last, front + [last], |front|)
    ensures |before + "," + last| + 1 == Offset(front + [last], |front| + 1)
  {
    var out, bodies := before + "," + last, front + [last];
    OffsetStays(front, bodies, |front|);
    assert bodies[|front|] == last;
    assert out[|before| + 1..] == last;
    assert out[|before|] == ',';
  }

  lemma StandsFirst(last: string)
    ensures StandsAt("[" + last, [last], 0) && |"[" + last| + 1 == Offset([last], 1)
  {
    assert ("[" + last)[1..] == last;
    assert Offset([last], 1) == Offset([last], 0) + |last| + 1;
  }

  lemma {:induction false} StartedLength(bodies: seq<string>)
    requires bodies != []
    ensures |Started(bodies)| + 1 == Offset(bodies, |bodies|)
  {
    var n := |bodies| - 1;
    var front, last := bodies[..n], bodies[n];
    assert bodies == front + [last];
    StartedNext(front, last);
    if n > 0 {
      StartedLength(front);
      OffsetStays(front, bodies, n);
    }
  }

  lemma {:induction false} StartedStands(bodies: seq<string>, i: nat)
    requires i < |bodies|
    ensures StandsAt(Started(bodies), bodies, i)
  {
    var n := |bodies| - 1;
    var front, last := bodies[..n], bodies[n];
    assert bodies == front + [last];
    StartedNext(front, last);
    if i < n {
      StartedStands(front, i);
      StandsStill(Started(front), Started(bodies), front, bodies, i);
    } else if n == 0 {
      assert bodies == [last];
      StandsFirst(last);
    } else {
      StartedLength(front);
      StandsLast(Started(front), front, last);
    }
  }

  // The response to a batch is nothing without elements; and with them it begins with a bracket, holds each element
  // in its place, separated by commas, and ends with a bracket, with nothing in between.
  lemma FramedStands(bodies: seq<string>)
    ensures bodies == [] ==> Framed(bodies) == ""
    ensures bodies != [] ==>
              var out := Framed(bodies);
              && |out| == Offset(bodies, |bodies|) && out[0] == '[' && out[|out| - 1] == ']'
              && forall i | 0 <= i < |bodies| :: StandsAt(out, bodies, i)
  {
    if bodies != [] {
      StartedLength(bodies);
      var before, out := Started(bodies), Framed(bodies);
      assert out == before + "]";
      forall i | 0 <= i < |bodies| ensures StandsAt(out, bodies, i) {
        StartedStands(bodies, i);
        StandsStill(before, out, bodies, bodies, i);
      }
      assert StandsAt(out, bodies, 0);
    }
  }

  // More of the last element.
  function Grow(bodies: seq<string>, chunk: string): seq<string> {
    if bodies == [] then bodies else bodies[|bodies| - 1 := bodies[|bodies| - 1] + chunk]
  }

  lemma StartedNext(bodies: seq<string>, chunk: string)
    ensures Started(bodies + [chunk]) == Started(bodies) + (if bodies == [] then "[" else ",") + chunk
  {
    var more := bodies + [chunk];
    assert more[..|more| - 1] == bodies;
    if bodies != [] {
      assert Started(more) == "[" + (Joined(bodies) + "," + chunk);
    }
  }

  lemma StartedMore(bodies: seq<string>, chunk: string)
    requires bodies != []
    ensures Started(Grow(bodies, chunk)) == Started(bodies) + chunk
  {
    var last := |bodies| - 1;
    var more := Grow(bodies, chunk);
    if last == 0 {
      assert "[" + (bodies[0] + chunk) == "[" + bodies[0] + chunk;
    } else {
      var front := Joined(bodies[..last]) + ",";
      assert more[..last] == bodies[..last];
      assert Joined(more) == front + (bodies[last] + chunk);
      assert Joined(bodies) == front + bodies[last];
      assert "[" + (front + (bodies[last] + chunk)) == ("[" + (front + bodies[last])) + chunk;
    }
  }

  function Clip(s: string, room: nat): string {
    if |s| <= room then s else s[..room]
  }

  // As much of the beginning as there is room for.
  lemma ClipIsPrefix(s: string, room: nat)
    ensures Clip(s, room) <= s && |Clip(s, room)| == if |s| <= room then |s| else room
  {
  }

  // ---------- writers ----------

  /** The response writer: it takes `room` bytes and then fails for good. */
  class Output {
    var out: string
    const room: nat

    constructor (room: nat)
      ensures out == "" && this.room == room
    {
      out := "";
      this.room := room;
    }

    method Write(p: string) returns (ok: bool)
      requires |out| <= room
      modifies this
      ensures out == Clip(old(out) + p, room)
      ensures ok <==> |old(out) + p| <= room
    {
      if |out| + |p| <= room {
        out := out + p;
        ok := true;
      } else {
        out := out + p[..room - |out|];
        ok := false;
      }
    }
  }

  class BatchWriter {
    const w: Output
    var wrote: bool
    // The elements begun so far; the last one may still grow.
    ghost var bodies: seq<string>

    ghost predicate Valid()
      reads this, w
    {
      && w.out == Clip(Started(bodies), w.room)
      && (|Started(bodies)| <= w.room ==> (wrote <==> bodies != []))
      && (wrote ==> bodies != [])
    }

    constructor (w: Output)
      requires w.out == ""
      ensures this.w == w && !wrote && bodies == [] && Valid()
    {
      this.w := w;
      wrote := false;
      bodies := [];
    }
  }

  class BatchItemWriter {
    const batch: BatchWriter
    var wrote: bool
    // Whether this item has begun an element: the same as `wrote` until the output fails.
    ghost var begun: bool

    ghost predicate Valid()
      reads this, batch, batch.w
    {
      && batch.Valid()
      && (wrote ==> begun)
      && (begun ==> batch.bodies != [])
      && (|Started(batch.bodies)| <= batch.w.room ==> (wrote <==> begun))
    }

    constructor (batch: BatchWriter)
      requires batch.Valid()
      ensures this.batch == batch && !wrote && !begun && Valid()
    {
      this.batch := batch;
      wrote := false;
      begun := false;
    }

    // A write goes to this item's own element, which the first write opens with the right separator.
    method Write(p: string) returns (ok: bool)
      requires Valid()
      modifies this, batch, batch.w
      ensures Valid() && begun
      // The write succeeds exactly if everything written so far fits; only an empty one to an item under way always
      // does.
      ensures ok <==> |Started(batch.bodies)| <= batch.w.room || (old(wrote) && p == "")
      ensures old(begun) ==> batch.bodies == Grow(old(batch.bodies), p)
      ensures !old(begun) ==> batch.bodies == old(batch.bodies) + [p]
    {
      ghost var before := batch.bodies;
      StartedNext(before, p);
      if begun {
        StartedMore(before, p);
        batch.bodies := Grow(before, p);
      } else {
        batch.bodies := before + [p];
      }
      begun := true;
      if !wrote {
        if !batch.wrote {
          ok := batch.w.Write("[");
          if !ok {
            return false;
          }
          batch.wrote := true;
        } else {
          ok := batch.w.Write(",");
          if !ok {
            return false;
          }
        }
        wrote := true;
      }
      ok := batch.w.Write(p);
    }
  }

  // ---------- the batch ----------

  // An identifier as it comes off the wire.
  datatype RawId = Absent | Number(n: int) | Unsupported

  // The pieces in which an element is written.
  datatype Text = Text(head: string, tail: seq<string>)

  /** A request of the batch; `render` encodes its reply together with an identifier. */
  datatype Request = Request(id: RawId, env: Env, render: (Option<int>, Reply) -> Text)

  // No identifier is encoded as null.
  datatype Element = Element(id: Option<int>, reply: Reply, text: Text)

  // normalizeID refuses an unsupported identifier and leaves none.
  function IdOf(r: Request): Option<int> {
    if r.id.Number? then Some(r.id.n) else None
  }

  function ReplyTo(r: Request): Reply {
    if r.id.Unsupported? then ErrorReply(PARSE_ERROR) else Answer(r.env, IdOf(r))
  }

  function ElementOf(r: Request): Element {
    Element(IdOf(r), ReplyTo(r), r.render(IdOf(r), ReplyTo(r)))
  }

  // Channels are not supported over this transport.
  predicate OverHttp(r: Request) {
    !r.env.chanOut && (r.env.call.Completed? && (r.env.call.value.Chan? || r.env.call.value.NilChan?) ==> r.env.streams)
  }

  // The request gets an element.
  predicate Replies(r: Request) {
    !ReplyTo(r).NoReply?
  }

  function Body(text: Text): string {
    text.head + Concat(text.tail)
  }

  // The elements of a batch, in order.
  function Elements(reqs: seq<Request>): seq<Element> {
    if reqs == [] then []
    else Elements(reqs[..|reqs| - 1]) + (if Replies(reqs[|reqs| - 1]) then [ElementOf(reqs[|reqs| - 1])] else [])
  }

  function Bodies(elements: seq<Element>): (r: seq<string>)
    ensures |r| == |elements|
  {
    seq(|elements|, i requires 0 <= i < |elements| => Body(elements[i].text))
  }

  // The positions of the requests that reply.
  function Positions(reqs: seq<Request>): seq<nat> {
    if reqs == [] then []
    else Positions(reqs[..|reqs| - 1]) + (if Replies(reqs[|reqs| - 1]) then [|reqs| - 1] else [])
  }

  // The identifiers of the elements are those of their requests, in order: one element at most for a request, and
  // one for each that replies.
  lemma ElementsInOrder(reqs: seq<Request>)
    ensures |Positions(reqs)| == |Elements(reqs)|
    ensures forall i | 0 <= i < |Positions(reqs)| ::
              var n := Positions(reqs)[i];
              && n < |reqs| && Elements(reqs)[i] == ElementOf(reqs[n])
              && Elements(reqs)[i].id == (if reqs[n].id.Number? then Some(reqs[n].id.n) else None)
              && Elements(reqs)[i].text == reqs[n].render(Elements(reqs)[i].id, Elements(reqs)[i].reply)
              && Elements(reqs)[i].reply ==
                   (if reqs[n].id.Unsupported? then ErrorReply(-32700) else Answer(reqs[n].env, Elements(reqs)[i].id))
    ensures forall i, j | 0 <= i < j < |Positions(reqs)| :: Positions(reqs)[i] < Positions(reqs)[j]
    ensures forall n | 0 <= n < |reqs| :: Replies(reqs[n]) <==> n in Positions(reqs)
  {
    PositionsAreReplies(reqs);
    ElementsAtPositions(reqs);
  }

  lemma {:induction false} PositionsAreReplies(reqs: seq<Request>)
    ensures forall i | 0 <= i < |Positions(reqs)| :: Positions(reqs)[i] < |reqs|
    ensures forall i, j | 0 <= i < j < |Positions(reqs)| :: Positions(reqs)[i] < Positions(reqs)[j]
    ensures forall n | 0 <= n < |reqs| :: Replies(reqs[n]) <==> n in Positions(reqs)
  {
    if reqs != [] {
      var front, last := reqs[..|reqs| - 1], |reqs| - 1;
      PositionsAreReplies(front);
      assert Positions(reqs) == Positions(front) + (if Replies(reqs[last]) then [last] else []);
      forall n | 0 <= n < |reqs| ensures Replies(reqs[n]) <==> n in Positions(reqs) {
        assert n < last ==> front[n] == reqs[n];
      }
    }
  }

  lemma {:induction false} ElementsAtPositions(reqs: seq<Request>)
    ensures |Positions(reqs)| == |Elements(reqs)|
    ensures forall i | 0 <= i < |Positions(reqs)| ::
              Positions(reqs)[i] < |reqs| && Elements(reqs)[i] == ElementOf(reqs[Positions(reqs)[i]])
  {
    if reqs != [] {
      var front, last := reqs[..|reqs| - 1], |reqs| - 1;
      ElementsAtPositions(front);
      PositionsAreReplies(front);
      assert forall n | 0 <= n < last :: front[n] == reqs[n];
      assert Elements(reqs) == Elements(front) + (if Replies(reqs[last]) then [ElementOf(reqs[last])] else []);
      assert Positions(reqs) == Positions(front) + (if Replies(reqs[last]) then [last] else []);
    }
  }

  // A request is silent exactly if it is a notification that succeeded, or a call whose result does not encode. It
  // succeeds if its method is known, its parameters decode and the call does not panic.
  lemma SilenceIff(r: Request)
    requires OverHttp(r)
    ensures !Replies(r) <==>
              && !r.id.Unsupported?
              && (r.env.direct || r.env.alias == Some(true)) && !r.env.streams
              && (r.env.raw ||
                  ((r.env.present ==> r.env.isArray) && (if r.env.present then r.env.count else 0) == r.env.nParams &&
                   r.env.nParams <= |r.env.decodes| && forall i | 0 <= i < r.env.nParams :: r.env.decodes[i]))
              && r.env.call.Completed?
              && (r.id.Absent? || r.env.encoding.Unencodable?)
  {
    ConditionsPlain(r.env, IdOf(r));
  }

  // The element after its first i later pieces.
  function Part(text: Text, i: nat): string
    requires i <= |text.tail|
  {
    text.head + Concat(text.tail[..i])
  }

  lemma PartStart(text: Text)
    ensures Part(text, 0) == text.head && Part(text, |text.tail|) == Body(text)
  {
    assert text.tail[..0] == [] && text.tail[..|text.tail|] == text.tail;
  }

  lemma PartNext(before: seq<string>, text: Text, i: nat)
    requires i < |text.tail|
    ensures Grow(before + [Part(text, i)], text.tail[i]) == before + [Part(text, i + 1)]
  {
    assert text.tail[..i + 1][..i] == text.tail[..i];
    assert Part(text, i) + text.tail[i] == Part(text, i + 1);
  }

  // A reply is written through a writer of its own.
  method WriteItem(item: BatchItemWriter, text: Text)
    requires item.Valid() && !item.begun
    modifies item, item.batch, item.batch.w
    ensures item.batch.Valid()
    ensures item.batch.bodies == old(item.batch.bodies) + [Body(text)]
  {
    ghost var before := item.batch.bodies;
    var _ := item.Write(text.head);
    WriteTail(item, text, before);
  }

  method WriteTail(item: BatchItemWriter, text: Text, ghost before: seq<string>)
    requires item.Valid() && item.begun && item.batch.bodies == before + [text.head]
    modifies item, item.batch, item.batch.w
    ensures item.batch.Valid() && item.batch.bodies == before + [Body(text)]
  {
    PartStart(text);
    for i := 0 to |text.tail|
      invariant item.Valid() && item.begun
      invariant item.batch.bodies == before + [Part(text, i)]
    {
      PartNext(before, text, i);
      var _ := item.Write(text.tail[i]);
    }
  }

  // One request of a batch.
  method HandleOne(bw: BatchWriter, r: Request)
    requires OverHttp(r) && bw.Valid()
    modifies bw, bw.w
    ensures bw.Valid() && bw.bodies == old(bw.bodies) + (if Replies(r) then [Body(ElementOf(r).text)] else [])
  {
    var reply := ErrorReply(PARSE_ERROR);
    if !r.id.Unsupported? {
      var answer, _, _ := Handle(IdOf(r), r.env);
      reply := answer;
    }
    if !reply.NoReply? {
      var item := new BatchItemWriter(bw);
      WriteItem(item, r.render(IdOf(r), reply));
    }
  }

  lemma ElementsSnoc(reqs: seq<Request>, i: nat)
    requires i < |reqs|
    ensures Bodies(Elements(reqs[..i + 1])) ==
            Bodies(Elements(reqs[..i])) + (if Replies(reqs[i]) then [Body(ElementOf(reqs[i]).text)] else [])
  {
    assert reqs[..i + 1][..i] == reqs[..i];
  }

  // The response to a batch, cut off where the output failed: the framed list of the elements, or for an empty
  // batch one error outside of any list.
  method HandleBatch(reqs: seq<Request>, invalidRequest: Text, w: Output)
    requires forall i | 0 <= i < |reqs| :: OverHttp(reqs[i])
    requires w.out == ""
    modifies w
    ensures w.out == Clip(if reqs == [] then Body(invalidRequest) else Framed(Bodies(Elements(reqs))), w.room)
  {
    if |reqs| == 0 {
      WriteText(invalidRequest, w);
      return;
    }
    var bw := new BatchWriter(w);
    for i := 0 to |reqs|
      invariant bw.w == w && fresh(bw) && bw.Valid()
      invariant bw.bodies == Bodies(Elements(reqs[..i]))
    {
      ElementsSnoc(reqs, i);
      HandleOne(bw, reqs[i]);
    }
    assert reqs[..|reqs|] == reqs;
    if bw.wrote {
      var _ := w.Write("]");
    }
  }

  // Writing straight to the output.
  method WriteText(text: Text, w: Output)
    requires w.out == ""
    modifies w
    ensures w.out == Clip(Body(text), w.room)
  {
    PartStart(text);
    var _ := w.Write(text.head);
    for i := 0 to |text.tail|
      invariant w.out == Clip(Part(text, i), w.room)
    {
      assert text.tail[..i + 1][..i] == text.tail[..i];
      assert Part(text, i) + text.tail[i] == Part(text, i + 1);
      ClipTwice(Part(text, i), text.tail[i], w.room);
      var _ := w.Write(text.tail[i]);
    }
  }

  lemma ClipTwice(a: string, b: string, room: nat)
    ensures Clip(Clip(a, room) + b, room) == Clip(a + b, room)
  {
    if |a| > room {
      assert (a[..room] + b)[..room] == a[..room] == (a + b)[..room];
    }
  }
}
