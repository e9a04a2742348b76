/**
 httpio: a request body posted under a UUID meets the parameter decoder waiting for that UUID. Each side
 looks the UUID's channel up, creating it if it is the first; the channel is unbuffered.
 */
module Rendezvous {
  import opened Options
  import opened Runs

  // ---------- waitReadCloser ----------

  /** A posted body. `waitClosed` says that its channel `wait` is closed, `once` that waitOnce has run. How
      often `wait` was closed, and why, is history: closing it a second time would panic. */
  datatype Body = Body(waitClosed: bool, once: bool, closings: nat, ended: bool, closed: bool)

  const NEW_BODY := Body(false, false, 0, false, false)

  // done: waitOnce lets only the first call through.
  function MarkedDone(b: Body): Body {
    if b.once then b else b.(once := true, waitClosed := true, closings := b.closings + 1)
  }

  // A Read, which fails with an error, EOF included, or does not.
  function AfterRead(b: Body, failed: bool): Body {
    if failed then MarkedDone(b).(ended := true) else b
  }

  function AfterClose(b: Body): Body {
    MarkedDone(b).(closed := true)
  }

  // `wait` is closed exactly if a read failed or the body was closed, and then once, however often that happens.
  predicate BodyOk(b: Body) {
    && (b.waitClosed <==> b.ended || b.closed)
    && (b.once <==> b.waitClosed)
    && b.closings == if b.waitClosed then 1 else 0
  }

  // A failed read and a close close `wait`, and a read that does not fail leaves it alone.
  lemma BodyEffect(b: Body)
    requires BodyOk(b)
    ensures AfterRead(b, true).waitClosed && AfterRead(b, true).ended && AfterRead(b, true).closed == b.closed
    ensures AfterRead(b, false) == b
    ensures AfterClose(b).waitClosed && AfterClose(b).closed && AfterClose(b).ended == b.ended
  {
  }

  lemma BodyStays(b: Body, failed: bool)
    requires BodyOk(b)
    ensures BodyOk(AfterRead(b, failed)) && BodyOk(AfterClose(b))
  {
  }

  class WaitReadCloser {
    var waitClosed: bool
    var once: bool
    ghost var closings: nat
    ghost var ended: bool
    ghost var closed: bool

    ghost function View(): Body
      reads this
    {
      Body(waitClosed, once, closings, ended, closed)
    }

    constructor ()
      ensures View() == NEW_BODY
    {
      waitClosed, once := false, false;
      closings, ended, closed := 0, false, false;
    }

    method MarkDone()
      modifies this
      ensures View() == MarkedDone(old(View()))
    {
      if !once {
        once := true;
        waitClosed := true;
        closings := closings + 1;
      }
    }

    method Read(failed: bool)
      requires BodyOk(View())
      modifies this
      ensures View() == AfterRead(old(View()), failed) && BodyOk(View())
    {
      BodyStays(View(), failed);
      if failed {
        MarkDone();
        ended := true;
      }
    }

    method Close()
      requires BodyOk(View())
      modifies this
      ensures View() == AfterClose(old(View())) && BodyOk(View())
    {
      BodyStays(View(), true);
      MarkDone();
      closed := true;
    }
  }

  // ---------- the rendezvous ----------

  datatype PostStage = Arriving | Offering(ch: nat) | Taken | Answered(status: int)

  datatype Post = Post(uuid: nat, stage: PostStage, body: Body)

  datatype DecoderStage = Looking | Waiting(ch: nat) | Got(post: nat) | Failed

  datatype Decoder = Decoder(uuid: nat, stage: DecoderStage)

  // readers: the channel of each UUID; channels are numbered in order of creation.
  datatype System = System(readers: map<nat, nat>, channels: nat, posts: seq<Post>, decoders: seq<Decoder>)

  const INIT := System(map[], 0, [], [])

  datatype Event =
    | PostArrives(uuid: nat)
    | DecoderArrives(uuid: nat)
    | PostLookup(post: nat)
    | DecoderLookup(decoder: nat)
    | Meet(post: nat, decoder: nat)
    | PostCancelled(post: nat)
    | DecoderCancelled(decoder: nat)
    | ReadBody(decoder: nat, failed: bool)
    | CloseBody(decoder: nat)
    | AnswerOk(post: nat)

  predicate Enabled(s: System, e: Event) {
    match e
    case PostArrives(_) => true
    case DecoderArrives(_) => true
    case PostLookup(p) => p < |s.posts| && s.posts[p].stage.Arriving?
    case DecoderLookup(d) => d < |s.decoders| && s.decoders[d].stage.Looking?
    case Meet(p, d) =>
      p < |s.posts| && d < |s.decoders| && s.posts[p].stage.Offering? && s.decoders[d].stage.Waiting? &&
      s.posts[p].stage.ch == s.decoders[d].stage.ch
    case PostCancelled(p) => p < |s.posts| && (s.posts[p].stage.Offering? || s.posts[p].stage.Taken?)
    case DecoderCancelled(d) => d < |s.decoders| && s.decoders[d].stage.Waiting?
    case ReadBody(d, _) => d < |s.decoders| && s.decoders[d].stage.Got? && s.decoders[d].stage.post < |s.posts|
    case CloseBody(d) => d < |s.decoders| && s.decoders[d].stage.Got? && s.decoders[d].stage.post < |s.posts|
    case AnswerOk(p) => p < |s.posts| && s.posts[p].stage.Taken? && s.posts[p].body.waitClosed
  }

  // The channel of a UUID, made by whoever asks first.
  function Channel(s: System, uuid: nat): nat {
    if uuid in s.readers then s.readers[uuid] else s.channels
  }

  function Ensure(s: System, uuid: nat): System {
    if uuid in s.readers then s
    else s.(readers := s.readers[uuid := s.channels], channels := s.channels + 1)
  }

  function Next(s: System, e: Event): System
    requires Enabled(s, e)
  {
    match e
    case PostArrives(u) => s.(posts := s.posts + [Post(u, Arriving, NEW_BODY)])
    case DecoderArrives(u) => s.(decoders := s.decoders + [Decoder(u, Looking)])
    case PostLookup(p) =>
      var u := s.posts[p].uuid;
      Ensure(s, u).(posts := s.posts[p := s.posts[p].(stage := Offering(Channel(s, u)))])
    case DecoderLookup(d) =>
      var u := s.decoders[d].uuid;
      Ensure(s, u).(decoders := s.decoders[d := Decoder(u, Waiting(Channel(s, u)))])
    case Meet(p, d) =>
      s.(posts := s.posts[p := s.posts[p].(stage := Taken)],
         decoders := s.decoders[d := Decoder(s.decoders[d].uuid, Got(p))])
    case PostCancelled(p) => s.(posts := s.posts[p := s.posts[p].(stage := Answered(500))])
    case DecoderCancelled(d) => s.(decoders := s.decoders[d := Decoder(s.decoders[d].uuid, Failed)])
    case ReadBody(d, failed) =>
      var p := s.decoders[d].stage.post;
      s.(posts := s.posts[p := s.posts[p].(body := AfterRead(s.posts[p].body, failed))])
    case CloseBody(d) =>
      var p := s.decoders[d].stage.post;
      s.(posts := s.posts[p := s.posts[p].(body := AfterClose(s.posts[p].body))])
    case AnswerOk(p) => s.(posts := s.posts[p := s.posts[p].(stage := Answered(200))])
  }

  function Step(s: System, e: Event): Option<System> {
    if Enabled(s, e) then Some(Next(s, e)) else None
  }

  ghost predicate HasChannel(s: System, uuid: nat, ch: nat) {
    uuid in s.readers && s.readers[uuid] == ch
  }

  ghost predicate ReadersOk(s: System) {
    && (forall u | u in s.readers :: s.readers[u] < s.channels)
    && (forall u, v | u in s.readers && v in s.readers && u != v :: s.readers[u] != s.readers[v])
  }

  ghost predicate PostOk(s: System, p: Post) {
    && BodyOk(p.body)
    && match p.stage
       case Offering(ch) => HasChannel(s, p.uuid, ch)
       case Answered(status) => status == 200 ==> p.body.waitClosed
       case _ => true
  }

  ghost predicate DecoderOk(s: System, d: Decoder) {
    match d.stage
    case Waiting(ch) => HasChannel(s, d.uuid, ch)
    case Got(p) => p < |s.posts| && s.posts[p].uuid == d.uuid && (s.posts[p].stage.Taken? || s.posts[p].stage.Answered?)
    case _ => true
  }

  ghost predicate Shares(a: Decoder, b: Decoder) {
    a.stage.Got? && b.stage.Got? && a.stage.post == b.stage.post
  }

  ghost predicate PostsOk(s: System) {
    forall p | 0 <= p < |s.posts| :: PostOk(s, s.posts[p])
  }

  ghost predicate DecodersOk(s: System) {
    forall d | 0 <= d < |s.decoders| :: DecoderOk(s, s.decoders[d])
  }

  ghost predicate Unshared(s: System) {
    forall c, d | 0 <= c < d < |s.decoders| :: !Shares(s.decoders[c], s.decoders[d])
  }

  ghost predicate Inv(s: System) {
    ReadersOk(s) && PostsOk(s) && DecodersOk(s) && Unshared(s)
  }

  lemma EnsureKeeps(s: System, uuid: nat)
    requires ReadersOk(s)
    ensures ReadersOk(Ensure(s, uuid)) && HasChannel(Ensure(s, uuid), uuid, Channel(s, uuid))
    ensures forall u, ch :: HasChannel(s, u, ch) ==> HasChannel(Ensure(s, uuid), u, ch)
  {
  }

  lemma StepKeepsChannels(s: System, e: Event)
    requires ReadersOk(s) && Enabled(s, e)
    ensures ReadersOk(Next(s, e))
    ensures forall u, ch :: HasChannel(s, u, ch) ==> HasChannel(Next(s, e), u, ch)
  {
    match e
    case PostLookup(p) => EnsureKeeps(s, s.posts[p].uuid);
    case DecoderLookup(d) => EnsureKeeps(s, s.decoders[d].uuid);
    case _ =>
  }

  lemma StepKeepsPosts(s: System, e: Event)
    requires Inv(s) && Enabled(s, e)
    ensures PostsOk(Next(s, e))
  {
    var t := Next(s, e);
    StepKeepsChannels(s, e);
    forall p | 0 <= p < |t.posts| ensures PostOk(t, t.posts[p]) {
      if p < |s.posts| {
        assert PostOk(s, s.posts[p]);
        BodyStays(s.posts[p].body, e.ReadBody? && e.failed);
      }
    }
  }

  lemma StepKeepsDecoders(s: System, e: Event)
    requires Inv(s) && Enabled(s, e)
    ensures DecodersOk(Next(s, e))
  {
    var t := Next(s, e);
    StepKeepsChannels(s, e);
    forall d | 0 <= d < |t.decoders| ensures DecoderOk(t, t.decoders[d]) {
      assert d < |s.decoders| ==> DecoderOk(s, s.decoders[d]);
    }
  }

  lemma StepKeepsUnshared(s: System, e: Event)
    requires Inv(s) && Enabled(s, e)
    ensures Unshared(Next(s, e))
  {
    if e.Meet? {
      forall c | 0 <= c < |s.decoders| && s.decoders[c].stage.Got? ensures s.decoders[c].stage.post != e.post {
        assert DecoderOk(s, s.decoders[c]);
      }
    }
  }

  lemma StepKeeps(s: System, e: Event)
    requires Inv(s) && Enabled(s, e)
    ensures Inv(Next(s, e))
  {
    StepKeepsChannels(s, e);
    StepKeepsPosts(s, e);
    StepKeepsDecoders(s, e);
    StepKeepsUnshared(s, e);
  }

  lemma RunKeeps(run: seq<Event>, s: System)
    requires After(INIT, Step, run) == Some(s)
    ensures Inv(s)
  {
    forall u, e | Inv(u) && Step(u, e).Some? ensures Inv(Step(u, e).value) {
      StepKeeps(u, e);
    }
    Invariant(INIT, Step, u => Inv(u), run);
  }

  // A decoder gets only a body posted under its own UUID, and no body goes to two decoders.
  lemma BodiesGoHome(run: seq<Event>, s: System, d: nat)
    requires After(INIT, Step, run) == Some(s) && d < |s.decoders| && s.decoders[d].stage.Got?
    ensures s.decoders[d].stage.post < |s.posts| && s.posts[s.decoders[d].stage.post].uuid == s.decoders[d].uuid
    ensures forall c | 0 <= c < |s.decoders| && c != d && s.decoders[c].stage.Got? ::
              s.decoders[c].stage.post != s.decoders[d].stage.post
  {
    RunKeeps(run, s);
  }

  // The handler waits for the channel `wait` alone. In every run that channel is closed if and only if the body hit
  // a read error or its end, or was closed; it is closed at most once, so closing after the end is safe; and only
  // then can the post be answered 200.
  lemma OkMeansConsumed(run: seq<Event>, s: System, p: nat)
    requires After(INIT, Step, run) == Some(s) && p < |s.posts|
    ensures var b := s.posts[p].body; (b.waitClosed <==> b.ended || b.closed) && b.closings <= 1
    ensures s.posts[p].stage == Answered(200) ==> s.posts[p].body.ended || s.posts[p].body.closed
    ensures s.posts[p].stage.Taken? ==>
              (Enabled(s, AnswerOk(p)) <==> s.posts[p].body.ended || s.posts[p].body.closed)
  {
    RunKeeps(run, s);
    assert PostOk(s, s.posts[p]);
  }

  // Meeting hands the body over to the decoder, whose reads and closes from then on are those of this post; and a
  // post whose `wait` is closed is answered 200.
  lemma MeetEffect(s: System, p: nat, d: nat)
    requires Enabled(s, Meet(p, d))
    ensures var t := Next(s, Meet(p, d));
            && t.decoders[d].stage == Got(p) && t.posts[p].stage == Taken && t.posts[p].body == s.posts[p].body
            && Enabled(t, CloseBody(d)) && Next(t, CloseBody(d)).posts[p].body == AfterClose(s.posts[p].body)
            && forall failed :: Enabled(t, ReadBody(d, failed)) &&
                 Next(t, ReadBody(d, failed)).posts[p].body == AfterRead(s.posts[p].body, failed)
  {
  }

  lemma AnswerEffect(s: System, p: nat)
    ensures Enabled(s, AnswerOk(p)) ==> Next(s, AnswerOk(p)).posts[p].stage == Answered(200)
    ensures Enabled(s, PostCancelled(p)) ==> Next(s, PostCancelled(p)).posts[p].stage == Answered(500)
  {
  }

  // A post and a decoder of the same UUID that both wait can always meet: they use the same channel.
  lemma SameUuidMeets(run: seq<Event>, s: System, p: nat, d: nat)
    requires After(INIT, Step, run) == Some(s) && p < |s.posts| && d < |s.decoders|
    requires s.posts[p].stage.Offering? && s.decoders[d].stage.Waiting?
    ensures Enabled(s, Meet(p, d)) <==> s.posts[p].uuid == s.decoders[d].uuid
  {
    RunKeeps(run, s);
  }

  // ---------- both sides get on ----------

  // A post or a decoder that arrives looks its channel up and then waits; and a request that is cancelled meanwhile
  // ends, the post with status 500.
  lemma ArrivalEffect(s: System, u: nat)
    ensures Enabled(s, PostArrives(u)) && Next(s, PostArrives(u)) ==
            s.(posts := s.posts + [Post(u, Arriving, NEW_BODY)])
    ensures Enabled(s, DecoderArrives(u)) &&
            Next(s, DecoderArrives(u)) == s.(decoders := s.decoders + [Decoder(u, Looking)])
  {
  }

  lemma PostEffect(s: System, p: nat)
    requires p < |s.posts|
    ensures s.posts[p].stage == Arriving ==>
              Enabled(s, PostLookup(p)) &&
              Next(s, PostLookup(p)) == Ensure(s, s.posts[p].uuid).(
                posts := s.posts[p := s.posts[p].(stage := Offering(Channel(s, s.posts[p].uuid)))])
    ensures s.posts[p].stage.Offering? || s.posts[p].stage == Taken ==>
              Enabled(s, PostCancelled(p)) &&
              Next(s, PostCancelled(p)) == s.(posts := s.posts[p := s.posts[p].(stage := Answered(500))])
  {
  }

  lemma DecoderEffect(s: System, d: nat)
    requires d < |s.decoders|
    ensures s.decoders[d].stage == Looking ==>
              Enabled(s, DecoderLookup(d)) &&
              Next(s, DecoderLookup(d)) == Ensure(s, s.decoders[d].uuid).(
                decoders := s.decoders[d := Decoder(s.decoders[d].uuid, Waiting(Channel(s, s.decoders[d].uuid)))])
    ensures s.decoders[d].stage.Waiting? ==>
              Enabled(s, DecoderCancelled(d)) &&
              Next(s, DecoderCancelled(d)) == s.(decoders := s.decoders[d := Decoder(s.decoders[d].uuid, Failed)])
  {
  }

  lemma BothArrive(run: seq<Event>, s: System, u: nat) returns (longer: seq<Event>, t: System)
    requires After(INIT, Step, run) == Some(s)
    ensures run <= longer && After(INIT, Step, longer) == Some(t)
    ensures t == s.(posts := s.posts + [Post(u, Arriving, NEW_BODY)], decoders := s.decoders + [Decoder(u, Looking)])
  {
    ArrivalEffect(s, u);
    longer, t := Extend(INIT, Step, run, s, PostArrives(u));
    ArrivalEffect(t, u);
    longer, t := Extend(INIT, Step, longer, t, DecoderArrives(u));
  }

  lemma BothLookUp(run: seq<Event>, s: System, p: nat, d: nat) returns (longer: seq<Event>, t: System)
    requires After(INIT, Step, run) == Some(s) && p < |s.posts| && d < |s.decoders|
    requires s.posts[p].stage == Arriving && s.decoders[d].stage == Looking && s.posts[p].uuid == s.decoders[d].uuid
    ensures run <= longer && After(INIT, Step, longer) == Some(t)
    ensures p < |t.posts| && d < |t.decoders| && t.posts[p].uuid == s.posts[p].uuid
    ensures t.decoders[d].uuid == s.decoders[d].uuid && Enabled(t, Meet(p, d)) && t.posts[p].body == s.posts[p].body
  {
    PostEffect(s, p);
    longer, t := Extend(INIT, Step, run, s, PostLookup(p));
    DecoderEffect(t, d);
    longer, t := Extend(INIT, Step, longer, t, DecoderLookup(d));
    SameUuidMeets(longer, t, p, d);
  }

  // Whatever has happened before, under whatever UUIDs: a body posted now and a decoder asking for it can meet, and
  // once the decoder has read it to its end, the post can be answered 200.
  lemma PostCanBeServed(run: seq<Event>, s: System, u: nat) returns (longer: seq<Event>, t: System)
    requires After(INIT, Step, run) == Some(s)
    ensures run <= longer && After(INIT, Step, longer) == Some(t)
    ensures var p, d := |s.posts|, |s.decoders|;
            && p < |t.posts| && d < |t.decoders| && t.posts[p].uuid == u && t.decoders[d] == Decoder(u, Got(p))
            && t.posts[p].stage == Answered(200) && t.posts[p].body.ended
  {
    var p, d := |s.posts|, |s.decoders|;
    longer, t := BothArrive(run, s, u);
    longer, t := BothLookUp(longer, t, p, d);
    longer, t := BothMeet(longer, t, p, d);
    longer, t := ReadToTheEnd(longer, t, p, d);
  }

  lemma BothMeet(run: seq<Event>, s: System, p: nat, d: nat) returns (longer: seq<Event>, t: System)
    requires After(INIT, Step, run) == Some(s) && Enabled(s, Meet(p, d))
    ensures run <= longer && After(INIT, Step, longer) == Some(t) && p < |t.posts| && d < |t.decoders|
    ensures t.decoders[d] == Decoder(s.decoders[d].uuid, Got(p))
    ensures t.posts[p].stage == Taken && t.posts[p].uuid == s.posts[p].uuid
  {
    MeetEffect(s, p, d);
    longer, t := Extend(INIT, Step, run, s, Meet(p, d));
  }

  lemma ReadToTheEnd(run: seq<Event>, s: System, p: nat, d: nat) returns (longer: seq<Event>, t: System)
    requires After(INIT, Step, run) == Some(s) && p < |s.posts| && d < |s.decoders|
    requires s.decoders[d].stage == Got(p) && s.posts[p].stage == Taken
    ensures run <= longer && After(INIT, Step, longer) == Some(t)
    ensures p < |t.posts| && d < |t.decoders| && t.decoders[d] == s.decoders[d] && t.posts[p].uuid == s.posts[p].uuid
    ensures t.posts[p].stage == Answered(200) && t.posts[p].body.ended
  {
    RunKeeps(run, s);
    assert PostOk(s, s.posts[p]);
    BodyEffect(s.posts[p].body);
    longer, t := Extend(INIT, Step, run, s, ReadBody(d, true));
    AnswerEffect(t, p);
    longer, t := Extend(INIT, Step, longer, t, AnswerOk(p));
  }

  // ---------- the readers map ----------

  /** The map both sides share under readersLk. */
  class Readers {
    var readers: map<nat, nat>
    var channels: nat

    function View(): System
      reads this
    {
      System(readers, channels, [], [])
    }

    constructor ()
      ensures View() == INIT
    {
      readers, channels := map[], 0;
    }

    // Both the handler and the decoder look the channel up like this; nobody's channel is ever replaced.
    method ChannelOf(uuid: nat) returns (ch: nat)
      modifies this
      ensures View() == Ensure(old(View()), uuid) && ch == Channel(old(View()), uuid)
      ensures HasChannel(View(), uuid, ch)
      ensures forall u | u in old(readers) :: u in readers && readers[u] == old(readers)[u]
    {
      if uuid !in readers {
        readers := readers[uuid := channels];
        channels := channels + 1;
      }
      ch := readers[uuid];
    }
  }
}
