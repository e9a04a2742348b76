/** One call as its caller sees it: doRequest waits for an answer, handleRpcCall tries again after temporary errors. */
module Caller {
  import opened Options
  import opened Backoff

  datatype Response = Response(id: Option<nat>, temporary: bool, decodes: bool)

  // ---------- doRequest ----------

  // What a select of doRequest's loop receives. `queued` is an answer found in the buffer although the loop has
  // exited; `marshals` says whether the cancel request can be encoded, and `sent` whether the event loop takes it
  // rather than exit.
  datatype Wake =
    | Ready(response: Response)
    | Exiting(queued: Option<Response>)
    | ContextEnds(marshals: bool, sent: bool)

  datatype Outcome = Got(response: Response) | RoutineExiting | CannotMarshal | StillWaiting

  // The answer a caller without context gets.
  function Awaited(wakes: seq<Wake>): Outcome {
    if wakes == [] then StillWaiting
    else
      match wakes[0]
      case Ready(r) => Got(r)
      case Exiting(queued) => if queued.Some? then Got(queued.value) else RoutineExiting
      case ContextEnds(_, _) => Awaited(wakes[1..])
  }

  // The first wake that is not the end of the context decides: an answer, an answer still queued at exit, or the exit.
  lemma {:induction false} AwaitedIsFirst(wakes: seq<Wake>, n: nat)
    requires n <= |wakes| && forall i | 0 <= i < n :: wakes[i].ContextEnds?
    ensures n == |wakes| ==> Awaited(wakes) == StillWaiting
    ensures n < |wakes| && wakes[n].Ready? ==> Awaited(wakes) == Got(wakes[n].response)
    ensures n < |wakes| && wakes[n].Exiting? && wakes[n].queued != None ==> Awaited(wakes) == Got(wakes[n].queued.value)
    ensures n < |wakes| && wakes[n].Exiting? && wakes[n].queued == None ==> Awaited(wakes) == RoutineExiting
  {
    if n > 0 {
      AwaitedIsFirst(wakes[1..], n - 1);
    }
  }

  lemma AwaitedSkips(wakes: seq<Wake>, i: nat)
    requires i < |wakes| && wakes[i].ContextEnds?
    ensures Awaited(wakes[i..]) == Awaited(wakes[i + 1..])
  {
    assert wakes[i..][1..] == wakes[i + 1..];
  }

  // The caller's context ends before its answer is there.
  predicate EndsEarly(wakes: seq<Wake>) {
    wakes != [] && wakes[0].ContextEnds?
  }

  /** doRequest. `taken` says that the event loop received the request; a context that has ended is not selected
      again. */
  method DoRequest(hasCtx: bool, taken: bool, wakes: seq<Wake>) returns (outcome: Outcome, cancels: nat)
    // At most one xrpc.cancel is sent, and only for a request the loop took whose context ended before its answer.
    ensures cancels == if taken && hasCtx && EndsEarly(wakes) && wakes[0].marshals && wakes[0].sent then 1 else 0
    // The end of the context does not change the answer.
    ensures outcome == if !taken then RoutineExiting
                       else if hasCtx && EndsEarly(wakes) && !wakes[0].marshals then CannotMarshal
                       else Awaited(wakes)
  {
    cancels := 0;
    if !taken {
      return RoutineExiting, cancels;
    }
    var ctxDone := hasCtx;
    assert wakes[0..] == wakes;
    for i := 0 to |wakes|
      invariant Awaited(wakes[i..]) == Awaited(wakes)
      invariant ctxDone <==> hasCtx && i == 0
      invariant cancels == if hasCtx && i > 0 && wakes[0].ContextEnds? && wakes[0].sent then 1 else 0
      invariant i > 0 ==> wakes[0].ContextEnds? && (hasCtx ==> wakes[0].marshals)
    {
      match wakes[i]
      case Ready(r) =>
        return Got(r), cancels;
      case Exiting(queued) =>
        outcome := if queued.Some? then Got(queued.value) else RoutineExiting;
        return;
      case ContextEnds(marshals, sent) =>
        AwaitedSkips(wakes, i);
        if ctxDone {
          ctxDone := false;
          if !marshals {
            return CannotMarshal, cancels;
          }
          if sent {
            cancels := cancels + 1;
          }
        }
    }
    assert wakes[|wakes|..] == [];
    outcome := StillWaiting;
  }

  // ---------- handleRpcCall ----------

  const METHOD_MIN: int := 100_000_000
  const METHOD_MAX: int := 600_000_000_000

  // `fails` is an error of doRequest.
  datatype Try = Fails | Answers(response: Response)

  datatype Result = SendFailed | IdMismatch | Undecodable | Answered(response: Response) | Retrying

  // The answer makes handleRpcCall send the same request again.
  predicate Again(id: Option<nat>, retry: bool, t: Try) {
    t.Answers? && (id.Some? ==> t.response.id == id) && t.response.decodes && t.response.temporary && retry
  }

  // What an attempt that is not repeated returns.
  function Settles(id: Option<nat>, t: Try): Result {
    match t
    case Fails => SendFailed
    case Answers(r) =>
      if id.Some? && r.id != id then IdMismatch
      else if !r.decodes then Undecodable
      else Answered(r)
  }

  // An attempt is repeated exactly if it got an answer with the right identifier that decodes, is a temporary
  // error, and the method is marked for retries; what else it got decides the result.
  lemma AgainIff(id: Option<nat>, retry: bool, t: Try)
    ensures Again(id, retry, t) <==>
              t != Fails && (id == None || t.response.id == id) && t.response.decodes && t.response.temporary && retry
    ensures t == Fails ==> Settles(id, t) == SendFailed
    ensures t != Fails && id != None && t.response.id != id ==> Settles(id, t) == IdMismatch
    ensures t != Fails && (id == None || t.response.id == id) && !t.response.decodes ==> Settles(id, t) == Undecodable
    ensures t != Fails && (id == None || t.response.id == id) && t.response.decodes ==>
            Settles(id, t) == Answered(t.response)
  {
  }

  function Waits(jitters: seq<real>, n: nat): (r: seq<Option<int>>)
    requires n <= |jitters| && forall i | 0 <= i < |jitters| :: 0.0 <= jitters[i] < 1.0
    ensures |r| == n
  {
    seq(n, i requires 0 <= i < n => Delay(METHOD_MIN, METHOD_MAX, i, jitters[i]))
  }

  /** The retry loop of handleRpcCall: `tries[i]` is what attempt i gets. It sends one request for each attempt,
      with the same identifier, up to and including the first that is not to be repeated, and sleeps in between. */
  method HandleRpcCall(id: Option<nat>, retry: bool, tries: seq<Try>, jitters: seq<real>)
      returns (result: Result, sent: seq<Option<nat>>, slept: seq<Option<int>>)
    requires |jitters| == |tries| && forall i | 0 <= i < |jitters| :: 0.0 <= jitters[i] < 1.0
    ensures |sent| <= |tries| && forall i | 0 <= i < |sent| :: sent[i] == id
    ensures forall i | 0 <= i < |sent| - 1 :: Again(id, retry, tries[i])
    ensures result.Retrying? <==> forall i | 0 <= i < |tries| :: Again(id, retry, tries[i])
    ensures result.Retrying? ==> |sent| == |tries| && slept == Waits(jitters, |tries|)
    ensures !result.Retrying? ==>
              && |sent| > 0 && !Again(id, retry, tries[|sent| - 1])
              && result == Settles(id, tries[|sent| - 1])
              && slept == Waits(jitters, |sent| - 1)
    ensures forall i | 0 <= i < |slept| && slept[i].Some? :: METHOD_MIN <= slept[i].value <= METHOD_MAX
  {
    sent, slept := [], [];
    for attempt := 0 to |tries|
      invariant |sent| == attempt && forall i | 0 <= i < attempt :: sent[i] == id && Again(id, retry, tries[i])
      invariant slept == Waits(jitters, attempt)
      invariant forall i | 0 <= i < |slept| && slept[i].Some? :: METHOD_MIN <= slept[i].value <= METHOD_MAX
    {
      sent := sent + [id];
      match tries[attempt]
      case Fails =>
        return SendFailed, sent, slept;
      case Answers(response) =>
        if id.Some? && response.id != id {
          return IdMismatch, sent, slept;
        }
        if !response.decodes {
          return Undecodable, sent, slept;
        }
        if !(response.temporary && retry) {
          return Answered(response), sent, slept;
        }
        DelayInRange(METHOD_MIN, METHOD_MAX, attempt, jitters[attempt]);
        slept := slept + [Delay(METHOD_MIN, METHOD_MAX, attempt, jitters[attempt])];
    }
    result := Retrying;
  }
}
