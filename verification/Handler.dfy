/** handler.handle: from a decoded request to its reply, with every early way out. */
module Handler {
  import opened Options

  const PARSE_ERROR: int := -32700
  const METHOD_NOT_FOUND: int := -32601
  const INVALID_PARAMS: int := -32602
  const FATAL: int := 0
  const APPLICATION: int := 1

  datatype Value = NoValue | Plain | NilChan | Chan

  // What the called method does.
  datatype CallResult = Panicked | Completed(failed: bool, value: Value)

  // What encoding the response does: it is marshalled completely before the first write.
  datatype Encoding = Encodes | Unencodable | EncodePanics

  /** Everything handle cannot decide itself: the method table, the peer's parameters, user callbacks,
      the subscription limit and the output loop. */
  datatype Env = Env(
    direct: bool,             // the method is registered under this name
    alias: Option<bool>,      // the name is an alias, of a registered method or not
    streams: bool,            // its result is a channel
    chanOut: bool,            // this transport supports channels
    reserve: bool,            // reserveSubscription succeeds
    raw: bool,
    present: bool,            // there are parameters at all
    isArray: bool,
    count: nat,               // parameters sent
    nParams: nat,             // parameters wanted
    decodes: seq<bool>,       // whether each of them decodes
    call: CallResult,
    register: bool,           // handleChanOut succeeds
    encoding: Encoding)

  datatype Reply =
    | NoReply
    | ErrorReply(code: int)   // from rpcError
    | MethodError             // the method's own error
    | RegisterError
    | Result

  // ---------- what the source promises ----------

  predicate Known(env: Env) {
    env.direct || env.alias == Some(true)
  }

  predicate Supported(env: Env) {
    env.streams ==> env.chanOut
  }

  predicate Admitted(env: Env) {
    env.streams ==> env.reserve
  }

  predicate CountOk(env: Env) {
    (if env.present then env.count else 0) == env.nParams
  }

  predicate Decodes(env: Env, i: nat) {
    i < |env.decodes| && env.decodes[i]
  }

  predicate AllDecode(env: Env) {
    forall i: nat | i < env.nParams :: Decodes(env, i)
  }

  predicate ParamsOk(env: Env) {
    env.raw || ((env.present ==> env.isArray) && CountOk(env) && AllDecode(env))
  }

  // The method gets called.
  predicate Reached(env: Env) {
    Known(env) && Supported(env) && Admitted(env) && ParamsOk(env)
  }

  predicate Succeeds(env: Env) {
    Reached(env) && env.call.Completed?
  }

  // The method handed over a stream and the output loop took it.
  predicate Hands(env: Env, id: Option<int>) {
    Succeeds(env) && id.Some? && !env.call.failed && env.call.value.Chan? && env.register
  }

  // An answer is encoded for a call that completed and whose result is neither a nil channel nor a stream.
  predicate Encoded(env: Env, id: Option<int>) {
    Succeeds(env) && id.Some? && (env.call.failed || !env.call.value.NilChan?) && !Hands(env, id)
  }

  // The conditions above, in terms of the method table, the parameters and the call.
  lemma ConditionsPlain(env: Env, id: Option<int>)
    ensures Known(env) <==> env.direct || env.alias == Some(true)
    ensures Supported(env) <==> !env.streams || env.chanOut
    ensures Admitted(env) <==> !env.streams || env.reserve
    ensures ParamsOk(env) <==>
              || env.raw
              || (&& (env.present ==> env.isArray)
                  && (if env.present then env.count else 0) == env.nParams
                  && env.nParams <= |env.decodes| && forall i | 0 <= i < env.nParams :: env.decodes[i])
    ensures Succeeds(env) <==> Known(env) && Supported(env) && Admitted(env) && ParamsOk(env) && env.call != Panicked
    ensures Hands(env, id) <==>
              Succeeds(env) && id != None && !env.call.failed && env.call.value == Chan && env.register
    ensures Encoded(env, id) <==>
              Succeeds(env) && id != None && !Hands(env, id) && (env.call.failed || env.call.value != NilChan)
  {
    if AllDecode(env) {
      assert env.nParams > 0 ==> Decodes(env, env.nParams - 1);
      forall i | 0 <= i < env.nParams ensures env.decodes[i] {
        assert Decodes(env, i);
      }
    }
  }

  // The reply, the first reason to refuse a call going before the others.
  function Answer(env: Env, id: Option<int>): Reply {
    if !Known(env) || !Supported(env) then ErrorReply(METHOD_NOT_FOUND)
    else if !Admitted(env) then ErrorReply(APPLICATION)
    else if !ParamsOk(env) then
      ErrorReply(if (env.present ==> env.isArray) && !CountOk(env) then INVALID_PARAMS else PARSE_ERROR)
    else if env.call.Panicked? then ErrorReply(FATAL)
    else if id.None? || Hands(env, id) then NoReply
    else if !Encoded(env, id) then ErrorReply(APPLICATION)
    else
      match env.encoding
      case Unencodable => NoReply
      case EncodePanics => ErrorReply(FATAL)
      case Encodes => if env.call.failed then MethodError else if env.call.value.Chan? then RegisterError else Result
  }

  /** Returns the reply, whether the call's context is kept for a stream, and whether a reservation was made. */
  method Handle(id: Option<int>, env: Env) returns (reply: Reply, keepCtx: bool, reserved: bool)
    requires env.call.Completed? && (env.call.value.Chan? || env.call.value.NilChan?) ==> env.streams
    ensures reply == Answer(env, id)
    // Only an accepted stream keeps the context.
    ensures keepCtx <==> Hands(env, id)
    // A channel method is counted before its parameters are decoded.
    ensures reserved <==> Known(env) && env.streams && env.chanOut && env.reserve
    // Silence: an accepted stream, a notification that succeeded, or a result that does not encode.
    ensures reply.NoReply? <==>
              || Hands(env, id)
              || (Succeeds(env) && id.None?)
              || (Encoded(env, id) && env.encoding.Unencodable?)
    ensures reply == ErrorReply(METHOD_NOT_FOUND) <==> !Known(env) || !Supported(env)
    ensures reply == ErrorReply(PARSE_ERROR) <==>
              Known(env) && Supported(env) && Admitted(env) && !env.raw &&
              ((env.present && !env.isArray) || (CountOk(env) && !AllDecode(env)))
    ensures reply == ErrorReply(INVALID_PARAMS) <==>
              && Known(env) && Supported(env) && Admitted(env)
              && !env.raw && (env.present ==> env.isArray) && !CountOk(env)
    ensures reply == ErrorReply(FATAL) <==>
              (Reached(env) && env.call.Panicked?) || (Encoded(env, id) && env.encoding.EncodePanics?)
    ensures reply == ErrorReply(APPLICATION) <==>
              (Known(env) && Supported(env) && !Admitted(env)) ||
              (Succeeds(env) && id.Some? && !env.call.failed && env.call.value.NilChan?)
    ensures reply.ErrorReply? ==> reply.code in {METHOD_NOT_FOUND, PARSE_ERROR, INVALID_PARAMS, FATAL, APPLICATION}
    ensures reply.MethodError? <==> Encoded(env, id) && env.encoding.Encodes? && env.call.failed
    ensures reply.RegisterError? <==>
              Encoded(env, id) && env.encoding.Encodes? && !env.call.failed && env.call.value.Chan?
  {
    keepCtx, reserved := false, false;
    if !env.direct {
      if env.alias != Some(true) {
        return ErrorReply(METHOD_NOT_FOUND), keepCtx, reserved;
      }
    }
    if !env.chanOut && env.streams {
      return ErrorReply(METHOD_NOT_FOUND), keepCtx, reserved;
    }
    if env.streams {
      if !env.reserve {
        return ErrorReply(APPLICATION), keepCtx, reserved;
      }
      reserved := true;
    }
    if !env.raw {
      var count := 0;
      if env.present {
        if !env.isArray {
          return ErrorReply(PARSE_ERROR), keepCtx, reserved;
        }
        count := env.count;
      }
      if count != env.nParams {
        return ErrorReply(INVALID_PARAMS), keepCtx, reserved;
      }
      for i := 0 to env.nParams
        invariant forall k: nat | k < i :: Decodes(env, k)
      {
        if !Decodes(env, i) {
          return ErrorReply(PARSE_ERROR), keepCtx, reserved;
        }
      }
    }
    if env.call.Panicked? {
      return ErrorReply(FATAL), keepCtx, reserved;
    }
    if id.None? {
      return NoReply, keepCtx, reserved;
    }
    reply := if env.call.failed then MethodError else Result;
    if !env.call.failed {
      if env.call.value.NilChan? {
        return ErrorReply(APPLICATION), keepCtx, reserved;
      }
      if env.call.value.Chan? {
        if env.register {
          return NoReply, true, reserved;
        }
        reply := RegisterError;
      }
    }
    match env.encoding
    case Encodes =>
    case Unencodable => reply := NoReply;
    case EncodePanics => reply := ErrorReply(FATAL);
  }
}
