/** Typed errors across the wire: Errors.Register, createError on the server and JSONRPCError.val on the client. */
module ErrorRegistry {
  import opened Options

  datatype GoType = Named(name: int) | Ptr(elem: GoType)

  // An error value; payload 0 is the zero value of its type.
  datatype GoError = GoError(typ: GoType, payload: int, message: string)

  datatype WireError = WireError(code: int, message: string, meta: seq<int>)

  datatype Received = Typed(typ: GoType, payload: int) | Generic(wire: WireError)

  const TEMP_WS_ERROR: int := -1111111
  const CONNECTION_ERROR: GoType := Ptr(Named(0))
  const UNREGISTERED: int := 1
  const FIRST_USER_CODE: int := 2

  // ---------- the registry ----------

  datatype Registry = Registry(byType: map<GoType, int>, byCode: map<int, GoType>)

  const NEW_REGISTRY := Registry(map[], map[TEMP_WS_ERROR := CONNECTION_ERROR])

  datatype Registration = Registration(code: int, typ: GoType)

  function Add(r: Registry, x: Registration): Registry {
    Registry(r.byType[x.typ := x.code], r.byCode[x.code := x.typ])
  }

  function AddAll(xs: seq<Registration>): Registry {
    if xs == [] then NEW_REGISTRY else Add(AddAll(xs[..|xs| - 1]), xs[|xs| - 1])
  }

  class Errors {
    var byType: map<GoType, int>
    var byCode: map<int, GoType>

    function View(): Registry
      reads this
    {
      Registry(byType, byCode)
    }

    constructor ()
      ensures View() == NEW_REGISTRY
    {
      byType := map[];
      byCode := map[TEMP_WS_ERROR := CONNECTION_ERROR];
    }

    // The argument is a pointer to a value of the type to register; anything else panics and registers nothing.
    method Register(w: World, code: int, pointer: GoType) returns (panicked: bool)
      modifies this
      ensures panicked <==> !(pointer.Ptr? && w.isError(pointer.elem))
      ensures View() == if panicked then old(View()) else Add(old(View()), Registration(code, pointer.elem))
    {
      if !pointer.Ptr? {
        return true;
      }
      var typ := pointer.elem;
      if !w.isError(typ) {
        return true;
      }
      byType := byType[typ := code];
      byCode := byCode[code := typ];
      panicked := false;
    }
  }

  // ---------- what the error types bring along ----------

  /** The interfaces types implement, and their methods. */
  datatype World = World(
    isError: GoType -> bool,
    codec: GoType -> bool,
    marshalable: GoType -> bool,
    marshal: GoError -> Option<seq<int>>,
    unmarshal: (GoType, seq<int>) -> Option<int>,
    toWire: GoError -> Option<WireError>,
    fromWire: (GoType, WireError) -> Option<int>)

  function CreateError(w: World, registry: Option<Registry>, err: GoError): WireError {
    var code :=
      if registry.Some? && err.typ in registry.value.byType then registry.value.byType[err.typ] else UNREGISTERED;
    var out := WireError(code, err.message, []);
    if w.codec(err.typ) then
      var o := w.toWire(err);
      if o.Some? then o.value else out
    else if w.marshalable(err.typ) then
      var meta := w.marshal(err);
      if meta.Some? then out.(meta := meta.value) else out
    else out
  }

  // The type val allocates for t: t itself for a pointer, otherwise a pointer to it.
  function Allocated(t: GoType): GoType {
    if t.Ptr? then t else Ptr(t)
  }

  function Val(w: World, registry: Option<Registry>, e: WireError): Received {
    if registry.Some? && e.code in registry.value.byCode then
      var t := registry.value.byCode[e.code];
      var v := Allocated(t);
      if w.codec(v) then
        var payload := w.fromWire(v, e);
        if payload.Some? then Typed(t, payload.value) else Generic(e)
      else if |e.meta| > 0 && w.marshalable(v) then
        var payload := w.unmarshal(v, e.meta);
        if payload.Some? then Typed(t, payload.value) else Generic(e)
      else Typed(t, 0)
    else Generic(e)
  }

  // ---------- registrations ----------

  // Registration i is the last one of its type.
  ghost predicate LastOfType(xs: seq<Registration>, i: nat) {
    i < |xs| && forall j | i < j < |xs| :: xs[j].typ != xs[i].typ
  }

  // No later registration took the code over for another type.
  ghost predicate CodeKept(xs: seq<Registration>, i: nat) {
    i < |xs| && forall j | i < j < |xs| && xs[j].code == xs[i].code :: xs[j].typ == xs[i].typ
  }

  lemma {:induction false} LastWins(xs: seq<Registration>, i: nat)
    requires LastOfType(xs, i)
    ensures xs[i].typ in AddAll(xs).byType && AddAll(xs).byType[xs[i].typ] == xs[i].code
  {
    if i < |xs| - 1 {
      var front := xs[..|xs| - 1];
      assert LastOfType(front, i) by {
        forall j | i < j < |front| ensures front[j].typ != front[i].typ { assert front[j] == xs[j]; }
      }
      LastWins(front, i);
      assert xs[|xs| - 1].typ != xs[i].typ;
    }
  }

  // One more registration, of another type, takes the code over or leaves it.
  lemma CodeKeptSnoc(xs: seq<Registration>, last: Registration, i: nat)
    requires i < |xs| && last.typ != xs[i].typ
    ensures CodeKept(xs + [last], i) <==> last.code != xs[i].code && CodeKept(xs, i)
  {
    var all := xs + [last];
    assert forall j | 0 <= j < |xs| :: all[j] == xs[j];
    assert all[|xs|] == last;
  }

  lemma {:induction false} CodeLeadsBackIff(xs: seq<Registration>, i: nat)
    requires LastOfType(xs, i)
    ensures xs[i].code in AddAll(xs).byCode
    ensures AddAll(xs).byCode[xs[i].code] == xs[i].typ <==> CodeKept(xs, i)
  {
    if i < |xs| - 1 {
      var front, last := xs[..|xs| - 1], xs[|xs| - 1];
      assert LastOfType(front, i) by {
        forall j | i < j < |front| ensures front[j].typ != front[i].typ { assert front[j] == xs[j]; }
      }
      CodeLeadsBackIff(front, i);
      CodeKeptSnoc(front, last, i);
      assert front + [last] == xs;
    }
  }

  ghost predicate AllDistinct(xs: seq<Registration>) {
    forall j, k | 0 <= j < k < |xs| :: xs[j].code != xs[k].code && xs[j].typ != xs[k].typ
  }

  // With different codes for different types, every registered type leads to its code and back.
  lemma DistinctCodesLeadBack(xs: seq<Registration>, i: nat)
    requires i < |xs| && AllDistinct(xs)
    ensures var r := AddAll(xs);
            xs[i].typ in r.byType && r.byType[xs[i].typ] == xs[i].code &&
            xs[i].code in r.byCode && r.byCode[xs[i].code] == xs[i].typ
  {
    LastWins(xs, i);
    CodeLeadsBackIff(xs, i);
  }

  lemma {:induction false} UserCodesLeaveOne(xs: seq<Registration>)
    requires forall j | 0 <= j < |xs| :: xs[j].code >= FIRST_USER_CODE
    ensures UNREGISTERED !in AddAll(xs).byCode
  {
    if xs != [] {
      UserCodesLeaveOne(xs[..|xs| - 1]);
    }
  }

  // ---------- round trips ----------

  // What CreateError puts into Meta for a type without codec.
  function MetaOf(w: World, err: GoError): seq<int> {
    if w.marshalable(err.typ) && w.marshal(err).Some? then w.marshal(err).value else []
  }

  // An error without codec comes back as itself exactly if its code still leads to its type, and its JSON
  // restores the payload or, where none is used, the payload is the zero value.
  lemma RoundTripIff(w: World, r: Registry, err: GoError)
    requires err.typ in r.byType && r.byType[err.typ] in r.byCode
    requires !w.codec(err.typ) && !w.codec(Allocated(r.byCode[r.byType[err.typ]]))
    ensures var meta, v := MetaOf(w, err), Allocated(err.typ);
            Val(w, Some(r), CreateError(w, Some(r), err)) == Typed(err.typ, err.payload) <==>
              && r.byCode[r.byType[err.typ]] == err.typ
              && (if |meta| > 0 && w.marshalable(v) then w.unmarshal(v, meta) == Some(err.payload)
                  else err.payload == 0)
  {
    assert CreateError(w, Some(r), err).meta == MetaOf(w, err);
  }

  // A pointer type whose JSON pair is inverse keeps type and payload, after any registrations with distinct types
  // and codes.
  lemma RegisteredComesBack(w: World, xs: seq<Registration>, i: nat, err: GoError)
    requires AllDistinct(xs)
    requires i < |xs| && err.typ == xs[i].typ && err.typ.Ptr? && !w.codec(err.typ) && w.marshalable(err.typ)
    requires w.marshal(err).Some? && w.marshal(err).value != [] &&
             w.unmarshal(err.typ, w.marshal(err).value) == Some(err.payload)
    ensures Val(w, Some(AddAll(xs)), CreateError(w, Some(AddAll(xs)), err)) == Typed(err.typ, err.payload)
  {
    DistinctCodesLeadBack(xs, i);
    RoundTripIff(w, AddAll(xs), err);
  }

  // An unregistered error comes back generic, with its message, exactly if nobody registered the reserved
  // code 1 for a type that takes the error.
  lemma UnregisteredIsGenericIff(w: World, server: Registry, client: Registry, err: GoError)
    requires err.typ !in server.byType && !w.codec(err.typ)
    requires UNREGISTERED in client.byCode ==> !w.codec(Allocated(client.byCode[UNREGISTERED]))
    ensures var sent := CreateError(w, Some(server), err);
            sent.code == UNREGISTERED && sent.message == err.message &&
            (Val(w, Some(client), sent) == Generic(sent) <==>
              || UNREGISTERED !in client.byCode
              || var v := Allocated(client.byCode[UNREGISTERED]);
                 MetaOf(w, err) != [] && w.marshalable(v) && w.unmarshal(v, MetaOf(w, err)).None?)
  {
    assert CreateError(w, Some(server), err).meta == MetaOf(w, err);
  }

  // A type with its own conversion at both ends decides itself: it comes back as itself exactly if both conversions
  // succeed, the code still leads to its type, and they restore the payload.
  lemma CodecRoundTripIff(w: World, r: Registry, err: GoError)
    requires w.codec(err.typ) && w.toWire(err).Some?
    requires var code := w.toWire(err).value.code; code in r.byCode && w.codec(Allocated(r.byCode[code]))
    ensures var sent := CreateError(w, Some(r), err);
            && sent == w.toWire(err).value
            && (Val(w, Some(r), sent) == Typed(err.typ, err.payload) <==>
                  && r.byCode[sent.code] == err.typ
                  && w.fromWire(Allocated(err.typ), sent) == Some(err.payload))
            && (w.fromWire(Allocated(r.byCode[sent.code]), sent) == None ==> Val(w, Some(r), sent) == Generic(sent))
  {
  }

  // A conversion that fails on the server leaves the error as if its type had none; without a registry every code
  // is generic.
  lemma WithoutConversion(w: World, r: Registry, err: GoError, e: WireError)
    requires w.codec(err.typ) && w.toWire(err) == None
    ensures CreateError(w, Some(r), err) ==
            WireError(if err.typ in r.byType then r.byType[err.typ] else 1, err.message, [])
    ensures CreateError(w, None, err) == WireError(1, err.message, [])
    ensures Val(w, None, e) == Generic(e)
  {
  }

  // A value type that implements the JSON pair only through its pointer is sent without its payload.
  lemma ValueTypeLosesPayload(w: World, xs: seq<Registration>, i: nat, err: GoError)
    requires AllDistinct(xs)
    requires i < |xs| && err.typ == xs[i].typ && err.typ.Named? && !w.codec(err.typ) && !w.codec(Ptr(err.typ))
    requires !w.marshalable(err.typ)
    ensures Val(w, Some(AddAll(xs)), CreateError(w, Some(AddAll(xs)), err)) == Typed(err.typ, 0)
  {
    DistinctCodesLeadBack(xs, i);
  }
}
