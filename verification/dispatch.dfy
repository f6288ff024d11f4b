/**
  * The dispatcher's decision procedure (`Server.handle_accept`), as a pure
  * function of the merged endpoint table, the secret key, the loaded cogs,
  * the `Authorization` header and the decoded body.
  */
module Dispatch {
  import opened Wrappers
  import opened Values
  import opened RequestContext
  import opened Handlers

  /** An exception that escapes `handle_accept` instead of a JSON response. */
  datatype DispatchError =
    | BodyNotJson                          // `await request.json()` fails
    | EnvelopeNotDict                      // `_data.get(...)` on a non-dict: AttributeError
    | EndpointUnhashable                   // `endpoint not in self.endpoints` on a list or dict: TypeError
    | ContextFailed(cause: ContextError)   // `IpcServerResponse(_data)` raises
    | JsonEncode(message: string)          // `JSONEncodeError`

  /** How `handle_accept` ends. */
  datatype Reply =
    | Sent(resp: Value)            // returns `json_response(resp)`
    | Raised(error: DispatchError) // raises
    | NoReply                      // a TypeError other than "not JSON serializable": falls off the end, returning None

  /** The reply together with the `ipc_error` events dispatched on the way. */
  datatype Step = Step(reply: Reply, fired: seq<Event>)

  const ForbiddenMessage := "Forbidden, No token or invalid token provided"
  const NoEndpointMessage := "no endpoint provided or invalid provided"
  const JsonEncodeMessage :=
    "IPC route returned values which are not able to be sent over sockets."
    + " If you are trying to send a discord.py object,"
    + " please only send the data you need."

  const ForbiddenResponse := VDict([(KStr("code"), VInt(403)), (KStr("error"), VStr(ForbiddenMessage))])
  const NoEndpointResponse := VDict([(KStr("error"), VStr(NoEndpointMessage)), (KStr("code"), VInt(500))])

  /** The response for a handler's return value: the value under "content" and nothing else. */
  function ContentResponse(v: Value): (r: Value)
    ensures r.VDict? && Lookup(r.items, KStr("content")) == Some(v)
    ensures !HasKey(r.items, KStr("error")) && UniqueKeys(r.items)
  {
    VDict([(KStr("content"), v)])
  }

  /** The response built when a handler raises: it holds the exception object itself, not its text. */
  function HandlerErrorResponse(e: PyException): (r: Value)
    ensures r.VDict? && Lookup(r.items, KStr("error_in_server")) == Some(VException(e))
    ensures Lookup(r.items, KStr("code")) == Some(VInt(500))
    ensures !HasKey(r.items, KStr("error")) && !HasKey(r.items, KStr("content"))
  {
    VDict([(KStr("error_in_server"), VException(e)), (KStr("code"), VInt(500))])
  }

  /** `return json_response(resp)` and its `except TypeError` clause. */
  function Serialize(resp: Value): (r: Reply)
    ensures r.Sent? ==> r.resp == resp
    ensures r.Raised? ==> r.error == JsonEncode(JsonEncodeMessage)
    ensures r.NoReply? ==> !Serializable(resp)
  {
    match EncodeError(resp)
    case None => Sent(resp)
    case Some(f) =>
      EncodeErrorIffNotSerializable(resp);
      if IsNotSerializableMessage(Message(f)) then Raised(JsonEncode(JsonEncodeMessage)) else NoReply
  }

  /** The response is sent, unchanged, exactly when it is serializable. */
  lemma SerializeSends(resp: Value)
    ensures Serialize(resp) == Sent(resp) <==> Serializable(resp)
  {
    EncodeErrorIffNotSerializable(resp);
  }

  /**
    * When the encoder fails, an object it cannot represent raises
    * JSONEncodeError, and a dict key it refuses makes the method return
    * nothing.
    */
  lemma SerializeFails(resp: Value)
    requires EncodeError(resp).Some?
    ensures Serialize(resp) == if EncodeError(resp).value.NotSerializable? then Raised(JsonEncode(JsonEncodeMessage)) else NoReply
  {
    MessageShape(EncodeError(resp).value);
  }

  /** How the endpoint named in the envelope resolves. */
  datatype Resolution = Resolved(name: string) | Unknown | Unhashable

  /** `endpoint = _data.get("endpoint", "")` and `if not endpoint or endpoint not in self.endpoints`. */
  function Resolve(endpoints: map<string, Handler>, items: seq<(Key, Value)>): (r: Resolution)
    ensures r.Resolved? ==> Lookup(items, KStr("endpoint")) == Some(VStr(r.name)) && r.name != "" && r.name in endpoints
    ensures r.Unhashable? <==> var e := Lookup(items, KStr("endpoint")); e.Some? && !Hashable(e.value) && !Falsy(e.value)
    ensures (exists n :: Lookup(items, KStr("endpoint")) == Some(VStr(n)) && n != "" && n in endpoints) ==> r.Resolved?
  {
    var endpoint := Lookup(items, KStr("endpoint")).GetOr(VStr(""));
    if Falsy(endpoint) then Unknown
    else if !Hashable(endpoint) then Unhashable
    else if endpoint.VStr? && endpoint.s in endpoints then Resolved(endpoint.s)
    else Unknown
  }

  /** Await the handler, wrap its result or report its exception, then serialize. */
  function Invoke(h: Handler, endpoint: string, args: Args): (s: Step)
    ensures s.fired == [] <==> h.run(args).Returns?
    ensures s.fired != [] ==> s.fired == [IpcErrorEvent(endpoint, h.run(args).error)]
  {
    match h.run(args)
    case Returns(v) => Step(Serialize(ContentResponse(v)), [])
    case Raises(e) => Step(Serialize(HandlerErrorResponse(e)), [IpcErrorEvent(endpoint, e)])
  }

  /** One request, after the pending routes have been merged into `endpoints`. */
  function Respond(endpoints: map<string, Handler>, secretKey: string, cogs: set<string>,
                   header: Option<string>, body: Option<Value>): (s: Step)
    requires body.Some? ==> Decoded(body.value)
    ensures header.GetOr("") != secretKey ==> s == Step(Sent(ForbiddenResponse), [])
    ensures |s.fired| <= 1
    ensures s.fired != [] ==> s.fired[0].endpoint in endpoints && s.fired[0].endpoint != ""
  {
    if header.GetOr("") != secretKey then Step(Sent(ForbiddenResponse), [])
    else
      match body
      case None => Step(Raised(BodyNotJson), [])
      case Some(VDict(items)) =>
        (match Resolve(endpoints, items)
         case Unknown => Step(Sent(NoEndpointResponse), [])
         case Unhashable => Step(Raised(EndpointUnhashable), [])
         case Resolved(name) =>
           match ContextOf(items)
           case Err(e) => Step(Raised(ContextFailed(e)), [])
           case Ok(ctx) => Invoke(endpoints[name], name, BindArgs(endpoints[name], cogs, ctx)))
      case Some(_) => Step(Raised(EnvelopeNotDict), [])
  }

  /**
    * A wrong or missing `Authorization` header (a missing one reads as "")
    * gets the 403 response whatever the body, even one that is not JSON, and
    * no event is dispatched.
    */
  lemma RespondForbidden(endpoints: map<string, Handler>, secretKey: string, cogs: set<string>,
                         header: Option<string>, body: Option<Value>)
    requires body.Some? ==> Decoded(body.value)
    requires header.GetOr("") != secretKey
    ensures Respond(endpoints, secretKey, cogs, header, body) == Step(Sent(ForbiddenResponse), [])
  {
  }

  /**
    * An authenticated envelope whose endpoint is missing, falsy (`null`, 0,
    * false, "", an empty list or dict), or a hashable value that is not a key
    * of `endpoints` (any other number or boolean, an unregistered string) gets
    * the 500 "no endpoint" response and invokes nothing.
    */
  lemma RespondUnknownEndpoint(endpoints: map<string, Handler>, secretKey: string, cogs: set<string>,
                               header: Option<string>, items: seq<(Key, Value)>)
    requires Decoded(VDict(items)) && header.GetOr("") == secretKey
    requires var e := Lookup(items, KStr("endpoint"));
      e.None? || Falsy(e.value) || (Hashable(e.value) && !(e.value.VStr? && e.value.s in endpoints))
    ensures Respond(endpoints, secretKey, cogs, header, Some(VDict(items))) == Step(Sent(NoEndpointResponse), [])
  {
  }

  /** The handler invocation a resolved, authenticated request leads to. */
  lemma RespondInvokes(endpoints: map<string, Handler>, secretKey: string, cogs: set<string>,
                       header: Option<string>, items: seq<(Key, Value)>, name: string)
    requires Decoded(VDict(items)) && header.GetOr("") == secretKey
    requires Lookup(items, KStr("endpoint")) == Some(VStr(name)) && name != "" && name in endpoints
    requires ContextOf(items).Ok?
    ensures var h := endpoints[name];
      Respond(endpoints, secretKey, cogs, header, Some(VDict(items)))
        == Invoke(h, name, BindArgs(h, cogs, ContextOf(items).value))
  {
  }

  /**
    * A handler that returns a serializable value has it sent back under
    * "content"; a handler that returns anything else never has its result
    * sent. No event is dispatched either way.
    */
  lemma InvokeReturns(h: Handler, endpoint: string, args: Args)
    requires h.run(args).Returns?
    ensures Invoke(h, endpoint, args).fired == []
    ensures Invoke(h, endpoint, args).reply == Sent(ContentResponse(h.run(args).value))
      <==> Serializable(h.run(args).value)
  {
    var v := h.run(args).value;
    SerializeSends(ContentResponse(v));
    assert EncodeError(ContentResponse(v)) == EncodeError(v) by {
      var fs := seq(1, i requires 0 <= i < 1 => EncodeError(v));
      assert fs == [EncodeError(v)];
    }
    EncodeErrorIffNotSerializable(v);
  }

  /**
    * A handler that raises dispatches exactly one `ipc_error` event carrying
    * the endpoint and the exception, and then — because the response holds
    * the exception object, which the encoder cannot represent — the method
    * raises JSONEncodeError instead of sending the 500 response.
    */
  lemma InvokeRaises(h: Handler, endpoint: string, args: Args)
    requires h.run(args).Raises?
    ensures Invoke(h, endpoint, args).fired == [IpcErrorEvent(endpoint, h.run(args).error)]
    ensures Invoke(h, endpoint, args).reply == Raised(JsonEncode(JsonEncodeMessage))
  {
    HandlerErrorNeverSent(h.run(args).error);
  }

  /** The handler-error response is never sent: encoding it always fails on the exception object. */
  lemma HandlerErrorNeverSent(e: PyException)
    ensures !Serializable(HandlerErrorResponse(e))
    ensures Serialize(HandlerErrorResponse(e)) == Raised(JsonEncode(JsonEncodeMessage))
  {
    var resp := HandlerErrorResponse(e);
    var fs := seq(2, i requires 0 <= i < 2 =>
      if resp.items[i].0.KOther? then Some(BadKey(resp.items[i].0.typeName)) else EncodeError(resp.items[i].1));
    assert fs[0] == Some(NotSerializable(e.typeName));
    assert EncodeError(resp) == Some(NotSerializable(e.typeName));
    SerializeSends(resp);
    SerializeFails(resp);
  }

  /**
    * Every response the dispatcher sends is serializable, and at most one
    * event is dispatched per request.
    */
  lemma RespondSendsOnlySerializable(endpoints: map<string, Handler>, secretKey: string, cogs: set<string>,
                                     header: Option<string>, body: Option<Value>)
    requires body.Some? ==> Decoded(body.value)
    ensures var s := Respond(endpoints, secretKey, cogs, header, body);
      (s.reply.Sent? ==> Serializable(s.reply.resp)) && |s.fired| <= 1
  {
    var s := Respond(endpoints, secretKey, cogs, header, body);
    if s.reply.Sent? {
      SerializeSends(s.reply.resp);
    }
  }
}
