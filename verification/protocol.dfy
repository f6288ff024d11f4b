/**
  * The client and the server together: a request built by the client,
  * answered by the dispatcher and read back by the client. The wire carries
  * JSON, so a decoded value arrives as it was sent.
  */
module Protocol {
  import opened Wrappers
  import opened Values
  import opened RequestContext
  import opened Handlers
  import opened Dispatch
  import opened IpcClient

  /** The body the client sends is one the server reads as a request envelope. */
  lemma PayloadIsEnvelope(endpoint: string, kwargs: seq<(Key, Value)>)
    requires Decoded(VDict(kwargs))
    ensures Decoded(Payload(endpoint, kwargs))
    ensures Envelope(Payload(endpoint, kwargs).items)
  {
    var p := Payload(endpoint, kwargs).items;
    assert p[0].0 == KStr("endpoint") && p[1].0 == KStr("data");
  }

  /**
    * The round trip: for a registered endpoint whose handler returns a
    * JSON value, the handler sees every keyword argument as a context
    * attribute, no event is dispatched, and the client's `request` returns
    * the handler's value unchanged.
    */
  lemma RoundTrip(c: Client, endpoints: map<string, Handler>, cogs: set<string>,
                  endpoint: string, kwargs: seq<(Key, Value)>, ctx: Context, v: Value)
    requires Decoded(VDict(kwargs)) && Decoded(v)
    requires endpoint != "" && endpoint in endpoints
    requires ContextOf(Payload(endpoint, kwargs).items) == Ok(ctx)
    requires endpoints[endpoint].run(BindArgs(endpoints[endpoint], cogs, ctx)) == Returns(v)
    ensures forall i | 0 <= i < |kwargs| :: Attr(ctx, kwargs[i].0.s) == Some(kwargs[i].1)
    ensures var s := Respond(endpoints, c.secretKey, cogs, Some(Headers(c)["Authorization"]), Some(Payload(endpoint, kwargs)));
      s.fired == [] && s.reply.Sent? && Unwrap(s.reply.resp) == Ok(v)
  {
    PayloadIsEnvelope(endpoint, kwargs);
    ContextOfEnvelope(Payload(endpoint, kwargs).items);
    assert Lookup(Payload(endpoint, kwargs).items, KStr("data")).value.items == kwargs;
    var h := endpoints[endpoint];
    var args := BindArgs(h, cogs, ctx);
    DecodedIsSerializable(v);
    InvokeReturns(h, endpoint, args);
    RespondInvokes(endpoints, c.secretKey, cogs, Some(c.secretKey), Payload(endpoint, kwargs).items, endpoint);
  }

  /** A client whose key differs from the server's gets IpcError with the 403 message. */
  lemma WrongKeyRaisesIpcError(c: Client, serverKey: string, endpoints: map<string, Handler>, cogs: set<string>,
                               endpoint: string, kwargs: seq<(Key, Value)>)
    requires Decoded(VDict(kwargs)) && c.secretKey != serverKey
    ensures var s := Respond(endpoints, serverKey, cogs, Some(Headers(c)["Authorization"]), Some(Payload(endpoint, kwargs)));
      s.reply.Sent? && Unwrap(s.reply.resp) == Err(IpcError(VStr(ForbiddenMessage)))
  {
    PayloadIsEnvelope(endpoint, kwargs);
    var items := ForbiddenResponse.items;
    assert items[0].0 == KStr("code") && items[1] == (KStr("error"), VStr(ForbiddenMessage));
    assert Lookup(items[1..], KStr("error")) == Some(VStr(ForbiddenMessage));
  }

  /** Requesting the empty or an unregistered endpoint makes the client raise IpcError with the "no endpoint" message. */
  lemma UnknownEndpointRaisesIpcError(c: Client, endpoints: map<string, Handler>, cogs: set<string>,
                                      endpoint: string, kwargs: seq<(Key, Value)>)
    requires Decoded(VDict(kwargs)) && (endpoint == "" || endpoint !in endpoints)
    ensures var s := Respond(endpoints, c.secretKey, cogs, Some(Headers(c)["Authorization"]), Some(Payload(endpoint, kwargs)));
      s.reply.Sent? && Unwrap(s.reply.resp) == Err(IpcError(VStr(NoEndpointMessage)))
  {
    PayloadIsEnvelope(endpoint, kwargs);
    RespondUnknownEndpoint(endpoints, c.secretKey, cogs, Some(c.secretKey), Payload(endpoint, kwargs).items);
  }

  // ---------------------------------------------------------------------
  // The handler-error path as it was evidently meant to work: the server
  // sends the exception's text, and the client raises IpcError with it.
  // ---------------------------------------------------------------------

  /** The handler-error response with `str(error)` in place of the exception object (the corrected form of server.py:178). */
  function HandlerErrorResponseFixed(e: PyException): (r: Value)
    ensures r.VDict? && Lookup(r.items, KStr("error_in_server")) == Some(VStr(e.message))
    ensures !HasKey(r.items, KStr("error")) && !HasKey(r.items, KStr("content"))
  {
    VDict([(KStr("error_in_server"), VStr(e.message)), (KStr("code"), VInt(500))])
  }

  /** The corrected response is always sent. */
  lemma HandlerErrorFixedIsSent(e: PyException)
    ensures Serializable(HandlerErrorResponseFixed(e))
    ensures Serialize(HandlerErrorResponseFixed(e)) == Sent(HandlerErrorResponseFixed(e))
  {
    SerializeSends(HandlerErrorResponseFixed(e));
  }

  /** Even the corrected response has neither "error" nor "content": the client as written fails on the missing key. */
  lemma UnwrapMissesServerError(e: PyException)
    ensures Unwrap(HandlerErrorResponseFixed(e)) == Err(KeyError("content"))
  {
    var items := HandlerErrorResponseFixed(e).items;
    assert !HasKey(items, KStr("error")) && !HasKey(items, KStr("content")) by {
      assert items[0].0 == KStr("error_in_server") && items[1].0 == KStr("code");
    }
  }

  /** The reply rule extended to "error_in_server": a handler failure raises IpcError too. */
  function UnwrapFixed(ret: Value): (r: Result<Value, ClientError>)
    ensures ret.VDict? && !HasKey(ret.items, KStr("error")) && HasKey(ret.items, KStr("error_in_server"))
      ==> r == Err(IpcError(Lookup(ret.items, KStr("error_in_server")).value))
    ensures !(ret.VDict? && HasKey(ret.items, KStr("error_in_server"))) ==> r == Unwrap(ret)
    ensures ret.VDict? && HasKey(ret.items, KStr("error")) ==> r == Unwrap(ret)
  {
    match ret
    case VDict(items) =>
      (match Lookup(items, KStr("error"))
       case Some(e) => Err(IpcError(e))
       case None =>
         match Lookup(items, KStr("error_in_server"))
         case Some(e) => Err(IpcError(e))
         case None => Unwrap(ret))
    case _ => Unwrap(ret)
  }

  /** `Invoke` with the corrected handler-error response. */
  function InvokeFixed(h: Handler, endpoint: string, args: Args): (s: Step)
    ensures h.run(args).Raises? ==>
      s == Step(Sent(HandlerErrorResponseFixed(h.run(args).error)), [IpcErrorEvent(endpoint, h.run(args).error)])
    ensures h.run(args).Returns? ==> s == Invoke(h, endpoint, args)
  {
    match h.run(args)
    case Returns(v) => Step(Serialize(ContentResponse(v)), [])
    case Raises(e) =>
      HandlerErrorFixedIsSent(e);
      Step(Serialize(HandlerErrorResponseFixed(e)), [IpcErrorEvent(endpoint, e)])
  }

  /**
    * With both corrections, a handler that raises dispatches one `ipc_error`
    * event with the endpoint and the exception, and the client raises
    * IpcError carrying the exception's text; a handler that returns a JSON
    * value still has it returned unchanged.
    */
  lemma HandlerFailureReachesClient(h: Handler, endpoint: string, args: Args)
    requires h.run(args).Returns? ==> Decoded(h.run(args).value)
    ensures var s := InvokeFixed(h, endpoint, args);
      s.reply.Sent? &&
      match h.run(args)
      case Raises(e) => s.fired == [IpcErrorEvent(endpoint, e)] && UnwrapFixed(s.reply.resp) == Err(IpcError(VStr(e.message)))
      case Returns(v) => s.fired == [] && UnwrapFixed(s.reply.resp) == Ok(v)
  {
    match h.run(args)
    case Raises(e) =>
      HandlerErrorFixedIsSent(e);
      var items := HandlerErrorResponseFixed(e).items;
      assert items[0].0 == KStr("error_in_server") && items[1].0 == KStr("code");
      assert Lookup(items, KStr("error_in_server")) == Some(VStr(e.message));
    case Returns(v) =>
      DecodedIsSerializable(v);
      InvokeReturns(h, endpoint, args);
      assert ContentResponse(v).items[0].0 == KStr("content");
  }
}
