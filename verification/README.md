# mts_ipc in Dafny

A model of the core of `mts_ipc`, a small authenticated request/response RPC
bridge between a web process (the client) and a discord bot process (the
server). The client POSTs `{"endpoint": name, "data": kwargs}` with the shared
secret in the `Authorization` header; the server merges its pending routes,
checks the secret, resolves the endpoint, builds an `IpcServerResponse`
context, calls the handler (bound to its cog when that cog is loaded) and
returns the JSON response, which the client unwraps.

Modules, one per concern of `mts_ipc/server.py` and `mts_ipc/client.py`:

- `Values` (values.dfy): Python values as they cross the bridge. A dict is an
  association list in insertion order, because the JSON encoder walks it in
  that order and the first value it cannot represent decides which
  `TypeError` it raises. `EncodeError` gives that first failure. It models
  only the failure, not the encoder's output.
- `RequestContext` (context.dfy): `IpcServerResponse`. The context is a record
  holding the envelope, its top-level key count, `data["endpoint"]`, and the
  attributes that the `setattr` loop sets from `data["data"]`. That loop is
  the method `BuildContext`.
- `Handlers` (handlers.dfy): the handlers, the `route` key rule, and how a
  handler is bound to a cog through the first segment of its `__qualname__`.
- `Dispatch` (dispatch.dfy): the decision procedure of `handle_accept`. It is
  the pure function `Respond`, with one lemma per branch.
- `IpcServer` (server.dfy): the state. `RouteTable` is the
  class attribute `Server.ROUTES`, shared by reference. `Server` is a class
  with `endpoints`, the optional instance attribute `self.ROUTES` that
  `update_endpoints` creates, and `HandleAccept`. `HandleAccept` merges the
  routes, records `ipc_error` events on the `Bot`, and is proved to reply
  exactly as `Respond` does.
- `IpcClient` (client.dfy): the client configuration, its path rule, the URL,
  the payload, the headers, and the reply rule `Unwrap`.
- `Protocol` (protocol.dfy): client and server together. It holds the round
  trip and the corrected handler-error path (see Findings).

Behaviour of the code worth knowing:

- The pending module-level routes are never cleared. `self.ROUTES = {}`
  creates an instance attribute that hides `Server.ROUTES`. So a server merges
  the class dict only on its first request, and it never sees a module-level
  registration made after that. Another server instance still sees the full
  class dict.
- A handler's exception is put into the response as the exception object,
  not as `str(error)`. So that response is never sent (Findings).
- A data field named `endpoint`, `length` or `_json` replaces the context
  attribute of the same name (`RequestContext.EndpointAttr`). A field named
  `_json` therefore changes what `to_json()` returns. A field named `to_json`
  hides the method, and calling it then raises TypeError
  (`RequestContext.ContextOfEnvelope`).
- With `secret_key=""`, a request without an `Authorization` header is
  accepted, because a missing header reads as `""`.
- The assignment `resp = {"error": error_response, "code": 500}` at
  `mts_ipc/server.py:189` is a dead store. It runs, but its value is never
  read, because the method raises right after it.

The wire is taken to be faithful. A value with string keys, no repeated key
and no foreign object (`Values.Decoded`) arrives as it was sent.

## Model

| member | source | states |
|---|---|---|
| `Values.EncodeError` | mts_ipc/server.py:180-181 | the encoder's first failure, in its depth-first, left-to-right walk; a failure is only ever reported for a value that is not serializable |
| `Values.EncodeErrorIffNotSerializable` | mts_ipc/server.py:179-181 | the JSON encoder raises a TypeError exactly on values holding a foreign object or a non-string key |
| `Values.MessageShape` | mts_ipc/server.py:182-183 | only the "Object of type T is not JSON serializable" failure passes the prefix/suffix test; the bad-key message does not |
| `RequestContext.BuildContext` | mts_ipc/server.py:60-67 | the constructor's loop yields the context `ContextOf` describes: `KeyError` for a missing `endpoint` or `data`, `AttributeError` for a non-dict `data`, a TypeError from `setattr` on the first non-string key, otherwise one attribute per data field with the last write winning |
| `RequestContext.ContextOf` | mts_ipc/server.py:60-67 | a built context keeps the envelope as `_json`, its key count as `length` and `data["endpoint"]` as `endpoint`; a missing `endpoint` key and then a missing `data` key raise KeyError, in that order |
| `RequestContext.Attr` | mts_ipc/server.py:61-67 | an instance attribute (an entry of `vars(ctx)`) exists exactly when it is a data field or one of `_json`, `length`, `endpoint`; a data field's value wins, and otherwise `_json` is the envelope, `length` its key count and `endpoint` `data["endpoint"]` |
| `RequestContext.Fields` | mts_ipc/server.py:66-67 | the `setattr` loop fails exactly when some data key is not a string, and the last field written holds its value |
| `RequestContext.ToJson` | mts_ipc/server.py:69-70 | `to_json()` raises exactly when a data field named `to_json` hides the method; with neither `to_json` nor `_json` among the fields it returns the envelope |
| `RequestContext.FieldAttr` | mts_ipc/server.py:66-67 | for a well-formed envelope, a data field is read back by its name, and a name that is not a data field is not among the attributes set |
| `RequestContext.FieldsOfDict` | mts_ipc/server.py:66-67 | on a dict with string keys every field becomes an attribute holding its value, and no other attribute is set |
| `RequestContext.FieldsRejectsNonStringKey` | mts_ipc/server.py:66-67 | a data key that is not a string makes the constructor fail |
| `RequestContext.ContextOfEnvelope` | mts_ipc/server.py:60-70 | for an envelope with an endpoint and a data dict: `endpoint` is `data["endpoint"]`, `length` is the envelope's top-level key count, and every data field is readable by name; `to_json()` raises when a data field `to_json` exists, returns a data field `_json` when one exists, and otherwise gives back the envelope |
| `RequestContext.EndpointAttr` | mts_ipc/server.py:64-67 | `ctx.endpoint` is `data["endpoint"]` unless the data dict has an `endpoint` field, whose value then replaces it |
| `Handlers.RouteKey` | mts_ipc/server.py:42-45 | a registration is keyed by the given name, or by the handler's `__name__` when the name is None or "" |
| `Handlers.FirstSegment` | mts_ipc/server.py:165 | `split(".")[0]`: the dot-free prefix that ends at the first dot or at the end |
| `Handlers.FirstSegmentOfQualified` | mts_ipc/server.py:165 | the first segment of `C.rest` is `C`, and a dot-free name is its own first segment |
| `Handlers.BindArgs` | mts_ipc/server.py:163-172 | the handler always receives the request context; it is bound only to a cog that the bot has loaded, only when it has a qualified name, and the cog name has no dot |
| `Handlers.BindMethod` | mts_ipc/server.py:163-170 | a method `Cog.fn` receives `(cog, ctx)` when the cog is loaded and `(ctx,)` otherwise |
| `Handlers.BindFunction` | mts_ipc/server.py:163-170 | a handler whose qualified name has no dot is bound only when a loaded cog bears that very name |
| `Dispatch.Serialize` | mts_ipc/server.py:179-190 | a sent response is the response unchanged, the only exception it raises is `JSONEncodeError`, and returning nothing happens only for a response that is not serializable |
| `Dispatch.SerializeSends` | mts_ipc/server.py:179-180 | the response is sent, unchanged, exactly when it is serializable |
| `Dispatch.SerializeFails` | mts_ipc/server.py:181-190 | when encoding fails, an object the encoder cannot represent leads to `JSONEncodeError`, and a refused dict key makes the method return nothing |
| `Dispatch.Resolve` | mts_ipc/server.py:155-156 | an endpoint resolves only to a non-empty string registered in `endpoints`, and every such string resolves; the endpoint check raises TypeError exactly for a non-empty list or dict endpoint |
| `Dispatch.ContentResponse` | mts_ipc/server.py:175 | a handler's return value is sent under `content`, with no `error` key |
| `Dispatch.HandlerErrorResponse` | mts_ipc/server.py:178 | a handler's failure is reported under `error_in_server` as the exception object itself, with code 500 and no `error` or `content` key |
| `Dispatch.Invoke` | mts_ipc/server.py:173-178 | an event is fired exactly when the handler raises, and it is the single `ipc_error` event with the endpoint and the exception |
| `Dispatch.Respond` | mts_ipc/server.py:146-190 | a wrong or missing key gets exactly the 403 response with no event; at most one event is fired per request, and only for a registered, non-empty endpoint |
| `Dispatch.RespondForbidden` | mts_ipc/server.py:146-152 | a wrong or missing `Authorization` header gets exactly the 403 response whatever the body, even a malformed one, and fires no event |
| `Dispatch.RespondUnknownEndpoint` | mts_ipc/server.py:155-161 | an authenticated envelope whose endpoint is missing, falsy, or a hashable value that is not a key of `endpoints` (a number, a boolean, an unregistered string) gets exactly the 500 "no endpoint" response and fires no event |
| `Dispatch.RespondInvokes` | mts_ipc/server.py:162-174 | a resolved, authenticated request invokes the registered handler with the arguments `BindArgs` chooses for the context built from the envelope |
| `Dispatch.InvokeReturns` | mts_ipc/server.py:173-175 | a handler's return value is sent as `{content: value}` exactly when it is serializable, and no event is fired |
| `Dispatch.InvokeRaises` | mts_ipc/server.py:176-178 | a handler that raises fires exactly one `ipc_error` event with the endpoint and the exception, and the method then raises `JSONEncodeError` |
| `Dispatch.HandlerErrorNeverSent` | mts_ipc/server.py:178 | the handler-error response, which holds the exception object, is never serializable and always ends in `JSONEncodeError` |
| `Dispatch.RespondSendsOnlySerializable` | mts_ipc/server.py:144-190 | every response the dispatcher sends is serializable, and at most one event is fired per request |
| `IpcServer.Route` | mts_ipc/server.py:41-47 | the module-level decorator stores the handler in `Server.ROUTES` under the name, or under its `__name__` when the name is None or "", changes no other key, and returns the handler unchanged |
| `IpcServer.RouteTable.constructor` | mts_ipc/server.py:90 | `Server.ROUTES` starts empty |
| `IpcServer.Server.constructor` | mts_ipc/server.py:92-99 | a new server has no endpoints, no instance-level `ROUTES`, and the given secret key, which defaults to "public-ipc-key" |
| `IpcServer.Server.Route` | mts_ipc/server.py:116-122 | the instance decorator stores the handler in this server's `endpoints` only; a later registration under the same key replaces the earlier one, and the handler is returned unchanged |
| `IpcServer.Server.UpdateEndpoints` | mts_ipc/server.py:126-129 | `endpoints` becomes the old endpoints overridden by the pending routes; the instance-level `ROUTES` is then empty, `Server.ROUTES` is untouched, and a repeated call changes nothing |
| `IpcServer.Server.HandleAccept` | mts_ipc/server.py:135-190 | merges the pending routes first, then replies as `Respond` does on the merged table, appending to the bot's events exactly the `ipc_error` events `Respond` fires |
| `IpcServer.LateRegistrationUnseen` | mts_ipc/server.py:128-129 | a module-level registration made after a server's first merge is added to `Server.ROUTES` but never reaches that server's endpoints |
| `IpcClient.NormalizePath` | mts_ipc/client.py:25 | the stored path starts with "/", ends with the given path, is at most one character longer, and is the given path when that already starts with "/" |
| `IpcClient.NormalizePathIdempotent` | mts_ipc/client.py:25 | normalising a normalised path changes nothing |
| `IpcClient.NewClient` | mts_ipc/client.py:22-27 | a constructed client keeps its host and secret key (default "public-ipc-key"), and stores the normalised form of the given path (default "/ipc"), which starts with "/" |
| `IpcClient.Url` | mts_ipc/client.py:29-31 | the URL is "https://", then the host, then the path, with nothing in between |
| `IpcClient.UrlShape` | mts_ipc/client.py:29-31 | the URL is "https://", then the host, then the normalised path, so a "/" always follows the host |
| `IpcClient.Payload` | mts_ipc/client.py:43 | the body has exactly two keys: `endpoint` with the endpoint name, and `data` with the keyword arguments |
| `IpcClient.Headers` | mts_ipc/client.py:44 | the headers are exactly `Authorization` with the secret key |
| `IpcClient.Unwrap` | mts_ipc/client.py:48-50 | an `error` key raises IpcError with its value whether or not `content` is present; otherwise a `content` key gives its value, and only then is a value returned; a dict with neither key gives a KeyError, and a reply that is not a dict gives a TypeError |
| `Protocol.PayloadIsEnvelope` | mts_ipc/client.py:43 | the client's body is a decoded envelope that the server's context constructor accepts |
| `Protocol.RoundTrip` | mts_ipc/client.py:43-50 | for a registered endpoint whose handler returns a JSON value, the handler sees every keyword argument as an attribute, no event fires, and `request` returns the value unchanged |
| `Protocol.WrongKeyRaisesIpcError` | mts_ipc/client.py:48-49 | a client with the wrong key raises IpcError carrying the 403 message |
| `Protocol.UnknownEndpointRaisesIpcError` | mts_ipc/server.py:155-161 | requesting "" or an unregistered endpoint makes the client raise IpcError carrying the "no endpoint" message |
| `Protocol.HandlerErrorResponseFixed` | mts_ipc/server.py:178 | the corrected handler-error response carries the exception's text under `error_in_server` and has neither an `error` nor a `content` key |
| `Protocol.HandlerErrorFixedIsSent` | mts_ipc/server.py:178 | with `str(error)` in place of the exception object, the handler-error response is always sent |
| `Protocol.UnwrapMissesServerError` | mts_ipc/client.py:48-50 | the client as written turns an `error_in_server` reply into a KeyError for `content`, not an IpcError |
| `Protocol.UnwrapFixed` | mts_ipc/client.py:48-50 | the corrected reply rule raises IpcError for `error_in_server` too; it agrees with `Unwrap` on every reply without that key, and on every reply with an `error` key, which still wins |
| `Protocol.InvokeFixed` | mts_ipc/server.py:173-178 | with the corrected response, a raising handler fires its one `ipc_error` event and the error response is sent; a returning handler is handled as before |
| `Protocol.HandlerFailureReachesClient` | mts_ipc/server.py:173-178 | with both corrections, a raising handler fires one `ipc_error` event and the client raises IpcError with the exception's text, and a returning handler's JSON value still arrives unchanged |

## Findings

| source | as written | input that shows it | evidently intended | confidence | as-written member | corrected member |
|---|---|---|---|---|---|---|
| mts_ipc/server.py:178 | the handler-error response holds the exception object, which the JSON encoder cannot represent, so `handle_accept` raises `JSONEncodeError` and no 500 response is sent | any handler that raises, e.g. `ValueError("boom")` | `{"error_in_server": str(error), "code": 500}` is sent | high; not executed | `Dispatch.HandlerErrorNeverSent` | `Protocol.HandlerErrorResponseFixed`, `Protocol.HandlerErrorFixedIsSent` |
| mts_ipc/client.py:48-50 | only an `error` key raises IpcError; an `error_in_server` reply has no `content`, so `ret["content"]` raises KeyError | the reply `{"error_in_server": "boom", "code": 500}` | the client raises IpcError carrying "boom" | medium; not executed | `Protocol.UnwrapMissesServerError` | `Protocol.UnwrapFixed`, `Protocol.HandlerFailureReachesClient` |

`IpcServer.Server.HandleAccept` keeps the behaviour as written. The corrected
path is `Protocol.HandlerErrorResponseFixed`, `Protocol.InvokeFixed` and
`Protocol.UnwrapFixed`.

## Left out

- Transport and lifecycle: `start`, `setup`, `_setup`, `_start`, the aiohttp application, runner and site, router binding, the `ipc_setup` and `ipc_ready` events, and the client's `ClientSession` POST. These are network I/O and event-loop control. The model takes the header and the decoded body as inputs and hands the response value back.
- JSON text. Encoding and decoding are not modelled, only which TypeError the encoder raises first. The wire is taken to carry `Decoded` values unchanged. Floats, tuples, and int/float/bool/None dict keys (which the encoder coerces to strings) are not represented.
- A body that is not valid JSON is one input case, `BodyNotJson`. The exception classes that aiohttp raises are not modelled.
- async/await and concurrency: a handler call is one atomic step. Its behaviour is a function from its arguments to an outcome, either returning a value or raising an exception.
- discord.py: `bot.cogs` is a set of cog names, and a bound handler receives the cog's name in place of the cog object. `bot.dispatch` is an append to `Bot.events`. A cog object is taken to be truthy.
- `IpcServer.Server.HandleAccept`: it requires the body to be a `Decoded` value, as `request.json()` can only produce such values.
- `__repr__` and `__str__` of the context: formatting only.
- RequestContext.Fields, RequestContext.FieldsOfDict, RequestContext.ContextOfEnvelope and Protocol.RoundTrip treat every string key as an ordinary attribute name. The model does not capture `setattr` on names that Python treats specially:
  - `__class__` raises TypeError, which escapes `handle_accept`;
  - `__weakref__` raises AttributeError;
  - `__dict__` raises TypeError for a value that is not a dict, and a dict value replaces the whole attribute dict.

  So "every field becomes an attribute" holds for ordinary names only.
- Dispatch.Invoke: `except Exception` (mts_ipc/server.py:176) does not catch `BaseException` subclasses such as `asyncio.CancelledError` (Python 3.8 and later), `SystemExit` or `KeyboardInterrupt`. Those leave `handle_accept` with no `ipc_error` event. The model's `Raises` outcome stands only for `Exception` subclasses, so this path is not modelled.
- The client's `secret_key` may be `bytes` in the source; the model has strings only. A `path` that is not a string (`str(path)`) is not represented either.
- mts_ipc/errors.py appears only as the `IpcError` constructor of `IpcClient.ClientError` and `Dispatch.DispatchError.JsonEncode`.
- setup.py and tests/ are not part of this model. They hold packaging and demo scripts that need a live bot and network.
