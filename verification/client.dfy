/**
  * The IPC client: its configuration, the request it sends and how it reads
  * the server's reply. The HTTP POST itself is not modelled.
  */
module IpcClient {
  import opened Wrappers
  import opened Values

  const DefaultSecretKey := "public-ipc-key"
  const DefaultPath := "/ipc"

  /** A client's configuration, fixed at construction. */
  datatype Client = Client(host: string, secretKey: string, path: string)

  predicate StartsWithSlash(s: string) {
    |s| > 0 && s[0] == '/'
  }

  /** The constructor's path rule: prefix "/" when the path does not start with one. */
  function NormalizePath(path: string): (r: string)
    ensures StartsWithSlash(r)
    ensures |r| - 1 <= |path| <= |r| && r[|r| - |path|..] == path
    ensures StartsWithSlash(path) ==> r == path
  {
    if StartsWithSlash(path) then path else "/" + path
  }

  /** Normalising an already normalised path changes nothing. */
  lemma NormalizePathIdempotent(path: string)
    ensures NormalizePath(NormalizePath(path)) == NormalizePath(path)
  {
  }

  /** `Client(host, secret_key, path)` */
  function NewClient(host: string, secretKey: string := DefaultSecretKey, path: string := DefaultPath): (c: Client)
    ensures c.host == host && c.secretKey == secretKey
    ensures c.path == NormalizePath(path) && StartsWithSlash(c.path)
  {
    Client(host, secretKey, NormalizePath(path))
  }

  /** The `url` property. */
  function Url(c: Client): (u: string)
    ensures |u| == 8 + |c.host| + |c.path|
    ensures u[..8] == "https://" && u[8..8 + |c.host|] == c.host && u[8 + |c.host|..] == c.path
  {
    "https://" + c.host + c.path
  }

  /** The URL of a constructed client is the scheme, the host, then the path, which begins with "/". */
  lemma UrlShape(host: string, secretKey: string, path: string)
    ensures var u := Url(NewClient(host, secretKey, path));
      && u[..8] == "https://"
      && u[8..8 + |host|] == host
      && u[8 + |host|..] == NormalizePath(path)
      && u[8 + |host|] == '/'
  {
    var u := Url(NewClient(host, secretKey, path));
    assert u == "https://" + host + NormalizePath(path);
  }

  /** The JSON body of `request(endpoint, **kwargs)`: the endpoint and the keyword arguments as `data`. */
  function Payload(endpoint: string, kwargs: seq<(Key, Value)>): (p: Value)
    ensures p.VDict? && |p.items| == 2
    ensures Lookup(p.items, KStr("endpoint")) == Some(VStr(endpoint))
    ensures Lookup(p.items, KStr("data")) == Some(VDict(kwargs))
  {
    VDict([(KStr("endpoint"), VStr(endpoint)), (KStr("data"), VDict(kwargs))])
  }

  /** The request headers: the secret key under "Authorization", nothing else. */
  function Headers(c: Client): (h: map<string, string>)
    ensures h.Keys == {"Authorization"} && h["Authorization"] == c.secretKey
  {
    map["Authorization" := c.secretKey]
  }

  /** How `request` fails after the reply has been decoded. */
  datatype ClientError =
    | IpcError(detail: Value)  // `raise IpcError(ret["error"])`
    | KeyError(key: string)    // `ret["content"]` on a dict without that key
    | TypeError                // `"error" in ret` / `ret[...]` on a reply that is not a dict

  /** The reply rule of `request`: an "error" key raises IpcError, otherwise "content" is the result. */
  function Unwrap(ret: Value): (r: Result<Value, ClientError>)
    ensures r.Ok? ==> ret.VDict? && !HasKey(ret.items, KStr("error")) && Lookup(ret.items, KStr("content")) == Some(r.value)
    ensures ret.VDict? && !HasKey(ret.items, KStr("error")) && HasKey(ret.items, KStr("content"))
      ==> r == Ok(Lookup(ret.items, KStr("content")).value)
    ensures ret.VDict? && HasKey(ret.items, KStr("error")) ==> r == Err(IpcError(Lookup(ret.items, KStr("error")).value))
    ensures ret.VDict? && !HasKey(ret.items, KStr("error")) && !HasKey(ret.items, KStr("content")) ==> r == Err(KeyError("content"))
    ensures !ret.VDict? ==> r == Err(TypeError)
  {
    match ret
    case VDict(items) =>
      (match Lookup(items, KStr("error"))
       case Some(e) => Err(IpcError(e))
       case None =>
         match Lookup(items, KStr("content"))
         case Some(v) => Ok(v)
         case None => Err(KeyError("content")))
    case _ => Err(TypeError)
  }
}
