/**
  * The IPC server's state: the class-wide pending routes (`Server.ROUTES`),
  * the per-instance endpoint table, and the request handler that merges the
  * two and dispatches one request.
  */
module IpcServer {
  import opened Wrappers
  import opened Values
  import opened RequestContext
  import opened Handlers
  import opened Dispatch

  /**
    * The class attribute `Server.ROUTES`: one dict shared by every server,
    * filled by the module-level `route` decorator.
    */
  class RouteTable {
    var routes: map<string, Handler>

    constructor ()
      ensures routes == map[]
    {
      routes := map[];
    }
  }

  /** The module-level `route(name)` decorator applied to `func`: registers it in `Server.ROUTES` and returns it unchanged. */
  method Route(table: RouteTable, name: Option<string>, func: Handler) returns (r: Handler)
    modifies table
    ensures table.routes == old(table.routes)[RouteKey(name, func) := func]
    ensures r == func
  {
    table.routes := table.routes[RouteKey(name, func) := func];
    r := func;
  }

  /** The parts of the bot the server uses: its loaded cogs (by name) and the events dispatched to it. */
  class Bot {
    var cogs: set<string>
    var events: seq<Event>

    constructor (cogs: set<string>)
      ensures this.cogs == cogs && events == []
    {
      this.cogs := cogs;
      events := [];
    }
  }

  const DefaultSecretKey := "public-ipc-key"

  class Server {
    const bot: Bot
    const secretKey: string
    /** The class-level `Server.ROUTES` dict. */
    const classRoutes: RouteTable
    /** The instance attribute `self.ROUTES`, absent until the first merge creates it. */
    var instanceRoutes: Option<map<string, Handler>>
    var endpoints: map<string, Handler>

    /** Nothing ever adds to the instance-level dict: once created it stays empty. */
    ghost predicate Valid()
      reads this
    {
      instanceRoutes.Some? ==> instanceRoutes.value == map[]
    }

    /** What `self.ROUTES` reads: the instance attribute if there is one, else the class attribute. */
    function Pending(): map<string, Handler>
      reads this, classRoutes
    {
      if instanceRoutes.Some? then instanceRoutes.value else classRoutes.routes
    }

    constructor (bot: Bot, classRoutes: RouteTable, secretKey: string := DefaultSecretKey)
      ensures Valid()
      ensures this.bot == bot && this.classRoutes == classRoutes && this.secretKey == secretKey
      ensures endpoints == map[] && instanceRoutes == None
    {
      this.bot := bot;
      this.classRoutes := classRoutes;
      this.secretKey := secretKey;
      endpoints := map[];
      instanceRoutes := None;
    }

    /**
      * The instance `route(name)` decorator applied to `func`: registers it
      * in this server's endpoints only (a later registration under the same
      * key replaces an earlier one) and returns it unchanged.
      */
    method Route(name: Option<string>, func: Handler) returns (r: Handler)
      requires Valid()
      modifies this`endpoints
      ensures Valid()
      ensures endpoints == old(endpoints)[RouteKey(name, func) := func]
      ensures r == func
    {
      endpoints := endpoints[RouteKey(name, func) := func];
      r := func;
    }

    /**
      * `update_endpoints`: the pending routes override the endpoints of the
      * same name, then `self.ROUTES = {}` creates an empty instance
      * attribute. It shadows the class dict, which keeps its contents, so
      * from the second call on nothing more is merged.
      */
    method UpdateEndpoints()
      requires Valid()
      modifies this`endpoints, this`instanceRoutes
      ensures Valid()
      ensures endpoints == old(endpoints) + old(Pending())
      ensures instanceRoutes == Some(map[]) && Pending() == map[]
      ensures classRoutes.routes == old(classRoutes.routes)
      ensures old(instanceRoutes).Some? ==> endpoints == old(endpoints)
    {
      endpoints := endpoints + Pending();
      instanceRoutes := Some(map[]);
    }

    /**
      * `handle_accept`: merge the pending routes, authenticate, resolve the
      * endpoint, build the context, bind and await the handler, and serialize
      * the response. The reply and the dispatched events are those of
      * `Respond` on the merged table.
      */
    method HandleAccept(header: Option<string>, body: Option<Value>) returns (reply: Reply)
      requires Valid()
      requires body.Some? ==> Decoded(body.value)
      modifies this`endpoints, this`instanceRoutes, bot`events
      ensures Valid()
      ensures endpoints == old(endpoints) + old(Pending()) && instanceRoutes == Some(map[])
      ensures var s := Respond(endpoints, secretKey, bot.cogs, header, body);
        reply == s.reply && bot.events == old(bot.events) + s.fired
    {
      UpdateEndpoints();
      var auth := header.GetOr("");
      if auth != secretKey {
        return Sent(ForbiddenResponse);
      }
      if body.None? {
        return Raised(BodyNotJson);
      }
      if !body.value.VDict? {
        return Raised(EnvelopeNotDict);
      }
      var data := body.value.items;
      var endpoint := Lookup(data, KStr("endpoint")).GetOr(VStr(""));
      if Falsy(endpoint) {
        return Sent(NoEndpointResponse);
      }
      if !Hashable(endpoint) {
        return Raised(EndpointUnhashable);
      }
      if !(endpoint.VStr? && endpoint.s in endpoints) {
        return Sent(NoEndpointResponse);
      }
      var ctx := BuildContext(data);
      if ctx.Err? {
        return Raised(ContextFailed(ctx.error));
      }
      var handler := endpoints[endpoint.s];
      var args := BindArgs(handler, bot.cogs, ctx.value);
      var resp: Value;
      match handler.run(args) {
        case Returns(v) =>
          resp := ContentResponse(v);
        case Raises(e) =>
          bot.events := bot.events + [IpcErrorEvent(endpoint.s, e)];
          resp := HandlerErrorResponse(e);
      }
      reply := Serialize(resp);
    }
  }

  /**
    * Module-level registrations made after a server's first request never
    * reach it: once merged, its pending routes stay empty whatever is added
    * to the class dict.
    */
  method LateRegistrationUnseen(s: Server, name: Option<string>, func: Handler)
    requires s.Valid()
    modifies s`endpoints, s`instanceRoutes, s.classRoutes
    ensures s.endpoints == old(s.endpoints) + old(s.Pending())
    ensures s.classRoutes.routes == old(s.classRoutes.routes)[RouteKey(name, func) := func]
  {
    s.UpdateEndpoints();
    var merged := s.endpoints;
    var _ := Route(s.classRoutes, name, func);
    s.UpdateEndpoints();
    assert s.endpoints == merged;
  }
}
