/**
  * Endpoint handlers, the arguments they are called with, and the events the
  * server reports to the bot.
  */
module Handlers {
  import opened Wrappers
  import opened Values
  import opened RequestContext

  /** What one call of a handler does: return a value or raise an exception. */
  datatype Outcome = Returns(value: Value) | Raises(error: PyException)

  /**
    * The handler's positional arguments: `(cog, ctx)` when it is bound to a
    * loaded cog (identified here by its name), `(ctx,)` otherwise.
    */
  datatype Args = Bound(cog: string, ctx: Context) | Unbound(ctx: Context)

  /**
    * An endpoint coroutine: its `__name__`, its `__qualname__` (absent for
    * callables that have none), and its behaviour, awaited as one step.
    */
  datatype Handler = Handler(name: string, qualname: Option<string>, run: Args -> Outcome)

  /** `bot.dispatch("ipc_error", endpoint, error)` */
  datatype Event = IpcErrorEvent(endpoint: string, error: PyException)

  /** The key a `route(name)` decorator stores `func` under: `name`, or `func.__name__` when `name` is None or "". */
  function RouteKey(name: Option<string>, func: Handler): (k: string)
    ensures name.Some? && name.value != "" ==> k == name.value
    ensures name.None? || name.value == "" ==> k == func.name
  {
    if name.None? || name.value == "" then func.name else name.value
  }

  /** `s.split(".")[0]`: the text before the first dot, or all of `s` when it has none. */
  function FirstSegment(s: string): (r: string)
    ensures |r| <= |s| && r == s[..|r|]
    ensures '.' !in r
    ensures |r| < |s| ==> s[|r|] == '.'
  {
    if s == [] || s[0] == '.' then [] else [s[0]] + FirstSegment(s[1..])
  }

  /** The first segment is the only prefix that is dot-free and ends at a dot or at the end. */
  lemma {:induction false} FirstSegmentOfQualified(c: string, rest: string)
    requires '.' !in c
    ensures FirstSegment(c + "." + rest) == c
    ensures FirstSegment(c) == c
  {
    if c != [] {
      assert (c + "." + rest)[1..] == c[1..] + "." + rest;
      FirstSegmentOfQualified(c[1..], rest);
    }
  }

  /**
    * The handler's arguments: bound to the cog named by the first segment of
    * its qualified name when the bot has that cog loaded; otherwise the
    * context alone, which is also the case when the handler has no qualified
    * name (the AttributeError branch).
    */
  function BindArgs(h: Handler, cogs: set<string>, ctx: Context): (a: Args)
    ensures a.ctx == ctx
    ensures a.Bound? ==> a.cog in cogs && '.' !in a.cog && h.qualname.Some?
  {
    if h.qualname.Some? && FirstSegment(h.qualname.value) in cogs then Bound(FirstSegment(h.qualname.value), ctx)
    else Unbound(ctx)
  }

  /** A method `Cog.fn` of a loaded cog receives that cog; of an unloaded one, only the context. */
  lemma BindMethod(h: Handler, cogs: set<string>, ctx: Context, cog: string, fn: string)
    requires '.' !in cog && h.qualname == Some(cog + "." + fn)
    ensures BindArgs(h, cogs, ctx) == if cog in cogs then Bound(cog, ctx) else Unbound(ctx)
  {
    FirstSegmentOfQualified(cog, fn);
  }

  /** A module-level function (no dot in its qualified name) is bound only if a cog bears its own name. */
  lemma BindFunction(h: Handler, cogs: set<string>, ctx: Context)
    requires h.qualname.Some? && '.' !in h.qualname.value
    ensures BindArgs(h, cogs, ctx) == if h.qualname.value in cogs then Bound(h.qualname.value, ctx) else Unbound(ctx)
  {
    FirstSegmentOfQualified(h.qualname.value, "");
  }
}
