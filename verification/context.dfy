/**
  * The request context handed to every endpoint handler (`IpcServerResponse`):
  * built from the decoded request envelope `{"endpoint": ..., "data": {...}}`.
  * Each field of the envelope's `data` dict becomes an attribute of the context.
  */
module RequestContext {
  import opened Wrappers
  import opened Values

  /** What the constructor raises on an envelope it cannot read. */
  datatype ContextError =
    | KeyMissing(key: string)           // `data["endpoint"]` or `data["data"]`: KeyError
    | DataNotDict                       // `data["data"].items()`: AttributeError
    | AttrNameNotString(typeName: string)  // `setattr` with a key that is not a string: TypeError

  /**
    * The constructed context: the envelope as received (`_json`), the number of
    * its top-level keys (`length`), `data["endpoint"]`, and the attributes set
    * from `data["data"]`.
    */
  datatype Context = Context(json: seq<(Key, Value)>, length: nat, endpoint: Value, fields: map<string, Value>)

  /** The attributes the constructor assigns itself before the `setattr` loop. */
  const OwnAttrs: set<string> := {"_json", "length", "endpoint"}

  /**
    * Reading instance attribute `name` of the context (an entry of
    * `vars(ctx)`; the class's methods `to_json`, `__repr__` and `__str__` are
    * not among them). An attribute set from a data field replaces the
    * constructor's own attribute of the same name, because `setattr` runs
    * after `_json`, `length` and `endpoint` are assigned.
    */
  function Attr(ctx: Context, name: string): (r: Option<Value>)
    ensures r.Some? <==> name in ctx.fields || name in OwnAttrs
    ensures name in ctx.fields ==> r == Some(ctx.fields[name])
    ensures name !in ctx.fields && name == "_json" ==> r == Some(VDict(ctx.json))
    ensures name !in ctx.fields && name == "length" ==> r == Some(VInt(ctx.length))
    ensures name !in ctx.fields && name == "endpoint" ==> r == Some(ctx.endpoint)
  {
    if name in ctx.fields then Some(ctx.fields[name])
    else if name == "endpoint" then Some(ctx.endpoint)
    else if name == "length" then Some(VInt(ctx.length))
    else if name == "_json" then Some(VDict(ctx.json))
    else None
  }

  /**
    * `ctx.to_json()`: the `_json` attribute, which a data field of that name
    * replaces. A data field named `to_json` hides the method itself; a JSON
    * value is not callable, so the call raises TypeError (None here).
    */
  function ToJson(ctx: Context): (r: Option<Value>)
    ensures r.None? <==> "to_json" in ctx.fields
    ensures "to_json" !in ctx.fields && "_json" !in ctx.fields ==> r == Some(VDict(ctx.json))
  {
    if "to_json" in ctx.fields then None else Attr(ctx, "_json")
  }

  /**
    * The attributes after `setattr(self, key, value)` for each entry of
    * `items`, in order: it fails exactly when some key is not a string, and
    * the last entry's write wins.
    */
  function Fields(items: seq<(Key, Value)>): (r: Result<map<string, Value>, ContextError>)
    ensures r.Ok? <==> forall i | 0 <= i < |items| :: items[i].0.KStr?
    ensures r.Ok? && items != [] ==>
      var (k, v) := items[|items| - 1]; k.KStr? && k.s in r.value && r.value[k.s] == v
  {
    if items == [] then Ok(map[])
    else
      match Fields(items[..|items| - 1])
      case Err(e) => Err(e)
      case Ok(m) =>
        var (k, v) := items[|items| - 1];
        if k.KOther? then Err(AttrNameNotString(k.typeName)) else Ok(m[k.s := v])
  }

  /** The context the constructor builds from `data`, or the exception it raises. */
  function ContextOf(data: seq<(Key, Value)>): (r: Result<Context, ContextError>)
    requires UniqueKeys(data)
    ensures r.Ok? ==> r.value.json == data && r.value.length == |data|
    ensures r.Ok? ==> Some(r.value.endpoint) == Lookup(data, KStr("endpoint"))
    ensures !HasKey(data, KStr("endpoint")) ==> r == Err(KeyMissing("endpoint"))
    ensures HasKey(data, KStr("endpoint")) && !HasKey(data, KStr("data")) ==> r == Err(KeyMissing("data"))
  {
    match Lookup(data, KStr("endpoint"))
    case None => Err(KeyMissing("endpoint"))
    case Some(endpoint) =>
      match Lookup(data, KStr("data"))
      case None => Err(KeyMissing("data"))
      case Some(VDict(d)) =>
        (match Fields(d)
         case Err(e) => Err(e)
         case Ok(fields) => Ok(Context(data, |data|, endpoint, fields)))
      case Some(_) => Err(DataNotDict)
  }

  /** Once `setattr` has failed on a prefix, the walk over the whole list fails the same way. */
  lemma {:induction false} FieldsErrorPersists(items: seq<(Key, Value)>, n: nat)
    requires n <= |items| && Fields(items[..n]).Err?
    ensures Fields(items) == Fields(items[..n])
    decreases |items| - n
  {
    if n < |items| {
      assert items[..n + 1][..n] == items[..n];
      FieldsErrorPersists(items, n + 1);
    } else {
      assert items[..n] == items;
    }
  }

  /**
    * On a dict with string keys, every entry becomes an attribute holding its
    * value, and nothing else does.
    */
  lemma {:induction false} FieldsOfDict(items: seq<(Key, Value)>)
    requires UniqueKeys(items)
    requires forall i | 0 <= i < |items| :: items[i].0.KStr?
    ensures Fields(items).Ok?
    ensures forall i | 0 <= i < |items| ::
      items[i].0.s in Fields(items).value && Fields(items).value[items[i].0.s] == items[i].1
    ensures forall name | name in Fields(items).value :: HasKey(items, KStr(name))
  {
    if items != [] {
      var n := |items| - 1;
      var front := items[..n];
      assert forall i | 0 <= i < n :: front[i] == items[i];
      FieldsOfDict(front);
      var m := Fields(front).value;
      var k := items[n].0.s;
      assert Fields(items) == Ok(m[k := items[n].1]);
      forall i | 0 <= i < |items|
        ensures items[i].0.s in m[k := items[n].1] && m[k := items[n].1][items[i].0.s] == items[i].1
      {
        if i < n {
          assert items[i].0 != items[n].0;
        }
      }
      forall name | name in m[k := items[n].1] ensures HasKey(items, KStr(name)) {
        if name != k {
          var j :| 0 <= j < |front| && front[j].0 == KStr(name);
          assert items[j].0 == KStr(name);
        }
      }
    }
  }

  /** A data field whose key is not a string makes `setattr` fail. */
  lemma {:induction false} FieldsRejectsNonStringKey(items: seq<(Key, Value)>, i: nat)
    requires i < |items| && items[i].0.KOther?
    ensures Fields(items).Err?
  {
    if Fields(items[..i]).Err? {
      FieldsErrorPersists(items, i);
    } else {
      assert items[..i + 1][..i] == items[..i];
      FieldsErrorPersists(items, i + 1);
    }
  }

  /**
    * `IpcServerResponse.__init__`: records the envelope and its key count,
    * reads the endpoint, then sets one attribute per field of `data["data"]`.
    */
  method BuildContext(data: seq<(Key, Value)>) returns (r: Result<Context, ContextError>)
    requires UniqueKeys(data)
    ensures r == ContextOf(data)
  {
    var length := |data|;
    var endpoint := Lookup(data, KStr("endpoint"));
    if endpoint.None? {
      return Err(KeyMissing("endpoint"));
    }
    var payload := Lookup(data, KStr("data"));
    if payload.None? {
      return Err(KeyMissing("data"));
    }
    if !payload.value.VDict? {
      return Err(DataNotDict);
    }
    var d := payload.value.items;
    var fields: map<string, Value> := map[];
    var i := 0;
    while i < |d|
      invariant 0 <= i <= |d|
      invariant Fields(d[..i]) == Ok(fields)
    {
      var (key, value) := d[i];
      assert d[..i + 1][..i] == d[..i];
      if key.KOther? {
        FieldsErrorPersists(d, i + 1);
        return Err(AttrNameNotString(key.typeName));
      }
      fields := fields[key.s := value];
      i := i + 1;
    }
    assert d[..|d|] == d;
    r := Ok(Context(data, length, endpoint.value, fields));
  }

  /** An envelope that carries an endpoint and a `data` dict whose keys are strings. */
  predicate Envelope(data: seq<(Key, Value)>) {
    && UniqueKeys(data)
    && HasKey(data, KStr("endpoint"))
    && Lookup(data, KStr("data")).Some? && Lookup(data, KStr("data")).value.VDict?
    && var d := Lookup(data, KStr("data")).value.items;
       UniqueKeys(d) && forall i | 0 <= i < |d| :: d[i].0.KStr?
  }

  /**
    * A data field `name` of such an envelope is what the context's attribute
    * `name` reads; any other name is not among the fields.
    */
  lemma FieldAttr(data: seq<(Key, Value)>, name: string)
    requires Envelope(data)
    ensures ContextOf(data).Ok?
    ensures var ctx := ContextOf(data).value;
      var d := Lookup(data, KStr("data")).value.items;
      (HasKey(d, KStr(name)) ==> name in ctx.fields && Attr(ctx, name) == Lookup(d, KStr(name)))
      && (!HasKey(d, KStr(name)) ==> name !in ctx.fields)
  {
    var d := Lookup(data, KStr("data")).value.items;
    FieldsOfDict(d);
    if HasKey(d, KStr(name)) {
      var i :| 0 <= i < |d| && d[i].0 == KStr(name);
      LookupUnique(d, i);
    }
  }

  /**
    * What a handler sees: from such an envelope the context holds the
    * endpoint, the top-level key count (not the data field count) and every
    * data field by name; `to_json()` gives back the envelope unless a data
    * field named `_json` replaced it, and fails when one named `to_json` hid
    * the method.
    */
  lemma ContextOfEnvelope(data: seq<(Key, Value)>)
    requires Envelope(data)
    ensures ContextOf(data).Ok?
    ensures var ctx := ContextOf(data).value;
      && Some(ctx.endpoint) == Lookup(data, KStr("endpoint"))
      && ctx.length == |data|
    ensures var ctx := ContextOf(data).value;
      var d := Lookup(data, KStr("data")).value.items;
      forall i | 0 <= i < |d| :: Attr(ctx, d[i].0.s) == Some(d[i].1)
    ensures var ctx := ContextOf(data).value;
      var d := Lookup(data, KStr("data")).value.items;
      ToJson(ctx) ==
        if HasKey(d, KStr("to_json")) then None
        else if HasKey(d, KStr("_json")) then Lookup(d, KStr("_json"))
        else Some(VDict(data))
  {
    FieldsOfDict(Lookup(data, KStr("data")).value.items);
    FieldAttr(data, "to_json");
    FieldAttr(data, "_json");
  }

  /**
    * `ctx.endpoint` reads `data["endpoint"]` unless the data dict has a field
    * named "endpoint", whose value then takes its place.
    */
  lemma EndpointAttr(data: seq<(Key, Value)>)
    requires Envelope(data)
    ensures ContextOf(data).Ok?
    ensures var ctx := ContextOf(data).value;
      var d := Lookup(data, KStr("data")).value.items;
      Attr(ctx, "endpoint") ==
        if HasKey(d, KStr("endpoint")) then Lookup(d, KStr("endpoint")) else Lookup(data, KStr("endpoint"))
  {
    FieldAttr(data, "endpoint");
  }
}
