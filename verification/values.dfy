/**
  * Python values as they flow through the IPC bridge: the decoded request
  * body, the handler results and the response dictionaries handed to the
  * JSON encoder.
  *
  * A Python dict is an association list in insertion order; the encoder walks
  * it in that order, which decides which TypeError it raises first.
  */
module Values {
  import opened Wrappers

  /** A dict key: a string, or an object of some other type that the JSON encoder refuses as a key. */
  datatype Key = KStr(s: string) | KOther(typeName: string)

  /** An exception object: its type name and `str(exception)`. */
  datatype PyException = PyException(typeName: string, message: string)

  datatype Value =
    | VNone
    | VBool(b: bool)
    | VInt(i: int)
    | VStr(s: string)
    | VList(elems: seq<Value>)
    | VDict(items: seq<(Key, Value)>)
    | VObject(typeName: string)       // any object the JSON encoder cannot represent
    | VException(exc: PyException)    // an exception object used as a value

  /** No key occurs twice: true of every Python dict. */
  predicate UniqueKeys(items: seq<(Key, Value)>) {
    forall i, j | 0 <= i < j < |items| :: items[i].0 != items[j].0
  }

  predicate HasKey(items: seq<(Key, Value)>, k: Key) {
    exists i | 0 <= i < |items| :: items[i].0 == k
  }

  /** `d[k]` when `k in d` (the first entry with that key; there is only one in a dict). */
  function Lookup(items: seq<(Key, Value)>, k: Key): (r: Option<Value>)
    ensures r.Some? <==> HasKey(items, k)
    ensures r.Some? ==> exists i | 0 <= i < |items| :: items[i] == (k, r.value)
  {
    if items == [] then None
    else if items[0].0 == k then Some(items[0].1)
    else
      var r := Lookup(items[1..], k);
      assert r.Some? ==> exists i | 0 <= i < |items[1..]| :: items[1..][i] == (k, r.value);
      assert HasKey(items[1..], k) ==> HasKey(items, k);
      assert HasKey(items, k) && items[0].0 != k ==> HasKey(items[1..], k) by {
        if HasKey(items, k) && items[0].0 != k {
          var i :| 0 <= i < |items| && items[i].0 == k;
          assert items[1..][i - 1].0 == k;
        }
      }
      r
  }

  /** In a dict, the entry at position `i` is what a lookup of its key finds. */
  lemma {:induction false} LookupUnique(items: seq<(Key, Value)>, i: nat)
    requires UniqueKeys(items) && i < |items|
    ensures Lookup(items, items[i].0) == Some(items[i].1)
  {
    if i > 0 {
      assert items[1..][i - 1] == items[i];
      LookupUnique(items[1..], i - 1);
    }
  }

  /** Python truthiness: `not v` holds exactly for these values. */
  predicate Falsy(v: Value) {
    match v
    case VNone => true
    case VBool(b) => !b
    case VInt(i) => i == 0
    case VStr(s) => s == ""
    case VList(xs) => xs == []
    case VDict(items) => items == []
    case _ => false
  }

  /** Lists and dicts cannot be dict keys: `v in d` raises TypeError for them. */
  predicate Hashable(v: Value) {
    !v.VList? && !v.VDict?
  }

  /** A value the JSON encoder writes out: no foreign objects, every dict key a string. */
  predicate Serializable(v: Value) {
    match v
    case VList(xs) => forall i | 0 <= i < |xs| :: Serializable(xs[i])
    case VDict(items) => forall i | 0 <= i < |items| :: items[i].0.KStr? && Serializable(items[i].1)
    case VObject(_) => false
    case VException(_) => false
    case _ => true
  }

  /** A value the JSON decoder can produce: serializable, and no dict repeats a key. */
  predicate Decoded(v: Value) {
    match v
    case VList(xs) => forall i | 0 <= i < |xs| :: Decoded(xs[i])
    case VDict(items) =>
      UniqueKeys(items) && forall i | 0 <= i < |items| :: items[i].0.KStr? && Decoded(items[i].1)
    case VObject(_) => false
    case VException(_) => false
    case _ => true
  }

  lemma {:induction false} DecodedIsSerializable(v: Value)
    requires Decoded(v)
    ensures Serializable(v)
  {
    match v
    case VList(xs) =>
      forall i | 0 <= i < |xs| ensures Serializable(xs[i]) { DecodedIsSerializable(xs[i]); }
    case VDict(items) =>
      forall i | 0 <= i < |items| ensures Serializable(items[i].1) { DecodedIsSerializable(items[i].1); }
    case _ =>
  }

  /** The two TypeErrors the JSON encoder raises on a value it cannot represent. */
  datatype EncodeFailure =
    | NotSerializable(typeName: string)   // from the encoder's `default` hook
    | BadKey(typeName: string)            // a dict key of an unsupported type

  function Message(f: EncodeFailure): string {
    match f
    case NotSerializable(t) => NotSerializablePrefix + " " + t + " " + NotSerializableSuffix
    case BadKey(t) => "keys" + " must be str, int, float, bool or None, not " + t
  }

  const NotSerializablePrefix := "Object of type"
  const NotSerializableSuffix := "is not JSON serializable"

  /** `msg.startswith("Object of type") and msg.endswith("is not JSON serializable")` */
  predicate IsNotSerializableMessage(msg: string) {
    && |NotSerializablePrefix| <= |msg|
    && msg[..|NotSerializablePrefix|] == NotSerializablePrefix
    && |NotSerializableSuffix| <= |msg|
    && msg[|msg| - |NotSerializableSuffix|..] == NotSerializableSuffix
  }

  /** The first failure met in the encoder's depth-first, left-to-right walk, if any. */
  function EncodeError(v: Value): (r: Option<EncodeFailure>)
    ensures r.Some? ==> !Serializable(v)
  {
    match v
    case VList(xs) => FirstFailure(seq(|xs|, i requires 0 <= i < |xs| => EncodeError(xs[i])))
    case VDict(items) =>
      FirstFailure(seq(|items|, i requires 0 <= i < |items| =>
        if items[i].0.KOther? then Some(BadKey(items[i].0.typeName)) else EncodeError(items[i].1)))
    case VObject(t) => Some(NotSerializable(t))
    case VException(e) => Some(NotSerializable(e.typeName))
    case _ => None
  }

  function FirstFailure(fs: seq<Option<EncodeFailure>>): (r: Option<EncodeFailure>)
    ensures r.None? <==> forall i | 0 <= i < |fs| :: fs[i].None?
    ensures r.Some? ==> exists i | 0 <= i < |fs| :: fs[i] == r && forall j | 0 <= j < i :: fs[j].None?
  {
    if fs == [] then None
    else if fs[0].Some? then fs[0]
    else
      var r := FirstFailure(fs[1..]);
      assert forall i | 0 < i < |fs| :: fs[i] == fs[1..][i - 1];
      if r.Some? then
        var k :| 0 <= k < |fs[1..]| && fs[1..][k] == r && forall j | 0 <= j < k :: fs[1..][j].None?;
        assert fs[k + 1] == r;
        r
      else r
  }

  /** The encoder fails exactly on the values that are not serializable. */
  lemma {:induction false} EncodeErrorIffNotSerializable(v: Value)
    ensures EncodeError(v).None? <==> Serializable(v)
  {
    match v
    case VList(xs) =>
      var fs := seq(|xs|, i requires 0 <= i < |xs| => EncodeError(xs[i]));
      forall i | 0 <= i < |xs| ensures fs[i].None? <==> Serializable(xs[i]) {
        EncodeErrorIffNotSerializable(xs[i]);
      }
    case VDict(items) =>
      var fs := seq(|items|, i requires 0 <= i < |items| =>
        if items[i].0.KOther? then Some(BadKey(items[i].0.typeName)) else EncodeError(items[i].1));
      forall i | 0 <= i < |items| ensures fs[i].None? <==> items[i].0.KStr? && Serializable(items[i].1) {
        EncodeErrorIffNotSerializable(items[i].1);
      }
    case _ =>
  }

  /** Only an object the encoder cannot represent produces the "Object of type ..." message; a bad key does not. */
  lemma MessageShape(f: EncodeFailure)
    ensures IsNotSerializableMessage(Message(f)) <==> f.NotSerializable?
  {
    match f
    case NotSerializable(t) =>
      var m := Message(f);
      assert m[..|NotSerializablePrefix|] == NotSerializablePrefix;
      assert m[|m| - |NotSerializableSuffix|..] == NotSerializableSuffix;
    case BadKey(t) =>
      var m := Message(f);
      assert m[0] == "keys"[0] == 'k';
      assert NotSerializablePrefix[0] == 'O';
  }
}
