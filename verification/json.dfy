/**
 * Parsed JSON values, and the few pieces of JavaScript semantics the relay
 * relies on when it walks an untyped payload: reading a property, the `?? []`
 * default, `for ... of` iteration and truthiness.
 */
module Json {
  import opened Wrappers

  /** A value produced by `JSON.parse`. Numbers are finite, so a `real` holds
      every one of them; objects keep the last of duplicated keys, as a map does. */
  datatype Json =
    | JNull
    | JBool(b: bool)
    | JNum(n: real)
    | JStr(s: string)
    | JArr(items: seq<Json>)
    | JObj(fields: map<string, Json>)

  /** What a property read yields: `undefined`, or a JSON value. */
  datatype JsValue = Undefined | Value(json: Json)

  /** A property read either throws a TypeError or yields a value. */
  datatype Access = Throws | Yields(value: JsValue)

  /** `x.key`. Reading a property of `undefined` or `null` throws. Any other
      non-object yields `undefined`: the keys the relay reads (`entry`,
      `changes`, `value`, `messages`, `from`) are not inherited properties of
      arrays, strings, numbers or booleans. */
  function Member(x: JsValue, key: string): (r: Access)
    ensures r.Throws? <==> x == Undefined || x == Value(JNull)
    ensures x.Value? && x.json.JObj? ==> r == Yields(if key in x.json.fields then Value(x.json.fields[key]) else Undefined)
  {
    match x
    case Undefined => Throws
    case Value(JNull) => Throws
    case Value(JObj(fields)) => Yields(if key in fields then Value(fields[key]) else Undefined)
    case Value(_) => Yields(Undefined)
  }

  /** JavaScript truthiness. JSON cannot produce NaN, so a number is truthy
      exactly when it is not zero. */
  predicate Truthy(x: JsValue) {
    match x
    case Undefined => false
    case Value(JNull) => false
    case Value(JBool(b)) => b
    case Value(JNum(n)) => n != 0.0
    case Value(JStr(s)) => s != ""
    case Value(_) => true
  }

  /** Arrays and objects are references: every one that `JSON.parse` builds
      is a distinct object, so a `Set` never merges two of them. */
  predicate IsReference(v: Json) {
    v.JArr? || v.JObj?
  }

  /** The items `for (const x of v ?? [])` visits, or `None` when the loop
      throws because the value is not iterable. `undefined` and `null` become
      the empty array; a string is iterated one code point at a time. */
  function ForOf(v: JsValue): (r: Option<seq<Json>>)
    ensures r.None? <==> v.Value? && (v.json.JBool? || v.json.JNum? || v.json.JObj?)
    ensures v == Undefined || v == Value(JNull) ==> r == Some([])
    ensures v.Value? && v.json.JArr? ==> r == Some(v.json.items)
    ensures v.Value? && v.json.JStr? ==> r.Some? && |r.value| == |v.json.s|
  {
    match v
    case Undefined => Some([])
    case Value(JNull) => Some([])
    case Value(JArr(items)) => Some(items)
    case Value(JStr(s)) => Some(seq(|s|, i requires 0 <= i < |s| => JStr([s[i]])))
    case Value(_) => None
  }

  /** JavaScript `ToString(v)` throws a TypeError. A parsed object with its
      own `toString` key has no callable `toString`, and the inherited
      `valueOf` returns the object itself, so neither gives a primitive. An
      array converts by joining its elements, so it throws when one does. */
  predicate ToStringThrows(v: Json) {
    match v
    case JObj(fields) => "toString" in fields
    case JArr(items) => exists i :: 0 <= i < |items| && ToStringThrows(items[i])
    case _ => false
  }

  /** `vs.join(", ")` throws: some element's `ToString` throws. */
  predicate JoinThrows(vs: seq<Json>) {
    exists i :: 0 <= i < |vs| && ToStringThrows(vs[i])
  }
}
