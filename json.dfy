/** The JSON values a parsed upstream body can hold, with the two pieces of
    JavaScript semantics the proxies rely on: truthiness and property access. */
module Json {
  import opened Wrappers

  /** A value produced by `JSON.parse`. Numbers are kept as reals. */
  datatype Json =
    | JNull
    | JBool(b: bool)
    | JNum(n: real)
    | JStr(s: string)
    | JArr(items: seq<Json>)
    | JObj(fields: map<string, Json>)

  /** JavaScript truthiness of a JSON value: `null`, `false`, `0` and `""`
      are falsy; every array and object, even an empty one, is truthy. */
  predicate Truthy(j: Json): (t: bool)
    ensures !t <==> j in {JNull, JBool(false), JNum(0.0), JStr("")}
  {
    match j
    case JNull => false
    case JBool(b) => b
    case JNum(n) => n != 0.0
    case JStr(s) => s != ""
    case JArr(_) => true
    case JObj(_) => true
  }

  /** `j.key` for a value that is not `null`: an object yields its field, or
      `undefined` (None) when it has none; booleans, numbers, strings and
      arrays have no own property of that name here either. Reading a
      property of `null` throws, so callers treat `JNull` before asking.
      Inherited properties (`length`, `constructor`, ...) are not modelled:
      this is property access for the keys the proxies read, `chart`,
      `error` and `description`. */
  function Member(j: Json, key: string): (r: Option<Json>)
    ensures r.Some? <==> j.JObj? && key in j.fields
    ensures r.Some? ==> r.value == j.fields[key]
  {
    match j
    case JObj(fields) => if key in fields then Some(fields[key]) else None
    case _ => None
  }

  /** `a && a.key`-style test: the property exists and its value is truthy. */
  predicate HasTruthy(j: Json, key: string) {
    var m := Member(j, key);
    m.Some? && Truthy(m.value)
  }
}
