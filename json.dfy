/** JSON values as JavaScript sees them after `JSON.parse`, with the three operations the core
    applies to them: property access, truthiness and conversion to a string. */
module Json {
  import opened Wrappers
  import opened Strings

  /** A parsed JSON value. Numbers are integers here (see README, "Left out"); an object maps
      each key to the last value written for it, as `JSON.parse` keeps it. */
  datatype Json =
    | JNull
    | JBool(b: bool)
    | JNumber(n: int)
    | JString(s: string)
    | JArray(items: seq<Json>)
    | JObject(fields: map<string, Json>)

  /** `v.key`: the property's value when `v` is an object that has it, `undefined` (None)
      otherwise. Reading a property of `null` throws in JavaScript; every caller in the core
      either catches that or tests `v` first, so callers treat `JNull` separately. */
  function Get(v: Json, key: string): (r: Option<Json>)
    ensures r.Some? <==> v.JObject? && key in v.fields
    ensures r.Some? ==> r.value == v.fields[key]
  {
    if v.JObject? && key in v.fields then Some(v.fields[key]) else None
  }

  /** JavaScript truthiness of a JSON value: `null`, `false`, `0` and `""` are falsy. */
  predicate Truthy(v: Json)
    ensures Truthy(v) <==> v != JNull && v != JBool(false) && v != JNumber(0) && v != JString("")
  {
    match v
    case JNull => false
    case JBool(b) => b
    case JNumber(n) => n != 0
    case JString(s) => s != ""
    case JArray(_) => true
    case JObject(_) => true
  }

  /** Truthiness of a value that may be `undefined`. */
  predicate TruthyOpt(o: Option<Json>) {
    o.Some? && Truthy(o.value)
  }

  /** `v` is a string with at least one character. */
  predicate IsNonEmptyString(o: Option<Json>) {
    o.Some? && o.value.JString? && o.value.s != ""
  }

  /** The message of the TypeError JavaScript throws when a value has no usable `toString`. */
  const PRIMITIVE_CONVERSION_ERROR := "Cannot convert object to primitive value"

  /** Whether `String(v)` returns rather than throws. A parsed object's own `toString` key
      shadows `Object.prototype.toString` with a value that is not a function, and its
      `valueOf` gives back the object itself, so converting it throws; an array converts
      each of its entries; every other value converts. */
  predicate ConvertsToString(v: Json)
    decreases v
  {
    match v
    case JObject(fields) => "toString" !in fields
    case JArray(xs) => forall i :: 0 <= i < |xs| ==> ConvertsToString(xs[i])
    case _ => true
  }

  /** `String(v)`, as a template literal or `new Error(v)` renders a value that converts. */
  function ToJsString(v: Json): (r: string)
    requires ConvertsToString(v)
    ensures v.JString? ==> r == v.s
    ensures v.JNull? ==> r == "null"
    ensures v.JBool? ==> r == (if v.b then "true" else "false")
    ensures v.JObject? ==> r == "[object Object]"
    ensures v.JArray? && |v.items| == 0 ==> r == ""
    ensures v.JArray? && |v.items| == 1 ==> r == (if v.items[0].JNull? then "" else ToJsString(v.items[0]))
    decreases v
  {
    match v
    case JNull => "null"
    case JBool(b) => if b then "true" else "false"
    case JNumber(n) => IntToString(n)
    case JString(s) => s
    case JArray(xs) =>
      Join(seq(|xs|, i requires 0 <= i < |xs| => if xs[i].JNull? then "" else ToJsString(xs[i])), ",")
    case JObject(_) => "[object Object]"
  }

  /** `msg || fallback` for a message string. */
  function OrDefault(msg: string, fallback: string): (r: string)
    ensures r != "" || fallback == ""
    ensures msg != "" ==> r == msg
    ensures msg == "" ==> r == fallback
  {
    if msg != "" then msg else fallback
  }
}
