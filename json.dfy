/** An abstract `serde_json::Value` and the accessors the program uses on it.
    Text-to-value parsing is not defined here: callers receive it as a function. */
module Json {
  import opened Wrappers

  datatype Value =
    | Null
    | Bool(b: bool)
    | Number(n: int)
    | Str(s: string)
    | Array(items: seq<Value>)
    | Object(fields: map<string, Value>)

  /** `Value::get(key)`: the member of an object, `None` on a missing key or a non-object. */
  function Get(v: Value, key: string): (r: Option<Value>)
    ensures r.Some? <==> v.Object? && key in v.fields
    ensures r.Some? ==> r.value == v.fields[key]
  {
    if v.Object? && key in v.fields then Some(v.fields[key]) else None
  }

  /** `value[key]` (the `Index` impl): like `Get`, with `Null` for a missing member. */
  function Member(v: Value, key: string): Value
  {
    Get(v, key).GetOr(Null)
  }

  /** `value[i]` on an array: `Null` when out of range or not an array. */
  function Element(v: Value, i: nat): Value
  {
    if v.Array? && i < |v.items| then v.items[i] else Null
  }

  /** `Value::as_str` */
  function AsStr(v: Value): (r: Option<string>)
    ensures r.Some? <==> v.Str?
    ensures r.Some? ==> r.value == v.s
  {
    if v.Str? then Some(v.s) else None
  }

  /** `Value::as_array` */
  function AsArray(v: Value): (r: Option<seq<Value>>)
    ensures r.Some? <==> v.Array?
    ensures r.Some? ==> r.value == v.items
  {
    if v.Array? then Some(v.items) else None
  }

  /** `obj.get(key).and_then(|v| v.as_str())`: a string member of an object. */
  function StrField(v: Value, key: string): (r: Option<string>)
    ensures r.Some? <==> v.Object? && key in v.fields && v.fields[key].Str?
    ensures r.Some? ==> r.value == v.fields[key].s
  {
    match Get(v, key)
    case None => None
    case Some(m) => AsStr(m)
  }
}
