/**
 * The values `JSON.parse` can produce. Parsing itself is not modelled: callers
 * receive it as an oracle `string -> Option<Json>` (None when it throws).
 */
module Json {
  import opened Common

  datatype Json =
    | JNull
    | JBool(b: bool)
    | JNumber(n: real)
    | JString(s: string)
    | JArray(items: seq<Json>)
    | JObject(fields: map<string, Json>)

  /** Property access `v[key]` on a parsed value; `None` stands for `undefined`. */
  function Get(v: Json, key: string): (r: Option<Json>)
    ensures r.Some? <==> v.JObject? && key in v.fields
    ensures r.Some? ==> r.value == v.fields[key]
  {
    if v.JObject? && key in v.fields then Some(v.fields[key]) else None
  }

  /** `Array.isArray(v) && v.length > 0` */
  predicate IsNonEmptyArray(v: Json)
  {
    v.JArray? && |v.items| > 0
  }
}
