/**
 * Decoded JSON values, as Go's encoding/json produces them for an
 * `interface{}` target: objects become maps, arrays become slices.
 * Numbers are kept as integers (the gateway only ever compares or counts them).
 */
module Json {
  import opened Wrappers

  datatype Json =
    | Null
    | Bool(b: bool)
    | Num(n: int)
    | Str(s: string)
    | Arr(items: seq<Json>)
    | Obj(fields: map<string, Json>)

  /** The `v, ok := m[key].(string)` type assertion. */
  function StringField(fields: map<string, Json>, key: string): (r: Option<string>)
    ensures r.Some? <==> key in fields && fields[key].Str?
    ensures r.Some? ==> fields[key] == Str(r.value)
  {
    if key in fields && fields[key].Str? then Some(fields[key].s) else None
  }
}
