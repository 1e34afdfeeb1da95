/** The dynamic JSON values that Go's encoding/json produces when it decodes into
    interface{}: nil, bool, float64, string, []interface{} and map[string]interface{}. */
module Json {

  import opened Wrappers

  datatype Value =
    | Null
    | Bool(b: bool)
    | Number(n: real)
    | Str(s: string)
    | Array(items: seq<Value>)
    | Object(fields: map<string, Value>)

  /** Go's conversion int(f) of a float64: truncation toward zero. */
  function TruncateToInt(f: real): (r: int)
    ensures 0.0 <= f ==> 0 <= r && r as real <= f < r as real + 1.0
    ensures f < 0.0 ==> r <= 0 && r as real - 1.0 < f <= r as real
  {
    if f >= 0.0 then f.Floor else -((-f).Floor)
  }

  /** The field `key` of `v` when `v` is an object holding it; Go's failed type
      assertion or missing key otherwise. */
  function Field(v: Value, key: string): Option<Value> {
    if v.Object? && key in v.fields then Some(v.fields[key]) else None
  }

  /** `m[key].(string)` in Go: the string under `key`, if there is one. */
  function StringField(v: Value, key: string): Option<string> {
    match Field(v, key)
    case Some(Str(s)) => Some(s)
    case _ => None
  }
}
