/**
 * The parsed JSON documents the backend inspects, in the shape serde_json's
 * `Value` gives them, and the accessors it uses on them.
 */
module Json {
  import opened Wrappers

  /** A parsed JSON value. A number that parsed as an integer keeps its integer
      value (`Int`); every other number is held as a float (`Float`). An object
      maps each key to the last value the text gave it. */
  datatype Value =
    | Null
    | Bool(b: bool)
    | Int(i: int)
    | Float(f: real)
    | Str(s: string)
    | Arr(items: seq<Value>)
    | Obj(fields: map<string, Value>)

  /** The range of a 64-bit signed integer: `as_i64` succeeds only inside it. */
  const I64Min: int := -0x8000_0000_0000_0000
  const I64Bound: int := 0x8000_0000_0000_0000

  /** `Value::get(key)`: present exactly when `v` is an object holding `key`,
      whatever the value stored there (an explicit `null` included). */
  function Get(v: Value, key: string): Option<Value> {
    if v.Obj? && key in v.fields then Some(v.fields[key]) else None
  }

  /** `v[key]`: like `Get`, but a missing key or a non-object yields `Null`. */
  function Index(v: Value, key: string): Value {
    Get(v, key).GetOr(Null)
  }

  /** Repeated indexing `v[k0][k1]...`, one key after the other. */
  function Lookup(v: Value, keys: seq<string>): Value
    decreases |keys|
  {
    if |keys| == 0 then v else Lookup(Index(v, keys[0]), keys[1..])
  }

  function AsArray(v: Value): Option<seq<Value>> {
    if v.Arr? then Some(v.items) else None
  }

  function AsStr(v: Value): Option<string> {
    if v.Str? then Some(v.s) else None
  }

  /** `as_i64`: only an integer number that fits in 64 signed bits; floats,
      out-of-range integers and non-numbers give `None`. */
  function AsI64(v: Value): Option<int> {
    if v.Int? && I64Min <= v.i < I64Bound then Some(v.i) else None
  }
}
