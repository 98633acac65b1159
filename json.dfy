/** The part of `serde_json::Value` that the normalisation code reads. Objects are maps
    (serde_json keeps one value per key); a number is either integral or not. */
module JsonValue {
  import opened Prelude
  import opened Rust

  /** A JSON number: integral literals keep their value, others are floats whose
      digits are carried as text. */
  datatype Number = Int(i: int) | Float(text: string)

  datatype Json =
    | Null
    | Bool(b: bool)
    | Num(n: Number)
    | Str(s: string)
    | Arr(items: seq<Json>)
    | Obj(fields: map<string, Json>)

  /** `json[i]`: the element of an array, or `Null` out of range or on a non-array. */
  function Index(v: Json, i: nat): (r: Json)
    ensures r != Null ==> v.Arr? && i < |v.items| && r == v.items[i]
    ensures v.Arr? && i < |v.items| ==> r == v.items[i]
  {
    if v.Arr? && i < |v.items| then v.items[i] else Null
  }

  /** `Value::get(key)`: a field of an object; `None` on a missing key or a non-object. */
  function Get(v: Json, key: string): (r: Option<Json>)
    ensures r.Some? <==> v.Obj? && key in v.fields
    ensures r.Some? ==> r.value == v.fields[key]
  {
    if v.Obj? && key in v.fields then Some(v.fields[key]) else None
  }

  /** `Value::as_str`. */
  function AsStr(v: Json): (r: Option<string>)
    ensures r.Some? <==> v.Str?
    ensures r.Some? ==> r.value == v.s
  {
    if v.Str? then Some(v.s) else None
  }

  /** `Value::as_i64`: an integral number that fits in an `i64`. */
  function AsI64(v: Json): (r: Option<int>)
    ensures r.Some? <==> v.Num? && v.n.Int? && InI64(v.n.i)
    ensures r.Some? ==> r.value == v.n.i
  {
    if v.Num? && v.n.Int? && InI64(v.n.i) then Some(v.n.i) else None
  }

  /** `Value::as_f64`: any number. The number is kept as it is; converting it to a
      binary float is not modelled. */
  function AsF64(v: Json): (r: Option<Number>)
    ensures r.Some? <==> v.Num?
    ensures r.Some? ==> r.value == v.n
  {
    if v.Num? then Some(v.n) else None
  }
}
