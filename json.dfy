/** The slice of serde_json's `Value` that the classifier looks at.
    Floating-point numbers and negative integers are rejected by
    `Value::as_u64`, so they share one tag. An integer too large for a `u64`
    may carry that tag or `UInt`; `as_u64` rejects it either way. */
module Json {
  import opened Wrappers

  const U64_LIMIT: int := 0x1_0000_0000_0000_0000

  /** Rust's `u64`. */
  newtype u64 = x: int | 0 <= x < U64_LIMIT

  datatype Value =
    | Null
    | Bool(b: bool)
    | UInt(n: nat)
    | OtherNumber
    | Str(s: string)
    | Arr(items: seq<Value>)
    | Obj(fields: map<string, Value>)

  /** `Value::get(key)` with a string key: a member lookup on an object,
      `None` on every other shape. */
  function Get(v: Value, key: string): (r: Option<Value>)
    ensures r.Some? <==> v.Obj? && key in v.fields
    ensures r.Some? ==> r.value == v.fields[key]
  {
    match v
    case Obj(fields) => if key in fields then Some(fields[key]) else None
    case _ => None
  }

  /** `Value::as_u64`: `Some` only for a non-negative integer that fits a `u64`. */
  function AsU64(v: Value): (r: Option<u64>)
    ensures r.Some? <==> v.UInt? && v.n < U64_LIMIT
    ensures r.Some? ==> r.value as int == v.n
  {
    if v.UInt? && v.n < U64_LIMIT then Some(v.n as u64) else None
  }

  /** True of an object with no members (`Map::is_empty`). */
  predicate IsEmptyObject(v: Value)
  {
    v.Obj? && |v.fields| == 0
  }
}
