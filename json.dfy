/** Parsed JSON values, as the billing service returns them. */
module Json {
  import opened Wrappers

  /** A parsed JSON document. Numbers are kept as integers: no field of the
      payload that the billing code reads is numeric. */
  datatype Value =
    | Null
    | Bool(b: bool)
    | Number(n: int)
    | Str(s: string)
    | Array(items: seq<Value>)
    | Object(fields: map<string, Value>)

  /** JavaScript truthiness of a parsed value: `null`, `false`, `0` and `""`
      are falsy, every array and object is truthy. */
  predicate Truthy(v: Value)
  {
    match v
    case Null => false
    case Bool(b) => b
    case Number(n) => n != 0
    case Str(s) => s != ""
    case Array(_) => true
    case Object(_) => true
  }

  /** Property access `v.key` on a present value: the field of an object,
      `undefined` (None) for a missing field or for any value that is not an object. */
  function Property(v: Value, key: string): (p: Option<Value>)
    ensures p.Some? <==> v.Object? && key in v.fields
    ensures p.Some? ==> p.value == v.fields[key]
  {
    match v
    case Object(fields) => if key in fields then Some(fields[key]) else None
    case _ => None
  }
}
