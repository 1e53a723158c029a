/** JavaScript values as they travel over the socket: what a payload, an
    argument object or a callback's `(err, result)` pair can hold. Non-finite
    numbers (NaN, Infinity) are not represented. */
module JsonValue {

  datatype Json =
    | Undefined
    | Null
    | Bool(b: bool)
    | Num(n: real)
    | Str(s: string)
    | Arr(items: seq<Json>)
    | Obj(fields: map<string, Json>)

  /** JavaScript truthiness: `if (v)`. Objects and arrays are always truthy. */
  predicate Truthy(v: Json)
  {
    match v
    case Undefined => false
    case Null => false
    case Bool(b) => b
    case Num(n) => n != 0.0
    case Str(s) => s != ""
    case Arr(_) => true
    case Obj(_) => true
  }

  /** Property read `o.key` on an object; a missing key reads as undefined. */
  function Field(o: map<string, Json>, key: string): (v: Json)
    ensures key !in o ==> v == Undefined
    ensures key in o ==> v == o[key]
  {
    if key in o then o[key] else Undefined
  }
}
