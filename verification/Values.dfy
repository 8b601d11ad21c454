/** Values the validators read from decoded JSON. */
module Values {
  /** A decoded JSON value as the validators see it. `Num` is a finite number. A boolean is `Other` where a
      script asks for a number and `Num` where it only compares, as Python's booleans equal 0 and 1. */
  datatype Value =
    | Num(r: real)
    | Str(s: string)
    | List(items: seq<Value>)
    | Dict(fields: map<string, Value>)
    | Other

  /** `payload.get(key)`, with `Other` for a missing key. */
  function Get(fields: map<string, Value>, key: string): Value {
    if key in fields then fields[key] else Other
  }
}
