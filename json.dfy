/** Decoded JSON values, as the HTTP client hands them to the program, and the
    one dictionary operation the flattener uses on them. */
module Json {

  /** A JSON value. Objects keep the distinction between a key that is absent
      and a key that is present with the value null. */
  datatype Value =
    | JNull
    | JBool(b: bool)
    | JNum(n: real)
    | JStr(s: string)
    | JArr(elems: seq<Value>)
    | JObj(fields: map<string, Value>)

  /** Python's `dict.get(key, default)`: the stored value when the key is
      present (even when that value is null), the default only when it is absent. */
  function Get(m: map<string, Value>, key: string, default: Value): Value
  {
    if key in m then m[key] else default
  }

  /** Success or failure of a computation. */
  datatype Result<+T, +E> = Ok(value: T) | Err(error: E)
}
