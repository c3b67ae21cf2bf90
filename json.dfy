/** The loosely typed data the handler receives from its caller: a list whose
    elements should be dicts mapping "role" and "content" to strings. */
module Json {

  /** A value stored in a message dict: a string, `None`, or any other Python
      value (a number, a list, ...) told apart by an opaque token. */
  datatype Value = Str(s: string) | Null | Other(token: int)

  /** An element of the caller's message list. A non-dict element may still
      offer a `get(key, default)` method, as other mapping types do. */
  datatype Element = Dict(fields: map<string, Value>) | NonDict(hasGet: bool)

  /** Python `d.get(key, default)`. */
  function Get(fields: map<string, Value>, key: string, default: Value): Value {
    if key in fields then fields[key] else default
  }
}
