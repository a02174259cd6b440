/** Decoded JSON values as the client receives them from `json.loads`, and the
    small Option/Result wrappers the other modules use for absent values and errors. */
module Json {

  datatype Option<+T> = None | Some(value: T)

  datatype Result<+T, +E> = Ok(value: T) | Err(error: E)

  /** A decoded JSON value. Python's `None` is `JNull`; numbers are integers. */
  datatype Value =
    | JNull
    | JBool(b: bool)
    | JNum(n: int)
    | JStr(s: string)
    | JArr(items: seq<Value>)
    | JObj(fields: map<string, Value>)

  /** `data.get(key, default)` on a dict. */
  function GetOr(fields: map<string, Value>, key: string, default: Value): Value
  {
    if key in fields then fields[key] else default
  }

  /** Python truthiness of an optional string argument (`if s:`): present and non-empty. */
  predicate Truthy(s: Option<string>)
  {
    s.Some? && s.value != ""
  }

  /** `s or ""` for an optional string. */
  function OrEmpty(s: Option<string>): string
  {
    if s.Some? then s.value else ""
  }

  /** A Python `Optional[str]` as the JSON value it would serialise to. */
  function OptionalString(s: Option<string>): Value
  {
    match s
    case Some(x) => JStr(x)
    case None => JNull
  }
}
