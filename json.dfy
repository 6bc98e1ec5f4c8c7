/**
  Decoded JSON values as Python's `json.loads` hands them to the bus handlers,
  together with the handful of Python dictionary operations the handlers use:
  truthiness, `dict.get` with a default, and hashability of dictionary keys.
  Python exceptions that the handlers raise are values of `Result`.
 */
module Json {

  /** A decoded JSON document. Numbers are integers; objects are Python dicts. */
  datatype Value =
    | Null
    | Bool(b: bool)
    | Num(n: int)
    | Str(s: string)
    | Arr(items: seq<Value>)
    | Obj(fields: map<string, Value>)

  datatype Option<T> = None | Some(value: T)

  /** The Python exceptions the modelled handlers can raise. */
  datatype PyError = AttributeError | TypeError | KeyError | IndexError | ValueError

  /** A computation that either returns a value or raises. */
  datatype Result<T> = Ok(value: T) | Err(error: PyError)

  const EmptyObj: Value := Obj(map[])

  /** Python truthiness: `None`, `False`, `0`, `""`, `[]` and `{}` are false. */
  predicate Truthy(v: Value)
  {
    match v
    case Null => false
    case Bool(b) => b
    case Num(n) => n != 0
    case Str(s) => s != ""
    case Arr(items) => items != []
    case Obj(fields) => fields != map[]
  }

  /** A decoded list or dict cannot be a dictionary key (`TypeError: unhashable type`). */
  predicate Hashable(v: Value)
  {
    !v.Arr? && !v.Obj?
  }

  /** `d.get(key, default)` on a dict. */
  function GetOr(fields: map<string, Value>, key: string, default: Value): Value
  {
    if key in fields then fields[key] else default
  }
}
