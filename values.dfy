/** Python values as the tools and the agent state pass them around. */
module Values {

  datatype Option<+T> = None | Some(value: T)

  /** A Python value as the tools see it: `None`, a `str`, a `dict` with string
      keys, or any other value (number, bool, list), kept with the text `str()`
      gives for it and with its truth value. */
  datatype Value =
    | NoneValue
    | Str(s: string)
    | Dict(fields: map<string, Value>)
    | Opaque(text: string, truthy: bool)

  /** Python truthiness: `None`, `""` and `{}` are false. */
  predicate Truthy(v: Value) {
    match v
    case NoneValue => false
    case Str(s) => s != ""
    case Dict(fields) => fields != map[]
    case Opaque(_, truthy) => truthy
  }

  /** `d.get(k)`: the value under `k`, or `None` when the key is absent. */
  function Get<K>(d: map<K, Value>, k: K): Value {
    if k in d then d[k] else NoneValue
  }
}
