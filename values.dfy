/**
 * Python values as the coordination core passes them around: queue items,
 * event payloads, result dictionaries, configuration entries and settings
 * dictionaries are all `Value`s, so `dict.get`, truthiness and the
 * `isinstance` checks of the source can be stated exactly.
 */
module Values {

  datatype Option<+T> = None | Some(value: T)

  newtype byte = x: int | 0 <= x < 256

  /** A Python object. Floats are opaque: only `Float(0)` (0.0) is known to be falsy. */
  datatype Value =
    | Nil
    | Bool(b: bool)
    | Int(i: int)
    | Float(bits: int)
    | Str(s: string)
    | Bytes(data: seq<byte>)
    | List(items: seq<Value>)
    | Dict(entries: map<string, Value>)

  /** Python truthiness: `if v:` */
  predicate Truthy(v: Value)
  {
    match v
    case Nil => false
    case Bool(b) => b
    case Int(i) => i != 0
    case Float(f) => f != 0
    case Str(s) => s != ""
    case Bytes(d) => d != []
    case List(xs) => xs != []
    case Dict(m) => m != map[]
  }

  /** `d.get(key, default)` */
  function Get(d: map<string, Value>, key: string, default: Value): Value
  {
    if key in d then d[key] else default
  }

  /** Concatenation regroups freely; stated once so that loop proofs can cite it instead of rediscovering it. */
  lemma AppendAssoc<T>(a: seq<T>, b: seq<T>, c: seq<T>)
    ensures a + (b + c) == (a + b) + c
  {
  }
}
