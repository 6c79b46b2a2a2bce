/** Decoded JSON values as the scripts see them after `json.loads`, with the
    parts of Python's dict protocol the scripts rely on. */
module Json {
  import opened Options

  /** JSON numbers are modelled as integers only. */
  datatype Value =
    | Null
    | Bool(b: bool)
    | Num(n: int)
    | Str(s: string)
    | Arr(items: seq<Value>)
    | Obj(fields: map<string, Value>)

  /** Python truthiness: `None`, `False`, `0`, `""`, `[]` and `{}` are false. */
  predicate Truthy(v: Value) {
    match v
    case Null => false
    case Bool(b) => b
    case Num(n) => n != 0
    case Str(s) => s != ""
    case Arr(a) => a != []
    case Obj(m) => m != map[]
  }

  /** `d.get(key, default)` on a dict. */
  function Get(d: map<string, Value>, key: string, default: Value): Value {
    if key in d then d[key] else default
  }

  /** `v.get(key, default)` where `v` may not be a dict: None stands for the
      AttributeError Python raises on anything else. */
  function Lookup(v: Value, key: string, default: Value): Option<Value> {
    if v.Obj? then Some(Get(v.fields, key, default)) else None
  }

  /** `v.get(key)` on a value the caller already knows to be a dict; Null
      when the key is absent. */
  function Attr(v: Value, key: string): Value {
    if v.Obj? then Get(v.fields, key, Null) else Null
  }

  /** `v.get(key, {})` on a value the caller already knows to be a dict: the
      nested dict, empty when absent; Null when `v` is not a dict. */
  function Nested(v: Value, key: string): Value {
    if v.Obj? then Get(v.fields, key, Obj(map[])) else Null
  }

  /** `v[key]`: None stands for the KeyError or TypeError Python raises when
      `v` is not a dict holding `key`. */
  function Index(v: Value, key: string): Option<Value> {
    if v.Obj? && key in v.fields then Some(v.fields[key]) else None
  }

  /** The text of a value on which the scripts call a `str` method; None when
      the value is not a string and the call would raise. */
  function TextOf(v: Value): Option<string> {
    if v.Str? then Some(v.s) else None
  }

  /** Whether a value can be a dict key: lists and dicts are unhashable. */
  predicate Hashable(v: Value) {
    !v.Arr? && !v.Obj?
  }
}
