/** The JSON value tree that the wire layer parses into. */
module Json {
  type Object = map<string, Value>

  /** Python integers and floats are kept apart, because the broker tests for integers. */
  datatype Value =
    | Null
    | Bool(flag: bool)
    | Int(number: int)
    | Float(value: real)
    | Str(text: string)
    | Arr(items: seq<Value>)
    | Obj(fields: Object)

  /** `dict.get`. */
  function Get(d: Object, key: string): Value {
    if key in d then d[key] else Null
  }

  predicate NonEmptyText(v: Value) {
    v.Str? && v.text != ""
  }

  /** Python truthiness. */
  predicate Truthy(v: Value) {
    match v
    case Null => false
    case Bool(b) => b
    case Int(n) => n != 0
    case Float(x) => x != 0.0
    case Str(t) => t != ""
    case Arr(items) => items != []
    case Obj(fields) => fields != map[]
  }
}
