/** JSON values. Text is parsed elsewhere: a body is a value or it is unreadable. */
module Json {
  import opened Wrappers

  datatype Value =
    | Null
    | Bool(b: bool)
    | Int(n: int)
    | Float(literal: string)     // a number that is not an integer
    | Str(s: string)
    | Arr(items: seq<Value>)
    | Obj(fields: map<string, Value>)

  /** A property of an object; None when the value is no object or lacks it. */
  function Get(value: Value, name: string): Option<Value> {
    if value.Obj? && name in value.fields then Some(value.fields[name]) else None
  }

  /** A property that is absent reads as null. */
  function ValueAt(value: Value, name: string): Value {
    if Get(value, name).Some? then Get(value, name).value else Null
  }

  /** Python's truth value of a decoded JSON value. */
  predicate Truthy(value: Value) {
    match value
    case Null => false
    case Bool(b) => b
    case Int(n) => n != 0
    case Float(_) => true
    case Str(s) => s != ""
    case Arr(items) => items != []
    case Obj(fields) => fields != map[]
  }

  predicate IsInt32(n: int) {
    -0x8000_0000 <= n < 0x8000_0000
  }
}
