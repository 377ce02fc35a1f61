/**
 * A decoded JSON document as Python sees it after `response.json()`:
 * `None`, `bool`, `int`, `str`, `list` and `dict` with string keys.
 */
module Json {

  datatype Json =
    | Null
    | Bool(b: bool)
    | Int(i: int)
    | Str(s: string)
    | Array(items: seq<Json>)
    | Object(fields: map<string, Json>)

  /** Python's truth value of the decoded value (`if v:`). */
  predicate Truthy(v: Json) {
    match v
    case Null => false
    case Bool(b) => b
    case Int(i) => i != 0
    case Str(s) => s != ""
    case Array(items) => items != []
    case Object(fields) => fields != map[]
  }

  /** `type(v).__name__`, as it appears in Python's error messages. */
  function TypeName(v: Json): (name: string)
    ensures name != ""
  {
    match v
    case Null => "NoneType"
    case Bool(_) => "bool"
    case Int(_) => "int"
    case Str(_) => "str"
    case Array(_) => "list"
    case Object(_) => "dict"
  }
}
