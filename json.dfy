/**
 * The JSON values the engines exchange with the remote provider, with
 * Python's truthiness, `dict.get`, `a or b` and `str()`.
 */
module Json {
  import opened Text

  /** A scalar JSON value; `Null` is JSON `null`, Python `None`. */
  datatype Value = Null | Bool(b: bool) | Num(n: int) | Str(s: string)

  /** A JSON object with scalar members. */
  type Object = map<string, Value>

  /** A decoded HTTP body: what `response.json()` gives, or the decoding error. */
  datatype Body =
    | NotJson(decodeError: string)
    | Obj(fields: Object)
    | List(records: seq<Object>)
    | Scalar(v: Value)

  /** Python truthiness of a value. */
  predicate Truthy(v: Value)
  {
    match v
    case Null => false
    case Bool(b) => b
    case Num(n) => n != 0
    case Str(s) => s != ""
  }

  /** Python's `a or b`. */
  function Or(a: Value, b: Value): Value
  {
    if Truthy(a) then a else b
  }

  /** `o.get(k)`. */
  function Get(o: Object, k: string): Value
  {
    if k in o then o[k] else Null
  }

  /** `o.get(k, d)`. */
  function GetOr(o: Object, k: string, d: Value): Value
  {
    if k in o then o[k] else d
  }

  /** Python's `str(v)`. */
  function Show(v: Value): string
  {
    match v
    case Null => "None"
    case Bool(b) => if b then "True" else "False"
    case Num(n) => IntToString(n)
    case Str(s) => s
  }

  /** Python's type name of a decoded body, as in `'list' object has no attribute 'get'`. */
  function TypeName(b: Body): string
  {
    match b
    case NotJson(_) => "str"
    case Obj(_) => "dict"
    case List(_) => "list"
    case Scalar(v) =>
      match v
      case Null => "NoneType"
      case Bool(_) => "bool"
      case Num(_) => "int"
      case Str(_) => "str"
  }
}
