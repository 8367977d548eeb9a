/**
 * The Python values `json.loads` produces, and the two operations the core
 * applies to them: `dict.get(key, default)` and `float(value)`.
 */
module Json {
  import opened Wrappers

  /** A decoded JSON document as Python holds it (dict, list, str, int, float, bool, None). */
  datatype Value =
    | Null
    | Bool(b: bool)
    | Int(i: int)
    | Float(f: real)
    | Str(s: string)
    | Array(items: seq<Value>)
    | Object(fields: map<string, Value>)

  /** `type(v).__name__` */
  function TypeName(v: Value): string {
    match v
    case Null => "NoneType"
    case Bool(_) => "bool"
    case Int(_) => "int"
    case Float(_) => "float"
    case Str(_) => "str"
    case Array(_) => "list"
    case Object(_) => "dict"
  }

  /** `str(e)` of the AttributeError raised by calling `.get` on a value that is not a dict. */
  function NoGetMessage(v: Value): string {
    "'" + TypeName(v) + "' object has no attribute 'get'"
  }

  /** `v.get(key, default)`: the field when present, else the default; raises on a non-dict. */
  function Get(v: Value, key: string, default: Value): (r: Result<Value, string>)
    ensures r.Success? <==> v.Object?
    ensures v.Object? && key in v.fields ==> r.value == v.fields[key]
    ensures v.Object? && key !in v.fields ==> r.value == default
    ensures !v.Object? ==> r.error == NoGetMessage(v)
  {
    match v
    case Object(fields) => Success(if key in fields then fields[key] else default)
    case _ => Failure(NoGetMessage(v))
  }

  /**
   * `float(v)`: numbers and booleans convert, a string goes through
   * `parseFloat` (Python's own parser of float literals, a parameter of the
   * model), and anything else raises TypeError.
   */
  function ToFloat(v: Value, parseFloat: string -> Result<real, string>): (r: Result<real, string>)
    ensures v.Float? ==> r == Success(v.f)
    ensures v.Int? ==> r == Success(v.i as real)
    ensures v.Bool? ==> r == Success(if v.b then 1.0 else 0.0)
    ensures v.Str? ==> r == parseFloat(v.s)
    ensures (v.Null? || v.Array? || v.Object?) ==> r.Failure?
  {
    match v
    case Float(f) => Success(f)
    case Int(i) => Success(i as real)
    case Bool(b) => Success(if b then 1.0 else 0.0)
    case Str(s) => parseFloat(s)
    case _ => Failure("float() argument must be a string or a real number, not '" + TypeName(v) + "'")
  }
}
