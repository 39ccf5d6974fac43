/**
  JavaScript values as they appear in configuration files and options,
  together with the two predicates the loader applies to them: truthiness
  and "is a plain object".
 */
module Values {

  datatype Option<+T> = None | Some(value: T) {
    function GetOr(default: T): T {
      match this
      case Some(v) => v
      case None => default
    }
  }

  datatype Result<+T, +E> = Ok(value: T) | Err(error: E)

  /** An absolute or relative file-system path. */
  type Path = string

  /** A JSON-like value; object keys that are absent stand for `undefined`. */
  datatype Value =
    | Null
    | Bool(b: bool)
    | Num(n: int)
    | Str(s: string)
    | Arr(items: seq<Value>)
    | Obj(fields: Fields)

  /** The own enumerable properties of a plain object. */
  type Fields = map<string, Value>

  /** JavaScript truthiness (NaN is not modelled). */
  predicate Truthy(v: Value) {
    match v
    case Null => false
    case Bool(b) => b
    case Num(n) => n != 0
    case Str(s) => s != ""
    case Arr(_) => true
    case Obj(_) => true
  }

  /** `is-plain-object`: only object literals qualify, arrays do not. */
  predicate IsPlainObject(v: Value) {
    v.Obj?
  }

  /** The value of property `key` of `v` when it is a plain object holding it. */
  function Property(v: Value, key: string): Option<Value> {
    if v.Obj? && key in v.fields then Some(v.fields[key]) else None
  }

  /** No element occurs twice. */
  predicate Distinct<T(==)>(s: seq<T>) {
    forall i, j :: 0 <= i < j < |s| ==> s[i] != s[j]
  }

  /** `v.key` used as a condition: present and truthy. */
  predicate HasTruthy(v: Value, key: string) {
    Property(v, key).Some? && Truthy(Property(v, key).value)
  }
}
