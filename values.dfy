/** Python values as the premium menu sees them in a user's settings record. */
module Values {

  datatype Option<+T> = None | Some(value: T)
  {
    /** `x or default` for an optional string-like value */
    function GetOr(default: T): T
    {
      match this
      case Some(v) => v
      case None => default
    }
  }

  /** A setting value. The menu itself writes strings and booleans; a primary
      store may hand back other scalars, including Python's None. */
  datatype Value = VStr(s: string) | VBool(b: bool) | VInt(i: int) | VNone

  /** Python's `bool(v)` */
  predicate Truthy(v: Value)
  {
    match v
    case VStr(s) => s != []
    case VBool(b) => b
    case VInt(i) => i != 0
    case VNone => false
  }

  /** `d.get(key, default)` */
  function Get(d: map<string, Value>, key: string, default: Value): Value
  {
    if key in d then d[key] else default
  }
}
