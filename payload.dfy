/** Python values as they reach the memory subsystem: message content, tool payloads
    and parsed JSON; and the library functions the subsystem calls on them. */
module Payload {
  import opened Text

  datatype Option<+T> = None | Some(value: T)

  /** A Python value: None, bool, int, str, list or dict with string keys. */
  datatype Value =
    | VNone
    | VBool(b: bool)
    | VInt(i: int)
    | VStr(s: string)
    | VList(items: seq<Value>)
    | VDict(fields: map<string, Value>)

  /** Python's bool(v): None, False, 0, "", [] and {} are falsy. */
  predicate Truthy(v: Value) {
    match v
    case VNone => false
    case VBool(b) => b
    case VInt(i) => i != 0
    case VStr(s) => s != ""
    case VList(items) => items != []
    case VDict(fields) => fields != map[]
  }

  /** dict.get(key, default). */
  function Get(fields: map<string, Value>, key: string, default: Value): Value {
    if key in fields then fields[key] else default
  }

  /** Library functions whose code is not part of this model, as uninterpreted functions.
      `repr` is str() of a list or a dict, `dumps` is json.dumps, `loads` is json.loads
      (None when it raises), `md5` is hashlib.md5 of the UTF-8 bytes, as a hex digest. */
  datatype Oracles = Oracles(
    repr: Value -> string,
    dumps: Value -> string,
    loads: string -> Option<Value>,
    md5: string -> string)

  /** Python's str(v). */
  function Str(o: Oracles, v: Value): string {
    match v
    case VStr(s) => s
    case VNone => "None"
    case VBool(b) => if b then "True" else "False"
    case VInt(i) => IntToString(i)
    case _ => o.repr(v)
  }
}
