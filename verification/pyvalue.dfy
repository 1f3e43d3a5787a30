/** The Python values that flow through the front end: catalog payloads,
    scores, engine results and the messages of the exceptions Python raises
    when such a value is not what the code expects. */
module PyValue {
  import opened Strings

  /** A JSON-like Python value; `Float` carries a real where Python has an IEEE double. */
  datatype Value =
    | Null
    | Bool(b: bool)
    | Int(i: int)
    | Float(f: real)
    | Str(s: string)
    | List(items: seq<Value>)
    | Dict(entries: map<string, Value>)

  /** A catalog payload or a search point: a Python dict keyed by strings. */
  type Payload = map<string, Value>

  /** `d.get(key, default)` on a dict. */
  function Get(d: Payload, key: string, default: Value): Value {
    if key in d then d[key] else default
  }

  /** The name Python's `type(v).__name__` gives. */
  function TypeName(v: Value): string {
    match v
    case Null => "NoneType"
    case Bool(_) => "bool"
    case Int(_) => "int"
    case Float(_) => "float"
    case Str(_) => "str"
    case List(_) => "list"
    case Dict(_) => "dict"
  }

  /** `str()` of the AttributeError raised by calling `.get` on a non-dict. */
  function NoGetAttribute(v: Value): string {
    "'" + TypeName(v) + "' object has no attribute 'get'"
  }

  /** `str()` of the TypeError raised by `for x in None`. */
  const NoneNotIterable: string := "'NoneType' object is not iterable"

  /** `str()` of the TypeError raised by `len(None)`. */
  const NoneHasNoLen: string := "object of type 'NoneType' has no len()"

  /** `str()` of the TypeError raised by `a, b = None`. */
  const NoneNotUnpackable: string := "cannot unpack non-iterable NoneType object"

  /** Python truthiness. */
  predicate Truthy(v: Value) {
    match v
    case Null => false
    case Bool(b) => b
    case Int(i) => i != 0
    case Float(f) => f != 0.0
    case Str(s) => s != ""
    case List(items) => items != []
    case Dict(entries) => entries != map[]
  }

  /** What an f-string inserts for `v`: Python's `str()` for None, booleans,
      integers and strings; floats, lists and dicts are shown by type name only. */
  function Display(v: Value): string {
    match v
    case Null => "None"
    case Bool(b) => if b then "True" else "False"
    case Int(i) => IntToString(i)
    case Str(s) => s
    case _ => "<" + TypeName(v) + ">"
  }
}
