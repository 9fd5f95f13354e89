/** The values `json.loads` produces, and the few Python operations the code applies to them. */
module Json {

  /** A decoded JSON value; objects are Python dicts, keyed by string. */
  datatype Json =
    | JNull
    | JBool(b: bool)
    | JInt(i: int)
    | JStr(s: string)
    | JList(items: seq<Json>)
    | JObj(fields: map<string, Json>)

  /** Python truthiness: `None`, `False`, `0`, `""`, `[]` and `{}` are false. */
  predicate Truthy(j: Json)
  {
    match j
    case JNull => false
    case JBool(b) => b
    case JInt(i) => i != 0
    case JStr(s) => s != ""
    case JList(items) => items != []
    case JObj(fields) => fields != map[]
  }

  /** Python's `type(v).__name__` for a decoded JSON value. */
  function TypeName(j: Json): string
  {
    match j
    case JNull => "NoneType"
    case JBool(_) => "bool"
    case JInt(_) => "int"
    case JStr(_) => "str"
    case JList(_) => "list"
    case JObj(_) => "dict"
  }

  /** `d.get(key, default)`. */
  function GetOr(d: map<string, Json>, key: string, default: Json): Json
  {
    if key in d then d[key] else default
  }

  /** `d.get(key)`: `None` when the key is absent. */
  function Get(d: map<string, Json>, key: string): Json
  {
    GetOr(d, key, JNull)
  }

  /** The text of the AttributeError raised by calling `.get` on a value that is not a dict. */
  function NoGetText(j: Json): string
  {
    "'" + TypeName(j) + "' object has no attribute 'get'"
  }

  /** The text of the KeyError raised by `d[key]` on a missing key. */
  function KeyErrorText(key: string): string
  {
    "'" + key + "'"
  }
}
