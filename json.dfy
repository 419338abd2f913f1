/** Parsed JSON values as Python holds them after `json.loads`, with Python's truthiness and `in`. */
module JsonValue {
  import opened Wrappers
  import Text

  datatype Json =
    | JNull
    | JBool(b: bool)
    | JNum(r: real)
    | JStr(s: string)
    | JArr(items: seq<Json>)
    | JObj(fields: map<string, Json>)

  /** Python's `bool(v)`. */
  predicate Truthy(j: Json) {
    match j
    case JNull => false
    case JBool(b) => b
    case JNum(r) => r != 0.0
    case JStr(s) => s != ""
    case JArr(a) => a != []
    case JObj(m) => m != map[]
  }

  /** `d.get(key, default)` on a dict. */
  function Get(m: map<string, Json>, key: string, default: Json): Json {
    if key in m then m[key] else default
  }

  /** `key in v` for a string key; `None` when Python raises `TypeError` (numbers, booleans, None). */
  function Membership(key: string, j: Json): Option<bool> {
    match j
    case JObj(m) => Some(key in m)
    case JArr(a) => Some(JStr(key) in a)
    case JStr(s) => Some(Text.Contains(s, key))
    case _ => None
  }

  /**
   * The elements a `for x in v:` loop visits, for a loop whose body looks keys up in each `x`.
   * `None` when the loop raises: `v` is not iterable, or it is a non-empty dict or string,
   * whose elements are strings on which the body fails.
   */
  function Items(j: Json): Option<seq<Json>> {
    match j
    case JArr(a) => Some(a)
    case JObj(m) => if m == map[] then Some([]) else None
    case JStr(s) => if s == "" then Some([]) else None
    case _ => None
  }

  /** A value Python can add up with `sum`: a number, or a boolean (True is 1). */
  function Number(j: Json): Option<real> {
    match j
    case JNum(r) => Some(r)
    case JBool(b) => Some(if b then 1.0 else 0.0)
    case _ => None
  }

  /**
   * `str(v)` as an f-string renders it. Strings, booleans and None are rendered as Python does;
   * numbers, lists and dicts are rendered as the fixed text "<value>".
   */
  function Str(j: Json): string {
    match j
    case JStr(s) => s
    case JNull => "None"
    case JBool(b) => if b then "True" else "False"
    case _ => "<value>"
  }
}
