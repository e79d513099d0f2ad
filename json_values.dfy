/**
 * Parsed JSON values as Python's `json` module hands them to the code:
 * `None`, `bool`, numbers, `str`, `list` and `dict`, with the few dict and
 * truthiness operations the scrapers use on them.
 */
module JsonValues {
  import opened Wrappers

  datatype Json =
    | JNull
    | JBool(b: bool)
    | JNum(n: real)
    | JStr(s: string)
    | JArr(items: seq<Json>)
    | JObj(fields: map<string, Json>)

  const EmptyObject: Json := JObj(map[])
  const EmptyArray: Json := JArr([])

  /** `obj.get(key, default)` on a dict. */
  function Get(obj: Json, key: string, default: Json): Json
    requires obj.JObj?
  {
    if key in obj.fields then obj.fields[key] else default
  }

  /** `obj.get(key)`: `None` when the key is missing. */
  function Lookup(obj: Json, key: string): (r: Option<Json>)
    requires obj.JObj?
    ensures r.Some? <==> key in obj.fields
  {
    if key in obj.fields then Some(obj.fields[key]) else None
  }

  /** Python's `bool(v)`: empty containers, `""`, `0`, `False` and `None` are false. */
  predicate Truthy(v: Json) {
    match v
    case JNull => false
    case JBool(b) => b
    case JNum(n) => n != 0.0
    case JStr(s) => s != ""
    case JArr(items) => items != []
    case JObj(fields) => |fields| != 0
  }

  /**
   * The elements a `for x in v:` loop visits when its body calls `x.get(...)`,
   * or `None` when that loop raises. A list yields its items (each is checked
   * by the body); iterating a non-empty `str` or `dict` yields strings, which
   * have no `.get`, so the first step raises; an empty one runs no step; any
   * other value is not iterable.
   */
  function DictElements(v: Json): (r: Option<seq<Json>>)
    ensures v.JArr? ==> r == Some(v.items)
    ensures r.Some? && !v.JArr? ==> r == Some([])
    ensures (v.JNull? || v.JBool? || v.JNum?) ==> r.None?
  {
    match v
    case JArr(items) => Some(items)
    case JStr(s) => if s == "" then Some([]) else None
    case JObj(fields) => if |fields| == 0 then Some([]) else None
    case _ => None
  }
}
