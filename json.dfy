/**
 * The decoded JSON payloads of the chain APIs and the Python operations the
 * readers apply to them: truthiness, `dict.get`, `dict[key]`, `int(...)` and
 * iteration. An operation that raises in Python yields `None` here.
 */
module Json {
  import opened Wrappers
  import opened Strings

  /** A decoded JSON value; `JNull` is Python's `None`. Numbers are integers. */
  datatype Json =
    | JNull
    | JBool(b: bool)
    | JNum(n: int)
    | JStr(s: string)
    | JArr(items: seq<Json>)
    | JObj(fields: map<string, Json>)

  /** Python's `bool(value)`. */
  predicate Truthy(j: Json)
  {
    match j
    case JNull => false
    case JBool(b) => b
    case JNum(n) => n != 0
    case JStr(s) => s != ""
    case JArr(items) => items != []
    case JObj(fields) => fields != map[]
  }

  /**
   * `value.get(key)`: `None` (an AttributeError) unless `value` is an object,
   * `JNull` for a missing key.
   */
  function Get(j: Json, key: string): (r: Option<Json>)
    ensures r.Some? <==> j.JObj?
    ensures r.Some? && key in j.fields ==> r.value == j.fields[key]
    ensures r.Some? && key !in j.fields ==> r.value == JNull
  {
    match j
    case JObj(fields) => Some(if key in fields then fields[key] else JNull)
    case _ => None
  }

  /** `value.get(key, default)`. */
  function GetOr(j: Json, key: string, default: Json): (r: Option<Json>)
    ensures r.Some? <==> j.JObj?
    ensures r.Some? ==> r.value == if key in j.fields then j.fields[key] else default
  {
    match j
    case JObj(fields) => Some(if key in fields then fields[key] else default)
    case _ => None
  }

  /** `value[key]`: `None` for a non-object (TypeError) or a missing key (KeyError). */
  function Index(j: Json, key: string): (r: Option<Json>)
    ensures r.Some? <==> j.JObj? && key in j.fields
    ensures r.Some? ==> r.value == j.fields[key]
  {
    if j.JObj? && key in j.fields then Some(j.fields[key]) else None
  }

  /** `int(value)` for an integer, a boolean or a decimal numeral. */
  function ToInt(j: Json): (r: Option<int>)
    ensures j.JNum? ==> r == Some(j.n)
    ensures j.JStr? ==> r == ParseInt(j.s)
    ensures j.JNull? || j.JArr? || j.JObj? ==> r.None?
  {
    match j
    case JNum(n) => Some(n)
    case JBool(b) => Some(if b then 1 else 0)
    case JStr(s) => ParseInt(s)
    case _ => None
  }

  /** A text value, as the readers use for addresses. */
  function Str(j: Json): (r: Option<string>)
    ensures r.Some? <==> j.JStr?
  {
    if j.JStr? then Some(j.s) else None
  }

  /**
   * The elements a `for` loop visits, when the loop body treats them as
   * objects: a list gives its items; an empty text or object gives nothing;
   * a non-empty text or object yields elements that are not objects, and
   * `None`, `int` and `bool` are not iterable, so all of those raise.
   */
  function Items(j: Json): (r: Option<seq<Json>>)
    ensures j.JArr? ==> r == Some(j.items)
    ensures r.Some? && !j.JArr? ==> r.value == []
    ensures r.Some? && r.value != [] ==> Truthy(j)
  {
    match j
    case JArr(items) => Some(items)
    case JStr(s) => if s == "" then Some([]) else None
    case JObj(fields) => if fields == map[] then Some([]) else None
    case _ => None
  }
}
