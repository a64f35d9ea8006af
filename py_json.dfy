/** A request body as `request.get_json()` hands it to the handlers, and the three Python
    operations the handlers apply to it: truthiness (`not data`), membership
    (`"question" in data`) and subscripting (`data["question"]`). */
module PyJson {
  import opened Wrappers

  /** A decoded JSON value. JSON numbers are kept as integers. A body that decodes to
      JSON `null` is Python's `None`, the same as `get_json()` giving no body: the
      handlers treat `Some(JNull)` and `None` alike (`NullBodyIsNoBody`). */
  datatype Json =
    | JNull
    | JBool(b: bool)
    | JNum(n: int)
    | JStr(s: string)
    | JArr(items: seq<Json>)
    | JObj(fields: map<string, Json>)

  /** Python truthiness: `None`, `False`, `0`, `""`, `[]` and `{}` are false. */
  predicate Truthy(v: Json)
    ensures !Truthy(v) <==> v in {JNull, JBool(false), JNum(0), JStr(""), JArr([]), JObj(map[])}
  {
    match v
    case JNull => false
    case JBool(b) => b
    case JNum(n) => n != 0
    case JStr(s) => s != []
    case JArr(items) => items != []
    case JObj(fields) => |fields| != 0
  }

  /** `k` occurs as a contiguous piece of `s` (Python's `k in s` on two strings). */
  predicate IsSubstring(k: string, s: string) {
    k <= s || (s != [] && IsSubstring(k, s[1..]))
  }

  /** The name Python gives the type of a value that came from JSON. */
  function TypeName(v: Json): string {
    match v
    case JNull => "NoneType"
    case JBool(_) => "bool"
    case JNum(_) => "int"
    case JStr(_) => "str"
    case JArr(_) => "list"
    case JObj(_) => "dict"
  }

  /** `key in v`: a key of a dict, an element of a list, a substring of a str; on `None`,
      `bool` and `int` Python raises `TypeError`. */
  function Contains(v: Json, key: string): (r: Attempt<bool>)
    ensures r.Raises? <==> v.JNull? || v.JBool? || v.JNum?
    ensures v.JObj? ==> r == Returns(key in v.fields)
  {
    match v
    case JObj(fields) => Returns(key in fields)
    case JArr(items) => Returns(JStr(key) in items)
    case JStr(s) => Returns(IsSubstring(key, s))
    case _ => Raises("argument of type '" + TypeName(v) + "' is not iterable")
  }

  /** `v[key]` with a string key: the value under that key of a dict (`KeyError` when it
      is absent); every other type raises `TypeError`. The messages are CPython 3.11's. */
  function Subscript(v: Json, key: string): (r: Attempt<Json>)
    ensures r.Returns? <==> v.JObj? && key in v.fields
    ensures r.Returns? ==> r.value == v.fields[key]
  {
    match v
    case JObj(fields) => if key in fields then Returns(fields[key]) else Raises("'" + key + "'")
    case JArr(_) => Raises("list indices must be integers or slices, not str")
    case JStr(_) => Raises("string indices must be integers, not 'str'")
    case _ => Raises("'" + TypeName(v) + "' object is not subscriptable")
  }

  /** `not body or key not in body` holds without an exception: there is no body, the body
      is falsy, or it is a dict, list or str that does not hold `key`. */
  predicate LacksKey(body: Option<Json>, key: string) {
    || body.None?
    || !Truthy(body.value)
    || (body.value.JObj? && key !in body.value.fields)
    || (body.value.JArr? && JStr(key) !in body.value.items)
    || (body.value.JStr? && !IsSubstring(key, body.value.s))
  }
}
