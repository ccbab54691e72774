/**
 * Decoded JSON values as the client handles them after `response.json()`,
 * together with the few Python operations the client applies to them:
 * truthiness, `==`, subscripting and the `in` operator.
 */
module Json {
  import opened Wrappers

  /** JSON numbers decode to Python int or float; both are kept as a `real` (1 == 1.0 in Python). */
  datatype Json =
    | JNull
    | JBool(b: bool)
    | JNum(n: real)
    | JStr(s: string)
    | JArr(items: seq<Json>)
    | JObj(fields: map<string, Json>)

  /** The exceptions that subscripting and attribute access on JSON values can raise. */
  datatype Fault = KeyError | IndexError | TypeError | AttributeError

  /** Python truthiness: None, False, 0, "", [] and {} are falsy. */
  predicate Truthy(v: Json)
  {
    match v
    case JNull => false
    case JBool(b) => b
    case JNum(n) => n != 0.0
    case JStr(s) => s != ""
    case JArr(xs) => xs != []
    case JObj(m) => m != map[]
  }

  /** Python `==` on decoded JSON: as structural equality, except that True == 1 and False == 0. */
  predicate PyEq(a: Json, b: Json)
    decreases a
  {
    match (a, b)
    case (JBool(x), JNum(n)) => n == (if x then 1.0 else 0.0)
    case (JNum(n), JBool(x)) => n == (if x then 1.0 else 0.0)
    case (JArr(xs), JArr(ys)) => |xs| == |ys| && forall i :: 0 <= i < |xs| ==> PyEq(xs[i], ys[i])
    case (JObj(m), JObj(n)) => m.Keys == n.Keys && forall k :: k in m ==> PyEq(m[k], n[k])
    case _ => a == b
  }

  /** Python `v == 1`, as in `order['legCount'] == 1`. */
  predicate IsOne(v: Json)
  {
    v == JNum(1.0) || v == JBool(true)
  }

  /** Python `d.get(key)` on a JSON object: None when the key is absent. */
  function Get(d: map<string, Json>, key: string): (r: Json)
    ensures key in d ==> r == d[key]
    ensures key !in d ==> r == JNull
  {
    if key in d then d[key] else JNull
  }

  /** Python `v[key]` with a string key. */
  function Subscript(v: Json, key: string): (r: Result<Json, Fault>)
    ensures r.Success? <==> v.JObj? && key in v.fields
    ensures r.Success? ==> r.value == v.fields[key]
    ensures r.Failure? ==> r.error == (if v.JObj? then KeyError else TypeError)
  {
    match v
    case JObj(m) => if key in m then Success(m[key]) else Failure(KeyError)
    case _ => Failure(TypeError)
  }

  /**
   * Python `v[0]`: the first item of a list, the first character of a string;
   * a dict decoded from JSON has only string keys, so `0` is never one of them.
   */
  function First(v: Json): (r: Result<Json, Fault>)
    ensures v.JArr? && v.items != [] ==> r == Success(v.items[0])
    ensures r.Success? ==> v.JArr? || v.JStr?
  {
    match v
    case JArr(xs) => if xs == [] then Failure(IndexError) else Success(xs[0])
    case JStr(s) => if s == "" then Failure(IndexError) else Success(JStr([s[0]]))
    case JObj(_) => Failure(KeyError)
    case _ => Failure(TypeError)
  }

  /** `key` occurs in `s` at some offset. */
  predicate IsSubstring(key: string, s: string)
  {
    key <= s || (s != [] && IsSubstring(key, s[1..]))
  }

  /** Python `key in v`: a key of a dict, an item of a list, a substring of a string. */
  function Contains(v: Json, key: string): (r: Result<bool, Fault>)
    ensures v.JObj? ==> r == Success(key in v.fields)
    ensures r.Failure? <==> !(v.JObj? || v.JArr? || v.JStr?)
  {
    match v
    case JObj(m) => Success(key in m)
    case JArr(xs) => Success(exists i :: 0 <= i < |xs| && PyEq(xs[i], JStr(key)))
    case JStr(s) => Success(IsSubstring(key, s))
    case _ => Failure(TypeError)
  }

  /**
   * The items visited by a client loop `for x in v:` whose body starts by
   * subscripting `x` with a string key: a list's items; an empty string or
   * dict gives none; a non-empty string or dict yields strings, so the first
   * `x[key]` raises TypeError; anything else is not iterable.
   */
  function Items(v: Json): (r: Result<seq<Json>, Fault>)
    ensures v.JArr? ==> r == Success(v.items)
    ensures r.Success? && !v.JArr? ==> r.value == [] && (v == JStr("") || v == JObj(map[]))
  {
    match v
    case JArr(xs) => Success(xs)
    case JStr(s) => if s == "" then Success([]) else Failure(TypeError)
    case JObj(m) => if m == map[] then Success([]) else Failure(TypeError)
    case _ => Failure(TypeError)
  }
}
