/**
 * Python values as they reach the quotation pipeline: JSON documents decoded by
 * json.loads, together with the rules Python applies to them in the pipeline
 * (truthiness, `d.get`, `a or b`, `a + b`, `len` and iteration of an items list).
 */
module Values {

  datatype Option<T> = None | Some(value: T)

  /** A computation that yields a value or raises; `message` is what str(e) shows. */
  datatype Result<T> = Ok(value: T) | Err(message: string)

  type Bytes = seq<bv8>

  /** A decoded JSON value. Numbers are exact (int and float alike). */
  datatype Json =
    | JNull
    | JBool(b: bool)
    | JNum(n: real)
    | JStr(s: string)
    | JArr(elems: seq<Json>)
    | JObj(fields: map<string, Json>)

  /** Python's truth value of a decoded value. */
  predicate Truthy(v: Json) {
    match v
    case JNull => false
    case JBool(b) => b
    case JNum(n) => n != 0.0
    case JStr(s) => s != ""
    case JArr(a) => a != []
    case JObj(m) => m != map[]
  }

  /** `a or b` */
  function Or(a: Json, b: Json): Json {
    if Truthy(a) then a else b
  }

  /** `d.get(k)`: None when the key is absent. */
  function Get(d: map<string, Json>, k: string): Json {
    if k in d then d[k] else JNull
  }

  /** `d.get(k, default)`: the default only when the key is absent. */
  function GetOr(d: map<string, Json>, k: string, default: Json): Json {
    if k in d then d[k] else default
  }

  /** `str(v)`: a string is its own text; any other value is rendered by `show`. */
  function Str(v: Json, show: Json -> string): string {
    if v.JStr? then v.s else show(v)
  }

  /** The number a value stands for in arithmetic (a bool counts as 0 or 1). */
  function NumericValue(v: Json): Option<real> {
    match v
    case JNum(n) => Some(n)
    case JBool(b) => Some(if b then 1.0 else 0.0)
    case _ => None
  }

  /** `a + b`: numeric addition, string or list concatenation, or a TypeError. */
  function Add(a: Json, b: Json): (r: Result<Json>)
    ensures r.Ok? <==> (NumericValue(a).Some? && NumericValue(b).Some?) || (a.JStr? && b.JStr?)
                       || (a.JArr? && b.JArr?)
    ensures r.Ok? && NumericValue(a).Some? ==> r.value == JNum(NumericValue(a).value + NumericValue(b).value)
    ensures a.JStr? && b.JStr? ==> r == Ok(JStr(a.s + b.s))
    ensures a.JArr? && b.JArr? ==> r == Ok(JArr(a.elems + b.elems))
  {
    if NumericValue(a).Some? && NumericValue(b).Some? then
      Ok(JNum(NumericValue(a).value + NumericValue(b).value))
    else if a.JStr? && b.JStr? then
      Ok(JStr(a.s + b.s))
    else if a.JArr? && b.JArr? then
      Ok(JArr(a.elems + b.elems))
    else
      Err("unsupported operand type(s) for +")
  }

  /** `len(v)`: None where Python raises a TypeError. */
  function Len(v: Json): Option<nat> {
    match v
    case JStr(s) => Some(|s|)
    case JArr(a) => Some(|a|)
    case JObj(m) => Some(|m|)
    case _ => None
  }

  /**
   * The dictionaries visited by `for item in v: item.get(...)`, or None when that
   * loop raises: `v` is not iterable, or it yields an element with no `.get`
   * (a character of a non-empty string, a key of a non-empty dict, a non-dict
   * list element).
   */
  function ItemDicts(v: Json): (r: Option<seq<map<string, Json>>>)
    ensures r.Some? ==> Len(v) == Some(|r.value|)
    ensures r.Some? && v.JArr? ==> forall k | 0 <= k < |v.elems| :: v.elems[k] == JObj(r.value[k])
    ensures v.JArr? ==> (r.Some? <==> forall k | 0 <= k < |v.elems| :: v.elems[k].JObj?)
    ensures (v.JStr? || v.JObj?) ==> (r.Some? <==> Len(v) == Some(0))
    ensures !(v.JArr? || v.JStr? || v.JObj?) ==> r.None?
  {
    match v
    case JArr(a) =>
      if forall k | 0 <= k < |a| :: a[k].JObj? then
        Some(seq(|a|, k requires 0 <= k < |a| => a[k].fields))
      else
        None
    case JStr(s) => if s == "" then Some([]) else None
    case JObj(m) => if m == map[] then Some([]) else None
    case _ => None
  }

  /** What the item loops raise when `items` cannot be visited as a list of dicts. */
  const ItemsNotObjects: string := "items is not a list of objects"

  /** The items a record lists: `data.get('items', [])`. */
  function ItemsField(data: map<string, Json>): Json {
    GetOr(data, "items", JArr([]))
  }
}
