/**
 * Decoded JSON documents as Python holds them after `json.load`, and the few
 * dictionary operations the core applies to them. Numbers are integers here.
 */
module JsonValue {
  import opened Wrappers

  datatype Json =
    | JNull
    | JBool(b: bool)
    | JNum(n: int)
    | JStr(s: string)
    | JArr(items: seq<Json>)
    | JObj(fields: map<string, Json>)

  /** Python truthiness: `None`, `False`, `0`, `""`, `[]` and `{}` are falsy. */
  predicate Truthy(j: Json)
  {
    match j
    case JNull => false
    case JBool(b) => b
    case JNum(n) => n != 0
    case JStr(s) => s != ""
    case JArr(items) => items != []
    case JObj(fields) => fields != map[]
  }

  /**
   * `obj.get(path[0], {}).get(path[1], {}) ... .get(path[last], 0)`.
   * None when some receiver is not a dictionary, where Python raises.
   */
  function Dig(obj: Json, path: seq<string>): Option<Json>
    requires |path| > 0
    decreases |path|
  {
    if !obj.JObj? then None
    else if |path| == 1 then Some(if path[0] in obj.fields then obj.fields[path[0]] else JNum(0))
    else Dig(if path[0] in obj.fields then obj.fields[path[0]] else JObj(map[]), path[1..])
  }

  /** A missing key anywhere along the path yields the default 0, never an error. */
  lemma {:induction false} DigMissingIsZero(obj: Json, path: seq<string>)
    requires |path| > 0 && obj.JObj? && path[0] !in obj.fields
    ensures Dig(obj, path) == Some(JNum(0))
    decreases |path|
  {
    if |path| > 1 {
      DigMissingIsZero(JObj(map[]), path[1..]);
    }
  }

  /** Some key along `path` is missing while every dictionary above it is present. */
  predicate Absent(obj: Json, path: seq<string>)
    requires |path| > 0
    decreases |path|
  {
    obj.JObj? &&
    (path[0] !in obj.fields ||
     (|path| > 1 && Absent(obj.fields[path[0]], path[1..])))
  }

  /** Whatever level the chain breaks off at, the lookup still yields 0. */
  lemma {:induction false} DigAbsent(obj: Json, path: seq<string>)
    requires |path| > 0 && Absent(obj, path)
    ensures Dig(obj, path) == Some(JNum(0))
    decreases |path|
  {
    if path[0] !in obj.fields {
      DigMissingIsZero(obj, path);
    } else {
      DigAbsent(obj.fields[path[0]], path[1..]);
    }
  }

  /** Every key along `path` is present, each on a dictionary, and the last one maps to `leaf`. */
  predicate Present(obj: Json, path: seq<string>, leaf: Json)
    requires |path| > 0
    decreases |path|
  {
    obj.JObj? && path[0] in obj.fields &&
    (if |path| == 1 then obj.fields[path[0]] == leaf else Present(obj.fields[path[0]], path[1..], leaf))
  }

  /** A chain that is present in the document, whatever else it holds, yields the stored leaf. */
  lemma {:induction false} DigPresent(obj: Json, path: seq<string>, leaf: Json)
    requires |path| > 0 && Present(obj, path, leaf)
    ensures Dig(obj, path) == Some(leaf)
    decreases |path|
  {
    if |path| > 1 {
      DigPresent(obj.fields[path[0]], path[1..], leaf);
    }
  }

  /** The numeric value Python arithmetic sees (`bool` is a subclass of `int`). */
  function Num(j: Json): Option<int>
  {
    match j
    case JNum(n) => Some(n)
    case JBool(b) => Some(if b then 1 else 0)
    case _ => None
  }

  /** `a * b` for numbers; None for operands where Python raises. */
  function Mul(a: Json, b: Json): (r: Option<Json>)
    ensures r.Some? <==> Num(a).Some? && Num(b).Some?
    ensures r.Some? ==> r.value == JNum(Num(a).value * Num(b).value)
  {
    match (Num(a), Num(b))
    case (Some(x), Some(y)) => Some(JNum(x * y))
    case _ => None
  }

  /** A factor of `None` or a dictionary makes the product raise. */
  lemma MulUndefined(a: Json, b: Json)
    requires a.JNull? || a.JObj?
    ensures Mul(a, b).None? && Mul(b, a).None?
  {
  }
}
