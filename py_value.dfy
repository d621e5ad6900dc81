/**
 * Decoded JSON and Python dictionary values, as the integration reads them:
 * truthiness, `dict.get`, chains of subscripts that raise on a missing key,
 * `int(...)`, `str(...)` and the `in` operator. Floats are not modelled.
 */
module PyValue {
  import opened Wrappers
  import opened Text

  datatype Value =
    | Null
    | Bool(b: bool)
    | Int(i: int)
    | Str(s: string)
    | Arr(items: seq<Value>)
    | Obj(fields: map<string, Value>)

  /** Python truthiness: `None`, `False`, `0`, empty strings, lists and dicts are false. */
  predicate Truthy(v: Value) {
    match v
    case Null => false
    case Bool(b) => b
    case Int(i) => i != 0
    case Str(s) => s != ""
    case Arr(a) => a != []
    case Obj(m) => m != map[]
  }

  /** `d.get(key)`. */
  function Get(d: map<string, Value>, key: string): Value {
    if key in d then d[key] else Null
  }

  /** `d.get(key, default)`. */
  function GetOr(d: map<string, Value>, key: string, default: Value): Value {
    if key in d then d[key] else default
  }

  /**
   * `v[path[0]][path[1]]...`: `None` when a key is missing or a step is not
   * a dict (the `KeyError` or `TypeError` the source catches).
   */
  function Lookup(v: Value, path: seq<string>): (r: Option<Value>)
    ensures path == [] ==> r == Some(v)
    ensures path != [] && r.Some? ==> v.Obj? && path[0] in v.fields
    decreases |path|
  {
    if path == [] then Some(v)
    else if v.Obj? && path[0] in v.fields then Lookup(v.fields[path[0]], path[1..])
    else None
  }

  /** `v[i]` for a non-negative index: an element of a list or a one-character string. */
  function At(v: Value, i: nat): Option<Value> {
    match v
    case Arr(a) => if i < |a| then Some(a[i]) else None
    case Str(s) => if i < |s| then Some(Str([s[i]])) else None
    case _ => None
  }

  /** `int(v)`; `None` where Python raises. */
  function ToInt(v: Value): Option<int> {
    match v
    case Int(i) => Some(i)
    case Bool(b) => Some(if b then 1 else 0)
    case Str(s) => ParseInt(s)
    case _ => None
  }

  predicate IsScalar(v: Value) {
    v.Null? || v.Bool? || v.Int? || v.Str?
  }

  /** `str(v)` for a scalar. */
  function PyStr(v: Value): string
    requires IsScalar(v)
  {
    match v
    case Null => "None"
    case Bool(b) => if b then "True" else "False"
    case Int(i) => IntToString(i)
    case Str(s) => s
  }

  /** The values `in` can search: lists, dicts (by key) and strings (by substring). */
  predicate IsContainer(v: Value) {
    v.Arr? || v.Obj? || v.Str?
  }

  /** `x in container` for a string `x`. */
  predicate Contains(container: Value, x: string)
    requires IsContainer(container)
  {
    match container
    case Arr(a) => Str(x) in a
    case Obj(m) => x in m
    case Str(s) => IsSubstring(x, s)
  }
}
