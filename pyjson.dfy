/**
 * Decoded JSON (and YAML) values as the Python code sees them, with the
 * parts of Python's semantics the gateway depends on: truthiness,
 * `dict.get`, the `in` operator and iteration over a value whose elements
 * are then used as dictionaries.
 */
module PyJson {
  import opened Wrappers
  import opened Text

  datatype Json =
    | Null
    | Bool(b: bool)
    | Int(i: int)
    | Float(x: real)
    | Str(s: string)
    | Arr(items: seq<Json>)
    | Obj(fields: map<string, Json>)

  /** A Python `dict` with string keys. */
  type Dict = map<string, Json>

  /** One configured credential, such as `{"token": "..."}`. */
  type TokenGroup = Dict

  /** Python's `bool(value)`. */
  predicate Truthy(j: Json)
  {
    match j
    case Null => false
    case Bool(b) => b
    case Int(i) => i != 0
    case Float(x) => x != 0.0
    case Str(s) => s != ""
    case Arr(items) => items != []
    case Obj(fields) => fields != map[]
  }

  /** `d.get(key, default)`. */
  function Get(d: Dict, key: string, default: Json): (r: Json)
    ensures key in d ==> r == d[key]
    ensures key !in d ==> r == default
  {
    if key in d then d[key] else default
  }

  /**
   * Python's `key in container` for a string key: a key test on a dict, a
   * membership test on a list, a substring test on a string, and a
   * `TypeError` (here `None`) on numbers, booleans and `None`.
   */
  function In(key: string, container: Json): Option<bool>
  {
    match container
    case Obj(fields) => Some(key in fields)
    case Arr(items) => Some(Str(key) in items)
    case Str(s) => Some(Contains(s, key))
    case _ => None
  }

  /**
   * The elements of `for x in value` when every element is then used as a
   * dict: a list of dicts gives its dicts, an empty string or empty dict
   * gives nothing, and any other value raises (`None`), either because it is
   * not iterable or because one of its elements has no `.get`.
   */
  function Dicts(j: Json): (r: Option<seq<Dict>>)
    ensures r.Some? && j.Arr? ==> |r.value| == |j.items|
    ensures r.Some? && j.Arr? ==> forall k :: 0 <= k < |j.items| ==> j.items[k] == Obj(r.value[k])
    ensures r.Some? && !j.Arr? ==> r.value == [] && !Truthy(j)
    ensures j.Arr? && (forall k :: 0 <= k < |j.items| ==> j.items[k].Obj?) ==> r.Some?
  {
    match j
    case Arr(items) =>
      if forall k :: 0 <= k < |items| ==> items[k].Obj?
      then Some(seq(|items|, k requires 0 <= k < |items| => items[k].fields))
      else None
    case Str(s) => if s == "" then Some([]) else None
    case Obj(fields) => if fields == map[] then Some([]) else None
    case _ => None
  }

  /** `isinstance(value, int)`: `bool` is a subclass of `int` in Python. */
  function AsInt(j: Json): Option<int>
  {
    match j
    case Int(i) => Some(i)
    case Bool(b) => Some(if b then 1 else 0)
    case _ => None
  }
}
