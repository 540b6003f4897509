/** The values `json.loads` produces, and the parts of Python's dynamic typing that the
    research assistant's code runs into when it handles them: truth tests, `for` loops
    over a value, `len()` and the `TypeError` messages those raise. */
module Json {
  import opened Wrappers

  /** A decoded JSON value. An object nested inside another value keeps its members in
      document order, because Python iterates a dict in insertion order. Its keys are
      assumed distinct, as in a Python dict; the type does not enforce this. */
  datatype Value =
    | Null
    | Bool(b: bool)
    | Int(i: int)
    | Float(f: real)
    | Str(s: string)
    | Arr(items: seq<Value>)
    | Obj(members: seq<(string, Value)>)

  /** A decoded top-level JSON object, looked up and updated by key. */
  type Dict = map<string, Value>

  /** Python's `d.get(key, default)`. */
  function Get(d: Dict, key: string, default: Value): (v: Value)
    ensures key in d ==> v == d[key]
    ensures key !in d ==> v == default
  {
    if key in d then d[key] else default
  }

  /** Python's truth test `bool(v)`: empty containers, zero, false and None are false. */
  predicate Truthy(v: Value)
  {
    match v
    case Null => false
    case Bool(b) => b
    case Int(i) => i != 0
    case Float(f) => f != 0.0
    case Str(s) => s != []
    case Arr(items) => items != []
    case Obj(members) => members != []
  }

  /** The Python type name of a decoded value, as it appears in `TypeError` messages. */
  function TypeName(v: Value): string
  {
    match v
    case Null => "NoneType"
    case Bool(_) => "bool"
    case Int(_) => "int"
    case Float(_) => "float"
    case Str(_) => "str"
    case Arr(_) => "list"
    case Obj(_) => "dict"
  }

  /** What `for x in v` visits: the items of a list, the one-character strings of a
      string, the keys of a dict; `None` where Python raises `TypeError`. */
  function Iterate(v: Value): (r: Option<seq<Value>>)
    ensures r.Some? <==> v.Str? || v.Arr? || v.Obj?
    ensures v.Arr? ==> r == Some(v.items)
    ensures forall x :: r.Some? && x in r.value && !v.Arr? ==> x.Str?
  {
    match v
    case Str(s) => Some(seq(|s|, i requires 0 <= i < |s| => Str([s[i]])))
    case Arr(items) => Some(items)
    case Obj(members) => Some(seq(|members|, i requires 0 <= i < |members| => Str(members[i].0)))
    case _ => None
  }

  /** Python's `len(v)`, `None` where Python raises `TypeError`. Whatever has a length can
      be iterated, and the loop visits exactly that many values. */
  function Len(v: Value): (r: Option<nat>)
    ensures r.Some? <==> Iterate(v).Some?
    ensures r.Some? ==> r.value == |Iterate(v).value|
  {
    match v
    case Str(s) => Some(|s|)
    case Arr(items) => Some(|items|)
    case Obj(members) => Some(|members|)
    case _ => None
  }

  /** The message of the `TypeError` raised by `for x in v` when `v` cannot be iterated. */
  function NotIterable(v: Value): string
  {
    "'" + TypeName(v) + "' object is not iterable"
  }

  /** The message of the `TypeError` raised by `len(v)` when `v` has no length. */
  function HasNoLen(v: Value): string
  {
    "object of type '" + TypeName(v) + "' has no len()"
  }
}
