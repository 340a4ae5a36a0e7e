/**
 * Decoded JSON values, as `json.loads` hands them to the parsers: objects keep their key order.
 * Python's `dict.get`, truthiness and `str()` are given here for the values the parsers meet.
 */
module Json {
  import opened Wrappers
  import Text
  import Dict

  datatype Json =
    | Null
    | Bool(b: bool)
    | Int(i: int)
    | Float(r: real)
    | Str(s: string)
    | Arr(items: seq<Json>)
    | Obj(fields: Dict.Dict<Json>)

  type Object = Dict.Dict<Json>

  /** `obj.get(key, default)`. */
  function Get(obj: Object, key: string, default: Json): (r: Json)
    ensures Dict.HasKey(obj, key) ==> Some(r) == Dict.Get(obj, key)
    ensures !Dict.HasKey(obj, key) ==> r == default
  {
    Dict.Get(obj, key).GetOr(default)
  }

  /** Python truthiness: None, False, zero and empty strings, lists and objects are false. */
  predicate Truthy(j: Json) {
    match j
    case Null => false
    case Bool(b) => b
    case Int(i) => i != 0
    case Float(r) => r != 0.0
    case Str(s) => s != ""
    case Arr(items) => items != []
    case Obj(fields) => fields != []
  }

  /** The values whose `str()` the model renders: None, booleans, integers and strings. */
  predicate Printable(j: Json) {
    j.Null? || j.Bool? || j.Int? || j.Str?
  }

  /** `str(j)` for a printable value. */
  function PyStr(j: Json): string
    requires Printable(j)
  {
    match j
    case Null => "None"
    case Bool(b) => if b then "True" else "False"
    case Int(i) => Text.IntToString(i)
    case Str(s) => s
  }

  /** An integer's text reads back as the integer. */
  lemma PyStrOfInt(i: int)
    ensures Text.ParseInt(PyStr(Int(i))) == Some(i)
  {
    Text.ParseIntOfIntToString(i);
  }

  /** `str(j)`, or None where the rendering (of a float, list or object) is not modelled. */
  function TryStr(j: Json): (r: Option<string>)
    ensures r.Some? <==> Printable(j)
  {
    if Printable(j) then Some(PyStr(j)) else None
  }
}
