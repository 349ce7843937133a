/** JavaScript values as the handlers see them: parsed request bodies,
    configuration entries and the documents the store hands back. */
module Js {

  datatype Option<+T> = None | Some(value: T)

  /** A JSON-shaped JavaScript value, plus `undefined`. Numbers are
      integers here; floating point (and so `NaN`) is not modelled. */
  datatype Json =
    | Undefined
    | Null
    | Bool(b: bool)
    | Num(n: int)
    | Str(s: string)
    | Arr(items: seq<Json>)
    | Obj(fields: map<string, Json>)

  /** JavaScript truthiness: `undefined`, `null`, `false`, `0` and `''`
      are falsy; every array and every object, even an empty one, is truthy. */
  predicate Truthy(v: Json) {
    match v
    case Undefined => false
    case Null => false
    case Bool(b) => b
    case Num(n) => n != 0
    case Str(s) => s != ""
    case Arr(_) => true
    case Obj(_) => true
  }

  /** `a[i]` on an array value: the element, or `undefined` past the end. */
  function At(items: seq<Json>, i: nat): Json {
    if i < |items| then items[i] else Undefined
  }

  /** `'' + x` for a property that may be missing: a missing one reads as `undefined`. */
  function Text(p: Option<string>): string {
    match p
    case Some(s) => s
    case None => "undefined"
  }

  /** Reading `o[key]` from a string map: `None` when the key is absent. */
  function Lookup(m: map<string, string>, key: string): Option<string> {
    if key in m then Some(m[key]) else None
  }
}
