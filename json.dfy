/**
 * The values a save record is made of: what `json.load` hands back for a
 * save file (integers only; floating point numbers are not modelled).
 */
module Json {

  datatype Json =
    | Null
    | Bool(b: bool)
    | Num(n: int)
    | Str(s: string)
    | Arr(elems: seq<Json>)
    | Obj(fields: map<string, Json>)

  /** Python's truth value of a decoded JSON value (`if value:`). */
  predicate Truthy(v: Json)
  {
    match v
    case Null => false
    case Bool(b) => b
    case Num(n) => n != 0
    case Str(s) => s != []
    case Arr(es) => es != []
    case Obj(m) => m != map[]
  }
}
