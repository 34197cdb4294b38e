/** JSON values: the form of the objects the operator patches and of those it handles untyped. */
module Json {

  datatype Json =
    | Null
    | Bool(b: bool)
    | Num(n: int)
    | Str(s: string)
    | Arr(items: seq<Json>)
    | Obj(fields: map<string, Json>)

  /** The object of a string map. */
  function OfStrings(m: map<string, string>): Json {
    Obj(map k | k in m :: Str(m[k]))
  }

  /** A field of an object; undefined reads as null. */
  function Field(j: Json, k: string): Json {
    if j.Obj? && k in j.fields then j.fields[k] else Null
  }
}
