/** Decoded JSON values, as the runtime passes them around. */
module Json {
  import opened Basics

  datatype Json =
    | Null
    | Bool(b: bool)
    | Num(n: real)
    | Str(s: string)
    | List(items: seq<Json>)
    | Obj(fields: map<string, Json>)

  type Fields = map<string, Json>

  /** The string under a key; the empty string when it is missing or something else. */
  function StrAt(m: Fields, key: string): string {
    if key in m && m[key].Str? then m[key].s else ""
  }
}
