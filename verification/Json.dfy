/** JSON values as `encoding/json` decodes them, and the library calls whose code is not modelled. */
module Json {

  datatype Json =
    | Null
    | Bool(b: bool)
    | Number(literal: string)
    | Str(s: string)
    | Arr(items: seq<Json>)
    | Obj(fields: map<string, Json>)

  type Doc = map<string, Json>

  /** Library functions, as parameters: `fmt.Sprintf("%v", v)`, `json.Marshal(v)`, the hex digest of
      SHA-1 and the test that RFC 3339 parsing succeeds. */
  datatype Lib = Lib(sprint: Json -> string, marshal: Json -> string,
                     digest: string -> string, isTime: string -> bool)
  {
    /** What is assumed of a clock reading: formatting it gives text that parses back. */
    ghost predicate Clock(now: string) {
      now != "" && isTime(now)
    }
  }
}
