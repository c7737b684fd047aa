/**
 * The value that `json.load` hands back and `json.dump` writes: the archive
 * file's content after parsing. Numbers are integers here; object key order
 * is not kept.
 */
module Json {

  datatype Json =
    | JNull
    | JBool(b: bool)
    | JNum(n: int)
    | JStr(s: string)
    | JArr(items: seq<Json>)
    | JObj(fields: map<string, Json>)

  /** Python can use the value as a dict key: lists and dicts raise `TypeError`. */
  predicate Hashable(v: Json) {
    !v.JArr? && !v.JObj?
  }
}
