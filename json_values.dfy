/** JSON values as the request parser hands them to the handlers, and Python's
    truthiness on them. Numbers are integers only. */
module JsonValues {

  datatype Option<+T> = None | Some(value: T)

  datatype Json =
    | JNull
    | JBool(b: bool)
    | JNum(n: int)
    | JStr(s: string)
    | JArr(items: seq<Json>)
    | JObj(fields: map<string, Json>)

  /** Python's `bool(v)` on a decoded JSON value: None, False, 0, "", [] and {}
      are false, everything else is true. */
  predicate Truthy(j: Json) {
    match j
    case JNull => false
    case JBool(b) => b
    case JNum(n) => n != 0
    case JStr(s) => |s| != 0
    case JArr(items) => |items| != 0
    case JObj(fields) => |fields| != 0
  }

  /** The six falsy JSON values, one per kind of value. */
  const FalsyValues: set<Json> :=
    {JNull, JBool(false), JNum(0), JStr(""), JArr([]), JObj(map[])}

  /** A value is falsy exactly when it is one of the six falsy literals; in
      particular no non-empty container and no non-zero number is falsy. */
  lemma FalsyIffFalsyLiteral(j: Json)
    ensures !Truthy(j) <==> j in FalsyValues
  {
  }
}
