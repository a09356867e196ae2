/** The JavaScript values the caches store and hand back, with JavaScript's
    notion of truthiness (what `if (!value)` tests). */
module JsValues {

  datatype Value =
    | Undefined
    | Null
    | Bool(b: bool)
    | Num(n: int)
    | Str(s: string)
    | Obj(fields: map<string, Value>)

  /** `undefined`, `null`, `false`, `0` and `""` are falsy; every object,
      including `{}`, is truthy. */
  predicate Truthy(v: Value)
  {
    match v
    case Undefined => false
    case Null => false
    case Bool(b) => b
    case Num(n) => n != 0
    case Str(s) => s != ""
    case Obj(_) => true
  }

  /** The empty object literal `{}`. */
  const EmptyObject: Value := Obj(map[])
}
