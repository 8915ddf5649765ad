/** The few JavaScript value semantics the modelled code depends on. */
module Js {

  /** A string-valued property as JavaScript sees it: absent, `null`, or a string. */
  datatype JsStr = Undefined | Null | Str(s: string)

  /** `!!v`: only a non-empty string is truthy. */
  predicate Truthy(v: JsStr) {
    v.Str? && v.s != ""
  }

  /** `'' + v`: how the value prints inside a concatenated message. */
  function Render(v: JsStr): string {
    match v
    case Undefined => "undefined"
    case Null => "null"
    case Str(s) => s
  }

  /** A JSON object whose string leaves are keyed by their full dotted path
      (`{created: {date: 'x'}}` is `map["created.date" := "x"]`). */
  type Record = map<string, string>

  /** `_.get(rec, path, dflt)`: the leaf at `path`, or `dflt` when it is absent. */
  function GetOr(rec: Record, path: string, dflt: JsStr): (v: JsStr)
    ensures path in rec ==> v == Str(rec[path])
    ensures path !in rec ==> v == dflt
  {
    if path in rec then Str(rec[path]) else dflt
  }

  /** `rec.path`: the leaf at `path`, or `undefined`. */
  function Get(rec: Record, path: string): JsStr {
    GetOr(rec, path, Undefined)
  }
}
