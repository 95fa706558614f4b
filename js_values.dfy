/**
 * The slice of JavaScript value semantics that the hook handlers rely on:
 * truthiness (`!x`, `!!x`), property reads on plain objects, and lodash's
 * `_.get` with a default.
 */
module JsValues {

  /** A JavaScript value. Numbers are integers here (no NaN, no fractions). */
  datatype JsValue =
    | Undefined
    | Null
    | Bool(b: bool)
    | Num(n: int)
    | Str(s: string)
    | Arr(items: seq<JsValue>)
    | Obj(fields: JsObject)

  /** A plain object, such as the `delta` and `options` arguments of an update hook. */
  type JsObject = map<string, JsValue>

  /** `!!v`: false exactly for `undefined`, `null`, `false`, `0` and `""`. */
  predicate Truthy(v: JsValue)
  {
    match v
    case Undefined => false
    case Null => false
    case Bool(b) => b
    case Num(n) => n != 0
    case Str(s) => s != ""
    case Arr(_) => true
    case Obj(_) => true
  }

  /** `o.key`: a missing property reads as `undefined`. */
  function Get(o: JsObject, key: string): JsValue
  {
    if key in o then o[key] else Undefined
  }

  /**
   * `_.get(o, key, default)` for a single-segment path: the property's value,
   * or `default` when that value is `undefined` (absent or explicitly so).
   */
  function LodashGet(o: JsObject, key: string, default: JsValue): (r: JsValue)
    ensures r == default || (key in o && r == o[key])
    ensures r == Undefined ==> default == Undefined
    ensures key in o && o[key] != Undefined ==> r == o[key]
  {
    if key in o && o[key] != Undefined then o[key] else default
  }
}
