/** The slice of JavaScript values the option objects are built from. */
module JsValues {

  /** A JavaScript value. `Fn` is a function value: the model copies it,
      tests it, or hands it to the host, which stands for the call. Numbers
      are never NaN here: they come from JSON or from option literals. */
  datatype JsValue =
    | Undefined
    | Null
    | Bool(b: bool)
    | Num(x: real)
    | Str(s: string)
    | Arr(elems: seq<JsValue>)
    | Obj(fields: map<string, JsValue>)
    | Fn(name: string)

  /** JavaScript truthiness: `undefined`, `null`, `false`, `0` and `''` are
      falsy, every other value is truthy. */
  predicate Truthy(v: JsValue) {
    match v
    case Undefined => false
    case Null => false
    case Bool(b) => b
    case Num(x) => x != 0.0
    case Str(s) => s != ""
    case _ => true
  }

  /** `obj[key]` on a plain object's own properties. */
  function Get(fields: map<string, JsValue>, key: string): JsValue {
    if key in fields then fields[key] else Undefined
  }

  /** The own enumerable properties a `for ... in` loop with a
      `hasOwnProperty` test visits. */
  function OwnProps(v: JsValue): map<string, JsValue> {
    if v.Obj? then v.fields else map[]
  }
}
