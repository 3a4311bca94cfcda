/** JSON-like Python values, with the conversions the modelled code applies to them. */
module PyValue {

  datatype Option<+T> = None | Some(value: T)

  datatype Float = NaN | PosInf | NegInf | Fin(r: real)

  datatype Value =
    | Null
    | Bool(b: bool)
    | Num(f: Float)
    | Str(s: string)
    | List(items: seq<Value>)
    | Dict(fields: Object)

  type Object = map<string, Value>

  /** `bool(v)` */
  predicate Truthy(v: Value) {
    match v
    case Null => false
    case Bool(b) => b
    case Num(f) => f != Fin(0.0)
    case Str(s) => s != ""
    case List(items) => items != []
    case Dict(fields) => fields != map[]
  }

  /** `d.get(k)` */
  function Get(d: Object, k: string): Value {
    if k in d then d[k] else Null
  }

  /** `str(v)`, where `render` stands for the text of everything that is not a string. */
  function Show(render: Value -> string, v: Value): string {
    if v.Str? then v.s else render(v)
  }

  /** `str(v or "")` */
  function ShowOrEmpty(render: Value -> string, v: Value): string {
    if Truthy(v) then Show(render, v) else ""
  }

  /** What the model leaves to the interpreter: `str` of non-strings and `float` of a string. */
  datatype Python = Python(render: Value -> string, floatOf: string -> Option<Float>) {

    /** `str(v)` is not empty for a true `v`. */
    ghost predicate Sane() {
      forall v: Value | Truthy(v) && !v.Str? :: render(v) != ""
    }
  }

  /** `float(v)`; `None` where it raises. */
  function ToFloat(py: Python, v: Value): Option<Float> {
    match v
    case Num(f) => Some(f)
    case Bool(b) => Some(Fin(if b then 1.0 else 0.0))
    case Str(s) => py.floatOf(s)
    case _ => None
  }
}
