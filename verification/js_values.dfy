/** The JavaScript values that flow through the cloud functions untouched:
    request parameters, fields of the ML service's JSON replies, and the
    stored record fields. Only the operations the source applies to them
    are modelled: truthiness (`if (job.get("abTesting"))`), strict equality
    with a string literal, and the numeric subtraction `1 - value`. */
module JsValues {

  /** A JavaScript number. Infinities and the sign of zero are not modelled. */
  datatype JsNumber = Finite(value: real) | NaN

  /** A JSON-like JavaScript value; `Object` stands for any object or array,
      identified by an opaque reference. */
  datatype JsValue =
    | Undefined
    | Null
    | Bool(b: bool)
    | Num(n: JsNumber)
    | Str(s: string)
    | Object(ref: nat)

  /** JavaScript truthiness: `undefined`, `null`, `false`, `0`, `NaN` and
      the empty string are falsy; everything else is truthy. For the
      primitives other than strings it agrees with the numeric conversion:
      truthy exactly when the number is neither zero nor NaN. */
  function Truthy(v: JsValue): (r: bool)
    ensures v.Object? ==> r
    ensures v.Str? ==> (r <==> |v.s| > 0)
    ensures !v.Str? && !v.Object? ==> (r <==> ToNumber(v).Finite? && ToNumber(v).value != 0.0)
  {
    match v
    case Undefined => false
    case Null => false
    case Bool(b) => b
    case Num(n) => n.Finite? && n.value != 0.0
    case Str(s) => s != ""
    case Object(_) => true
  }

  /** Strict equality `v === "text"` against a string literal. */
  predicate IsString(v: JsValue, text: string)
  {
    v == Str(text)
  }

  /** The ToNumber conversion applied by binary `-`. A non-empty string is
      taken to be NaN: parsing numeric strings is not modelled. */
  function ToNumber(v: JsValue): (r: JsNumber)
    ensures v.Num? ==> r == v.n
    ensures v.Undefined? || v.Object? ==> r == NaN
    ensures v.Null? || v.Bool? || v == Str("") ==> r.Finite?
    ensures v.Bool? ==> (r == Finite(1.0) <==> v.b) && (r == Finite(0.0) <==> !v.b)
  {
    match v
    case Undefined => NaN
    case Null => Finite(0.0)
    case Bool(b) => Finite(if b then 1.0 else 0.0)
    case Num(n) => n
    case Str(s) => if s == "" then Finite(0.0) else NaN
    case Object(_) => NaN
  }

  /** `1 - v` in JavaScript. */
  function OneMinus(v: JsValue): (r: JsNumber)
    ensures r.Finite? <==> ToNumber(v).Finite?
    ensures r.Finite? ==> r.value + ToNumber(v).value == 1.0
  {
    match ToNumber(v)
    case Finite(x) => Finite(1.0 - x)
    case NaN => NaN
  }
}
