/** Loosely typed JavaScript values, as they appear in note frontmatter and
    in the plugin's stored settings. */
module JsValues {

  /** A JavaScript number: a finite value, NaN, or one of the two infinities. */
  datatype JsNumber = Finite(x: real) | NaN | Infinity(negative: bool)

  /** A frontmatter or settings value. Arrays, nested objects and dates are
      not inspected anywhere in the core, so they share one constructor. */
  datatype Value =
    | Str(s: string)
    | Num(n: JsNumber)
    | Bool(b: bool)
    | Null
    | Structured

  /** The `unknown` argument of a sanitiser: a plain object with its own
      enumerable properties, or anything else (null, a primitive, an array). */
  datatype Raw = Record(fields: map<string, Value>) | NonRecord

  /** JavaScript truthiness: `!v` is false exactly when this holds. */
  predicate Truthy(v: Value) {
    match v
    case Str(s) => s != ""
    case Num(n) => (n.Finite? && n.x != 0.0) || n.Infinity?
    case Bool(b) => b
    case Null => false
    case Structured => true
  }

  /** `Number.isInteger(v)`: a finite number without a fractional part. */
  predicate IsInteger(v: Value) {
    v.Num? && v.n.Finite? && v.n.x.Floor as real == v.n.x
  }

  /** The numeric value of an integer `Value`. */
  function IntOf(v: Value): (i: int)
    requires IsInteger(v)
    ensures i as real == v.n.x
  {
    v.n.x.Floor
  }

  /** The JavaScript number holding the integer `i`. */
  function IntValue(i: int): (v: Value)
    ensures IsInteger(v) && IntOf(v) == i
  {
    Num(Finite(i as real))
  }
}
