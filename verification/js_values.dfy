/** JavaScript runtime values, as far as the Option container can observe them.

    The container never inspects its payload except through one truthiness
    test, so values are modelled abstractly: numbers are split into the two
    falsy ones (zero, of either sign, and NaN) and the nonzero ones, and
    objects, functions and symbols are identified only by an abstract id.
 */
module JsValues {

  /** The value of a nonzero number. Fractions and infinities are left out:
      only the truthiness of a number is ever observed. */
  type NonZeroInt = n: int | n != 0 witness 1

  datatype JsValue =
    | Undefined
    | Null
    | Bool(b: bool)
    | Zero                 // +0 and -0
    | NaN
    | NonZeroNumber(x: NonZeroInt)  // any number other than +0, -0 and NaN
    | BigInt(n: int)
    | Str(s: string)
    | Symbol(id: nat)
    | Object(id: nat)      // plain objects, arrays and functions alike

  /** The ToBoolean conversion of section 7.1.2 of ECMAScript, which `if (x)` applies. */
  predicate IsTruthy(v: JsValue) {
    match v
    case Undefined => false
    case Null => false
    case Bool(b) => b
    case Zero => false
    case NaN => false
    case NonZeroNumber(_) => true
    case BigInt(n) => n != 0
    case Str(s) => s != ""
    case Symbol(_) => true
    case Object(_) => true
  }

  /** The complete, finite list of falsy values: an independent description of `IsTruthy`. */
  function Falsy(): set<JsValue> {
    {Undefined, Null, Bool(false), Zero, NaN, BigInt(0), Str("")}
  }

  /** A value is truthy exactly when it is not one of the seven falsy values. */
  lemma TruthyIffNotFalsy(v: JsValue)
    ensures IsTruthy(v) <==> v !in Falsy()
  {
  }
}
