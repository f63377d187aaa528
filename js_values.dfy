/**
 * The few JavaScript values the card inspects: what a configuration field,
 * an entity attribute or the result of `parseFloat` can be, and the
 * truthiness test behind the card's `!x` and `x || y`.
 */
module JsValues {
  import opened Wrappers
  import opened NumberText

  /**
   * A JavaScript number. Finite numbers are modelled as reals, so the
   * rounding of IEEE-754 doubles is not modelled; the infinities and NaN
   * are kept because `parseFloat` can return them.
   */
  datatype JsNumber = NaN | Finite(value: real) | PosInfinity | NegInfinity

  /** A JavaScript value as far as the card looks at it: objects are opaque. */
  datatype JsValue =
    | Undefined
    | Null
    | Bool(b: bool)
    | Number(n: JsNumber)
    | Str(s: string)
    | Object

  /** JavaScript's ToBoolean: `undefined`, `null`, `false`, `0`, `NaN` and `""` are falsy. */
  predicate Truthy(v: JsValue) {
    match v
    case Undefined => false
    case Null => false
    case Bool(b) => b
    case Number(n) => !(n.NaN? || n == Finite(0.0))
    case Str(s) => s != ""
    case Object => true
  }

  /** The value of the JavaScript expression `a || b`. */
  function Or(a: JsValue, b: JsValue): (r: JsValue)
    ensures Truthy(r) <==> Truthy(a) || Truthy(b)
    ensures r == a || r == b
  {
    if Truthy(a) then a else b
  }

  /** The only falsy values are the six JavaScript lists. */
  lemma FalsyValues(v: JsValue)
    ensures !Truthy(v) <==>
      v in {Undefined, Null, Bool(false), Number(NaN), Number(Finite(0.0)), Str("")}
  {
  }

  /** `||` returns its first truthy operand, whichever side it is on. */
  lemma OrPicksFirstTruthy(a: JsValue, b: JsValue, c: JsValue)
    ensures Or(Or(a, b), c) == Or(a, Or(b, c))
    ensures Truthy(a) ==> Or(Or(a, b), c) == a
    ensures !Truthy(a) && Truthy(b) ==> Or(Or(a, b), c) == b
    ensures !Truthy(a) && !Truthy(b) ==> Or(Or(a, b), c) == c
  {
  }

  /**
   * The property name JavaScript uses when a value indexes an object
   * (`states[entity]`). Numbers are spelled only when they are integers
   * below 10^21 in magnitude; other numbers and objects give None.
   */
  function PropertyKey(v: JsValue): (k: Option<string>)
    ensures v.Str? ==> k == Some(v.s)
    ensures v.Bool? ==> k == Some(if v.b then "true" else "false")
    ensures v == Undefined ==> k == Some("undefined")
    ensures v == Null ==> k == Some("null")
    ensures v == Number(NaN) ==> k == Some("NaN")
    ensures v == Number(PosInfinity) ==> k == Some("Infinity")
    ensures v == Number(NegInfinity) ==> k == Some("-Infinity")
  {
    match v
    case Undefined => Some("undefined")
    case Null => Some("null")
    case Bool(b) => Some(if b then "true" else "false")
    case Str(s) => Some(s)
    case Number(n) =>
      (match n
       case NaN => Some("NaN")
       case PosInfinity => Some("Infinity")
       case NegInfinity => Some("-Infinity")
       case Finite(x) =>
         if x.Floor as real != x || x <= -1000000000000000000000.0 || 1000000000000000000000.0 <= x then None
         else if 0.0 <= x then Some(Decimal(x.Floor))
         else Some("-" + Decimal(-x.Floor)))
    case Object => None
  }

  lemma PropertyKeyOfInteger(n: nat)
    requires n < 1000000000000000000000
    ensures PropertyKey(Number(Finite(n as real))) == Some(Decimal(n))
  {
  }

  lemma PropertyKeyOfNegativeInteger(n: nat)
    requires 0 < n < 1000000000000000000000
    ensures PropertyKey(Number(Finite(-(n as real)))) == Some("-" + Decimal(n))
  {
    var x := -(n as real);
    var m: int := 0 - (n as int);
    assert x == m as real;
    assert x.Floor == m;
    assert -1000000000000000000000.0 < x < 0.0;
  }
}
