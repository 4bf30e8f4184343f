/**
 The few JavaScript value semantics the taxpayer-identifier validator relies on:
 numbers that may be NaN, array slots that may be `undefined`, and the `%`
 operator, whose remainder takes the sign of the dividend.

 The validator only ever adds and multiplies small non-negative integers (a sum
 of at most 14 products of a digit and a weight of at most 12), far below 2^53,
 so every finite JavaScript number it meets is an exact integer and is modelled
 here as an `int`.
 */
module JsNumber {

  /** A JavaScript number: an exact integer or NaN. */
  datatype Num = Finite(value: int) | NaN

  /** What reading `a[i]` from a JavaScript array yields: an element or `undefined`. */
  datatype Slot = Defined(element: int) | Undefined

  /** `a[i]`: an index past the end yields `undefined` rather than an error. */
  function Lookup(a: seq<int>, i: nat): Slot
  {
    if i < |a| then Defined(a[i]) else Undefined
  }

  /** The numeric conversion an arithmetic operator applies to its operand: `undefined` becomes NaN. */
  function ToNumber(v: Slot): Num
  {
    match v
    case Defined(n) => Finite(n)
    case Undefined => NaN
  }

  /** `x + y`: NaN if either operand is NaN. */
  function Add(x: Num, y: Num): Num
  {
    if x.Finite? && y.Finite? then Finite(x.value + y.value) else NaN
  }

  /** `x * y`: NaN if either operand is NaN. */
  function Mul(x: Num, y: Num): Num
  {
    if x.Finite? && y.Finite? then Finite(x.value * y.value) else NaN
  }

  function Abs(n: int): nat
  {
    if n < 0 then -n else n
  }

  /** `Math.trunc(a / b)`: the quotient of `a` by `b`, rounded toward zero. */
  function TruncDiv(a: int, b: int): int
    requires b != 0
  {
    var q := if a >= 0 then a / Abs(b) else -((-a) / Abs(b));
    if b < 0 then -q else q
  }

  /**
   `a % b` on integers as JavaScript computes it: what is left of the dividend
   after taking away the divisor times the quotient rounded toward zero. So the
   remainder is smaller than the divisor in magnitude and is zero or has the
   sign of the dividend.
   */
  function JsRem(a: int, b: int): (r: int)
    requires b != 0
    ensures a == b * TruncDiv(a, b) + r
    ensures Abs(r) < Abs(b)
    ensures r == 0 || (r < 0 <==> a < 0)
  {
    var m := Abs(b);
    var q := if a >= 0 then a / m else -((-a) / m);
    assert b * TruncDiv(a, b) == m * q;
    if a >= 0 then a % m else -((-a) % m)
  }

  /** For the validator's divisor 11, a JavaScript remainder is zero exactly when 11 divides the dividend. */
  lemma JsRemElevenZero(a: int)
    ensures JsRem(a, 11) == 0 <==> a % 11 == 0
  {
    var q := TruncDiv(a, 11);
    assert a == 11 * q + JsRem(a, 11);
  }

  /** `x % y`: NaN if either operand is NaN or the divisor is zero. */
  function Rem(x: Num, y: Num): Num
  {
    if x.Finite? && y.Finite? && y.value != 0 then Finite(JsRem(x.value, y.value)) else NaN
  }
}
