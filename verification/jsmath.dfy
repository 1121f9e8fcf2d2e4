/** The few pieces of JavaScript number semantics the client relies on:
    `Math.round` of a quotient, `Math.min` against a bound, and the `>`
    comparisons that choose a verdict tier. Operands are exact integers
    (kopecks), so only division can leave the integers, and it does so in the
    three ways JavaScript allows: a rational, an infinity, or NaN. */
module JsMath {

  /** The result of `Math.round(a / b)` for integers `a`, `b`. */
  datatype Rounded = Finite(v: int) | PosInfinity | NegInfinity | NaN

  /** `Math.round(n / d)`: the integer nearest to n/d, halves rounded up
      (toward positive infinity, as `Math.round` does); division by zero gives
      an infinity of the numerator's sign, or NaN for 0/0. */
  function RoundQuotient(n: int, d: int): (r: Rounded)
    ensures d > 0 ==> r.Finite? && 2 * d * r.v <= 2 * n + d < 2 * d * r.v + 2 * d
    ensures d < 0 ==> r.Finite? && 2 * d * r.v >= 2 * n + d > 2 * d * r.v + 2 * d
    ensures d == 0 ==> (r == if n > 0 then PosInfinity else if n < 0 then NegInfinity else NaN)
  {
    if d > 0 then
      var q := (2 * n + d) / (2 * d);
      assert 2 * n + d == q * (2 * d) + (2 * n + d) % (2 * d);
      Finite(q)
    else if d < 0 then
      var q := (-(2 * n + d)) / (-2 * d);
      assert -(2 * n + d) == q * (-2 * d) + (-(2 * n + d)) % (-2 * d);
      Finite(q)
    else if n > 0 then PosInfinity
    else if n < 0 then NegInfinity
    else NaN
  }

  /** `Math.min(r, bound)`: NaN stays NaN, +Infinity becomes the bound. */
  function MinWith(r: Rounded, bound: int): (m: Rounded)
    ensures m.Finite? ==> m.v <= bound
    ensures r.Finite? ==> m == Finite(if r.v < bound then r.v else bound)
    ensures r == PosInfinity ==> m == Finite(bound)
    ensures r == NaN <==> m == NaN
    ensures r == NegInfinity <==> m == NegInfinity
  {
    match r
    case Finite(v) => if v < bound then r else Finite(bound)
    case PosInfinity => Finite(bound)
    case NegInfinity => NegInfinity
    case NaN => NaN
  }

  /** JavaScript's `r > k`: false for NaN and for -Infinity, true for
      +Infinity. */
  function Exceeds(r: Rounded, k: int): (b: bool)
    ensures r.Finite? ==> (b <==> r.v > k)
    ensures r == NaN || r == NegInfinity ==> !b
    ensures r == PosInfinity ==> b
  {
    match r
    case Finite(v) => v > k
    case PosInfinity => true
    case NegInfinity => false
    case NaN => false
  }

  /** Rounding a quotient of non-negative integers with a part no larger than
      the whole gives a percentage between 0 and 100. */
  lemma PercentInRange(part: int, total: int)
    requires 0 <= part <= total && total > 0
    ensures RoundQuotient(100 * part, total).Finite?
    ensures 0 <= RoundQuotient(100 * part, total).v <= 100
  {
    var v := RoundQuotient(100 * part, total).v;
    if v < 0 {
      MulMonotone(2 * total, v + 1, 0);
      assert false;
    }
    if v > 100 {
      MulMonotone(2 * total, 101, v);
      assert false;
    }
  }

  /** Multiplying by a positive factor preserves order. */
  lemma MulMonotone(a: int, b: int, c: int)
    requires a > 0 && b <= c
    ensures a * b <= a * c
  {
  }
}
