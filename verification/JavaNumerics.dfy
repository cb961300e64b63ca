/**
 * The few pieces of Java's arithmetic that the modelled code relies on,
 * written out over Dafny's unbounded `int` and exact `real`.
 */
module JavaNumerics {

  /** The range of Java's 32-bit `int`. */
  const IntMin: int := -0x8000_0000
  const IntMax: int := 0x7FFF_FFFF

  /** Java's narrowing cast `(int) d` of a finite double: rounds toward zero and saturates at the `int` range. */
  function DoubleToInt(d: real): (i: int)
    ensures IntMin <= i <= IntMax
    ensures 0.0 <= d < IntMax as real ==> 0 <= i && i as real <= d < i as real + 1.0
    ensures IntMin as real < d < 0.0 ==> i <= 0 && i as real - 1.0 < d <= i as real
    ensures IntMax as real <= d ==> i == IntMax
    ensures d <= IntMin as real ==> i == IntMin
  {
    if d >= IntMax as real then IntMax
    else if d <= IntMin as real then IntMin
    else if d >= 0.0 then d.Floor
    else -((-d).Floor)
  }

  /** Java's `a / b` on ints for a positive divisor: the exact quotient rounded toward zero. */
  function Div(a: int, b: int): (q: int)
    requires b > 0
    ensures a >= 0 ==> q >= 0 && q * b <= a < q * b + b
    ensures a < 0 ==> q <= 0 && q * b - b < a <= q * b
  {
    if a >= 0 then
      NaturalDivBounds(a, b);
      a / b
    else
      NaturalDivBounds(-a, b);
      var m := (-a) / b;
      assert -m * b == -(m * b);
      -m
  }

  /** Euclidean division of a non-negative number by a positive one: a non-negative quotient that leaves a remainder in [0, b). */
  lemma NaturalDivBounds(n: int, b: int)
    requires n >= 0 && b > 0
    ensures n / b >= 0 && (n / b) * b <= n < (n / b) * b + b
  {
    var q, r := n / b, n % b;
    assert n == q * b + r && 0 <= r < b;
    if q < 0 {
      MulMonotone(q, -1, b);
    }
  }

  /** Multiplying by a positive number keeps the order. */
  lemma MulMonotone(a: int, b: int, d: int)
    ensures a <= b && d > 0 ==> a * d <= b * d
  {
    if a <= b && d > 0 {
      assert b * d - a * d == (b - a) * d;
    }
  }

  /** Division rounding toward zero is monotone in the dividend. */
  lemma DivMonotone(a: int, b: int, d: int)
    requires a <= b && d > 0
    ensures Div(a, d) <= Div(b, d)
  {
    var qa, qb := Div(a, d), Div(b, d);
    if a >= 0 {
      // qa * d <= a <= b < (qb + 1) * d
      MulMonotone(qb + 1, qa, d);
      assert (qb + 1) * d == qb * d + d;
    } else if b < 0 {
      // (qa - 1) * d < a <= b <= qb * d
      MulMonotone(qb, qa - 1, d);
      assert (qa - 1) * d == qa * d - d;
    }
  }

  /**
   * The value of Java's double division `a / b`. A zero divisor does not throw in Java:
   * it yields NaN or an infinity, which this model does not tell apart.
   */
  datatype Quotient = Finite(value: real) | NonFinite

  function Divide(a: real, b: real): (q: Quotient)
    ensures q.Finite? <==> b != 0.0
    ensures q.Finite? ==> q.value * b == a
  {
    if b == 0.0 then NonFinite else Finite(a / b)
  }
}
