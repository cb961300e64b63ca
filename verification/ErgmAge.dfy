/**
 * The age term of the exponential random graph model of the social-network sampler.
 * Its change statistic for a tie between egos i and j is theta * min(age_i, age_j) / max(age_i, age_j):
 * the closer the two ages, the closer the statistic is to theta. The lookup of the two egos'
 * ages in the adjacency matrix is not part of this model: the ages are parameters.
 */
module ErgmAge {
  import JavaNumerics

  function Min(a: int, b: int): int { if a <= b then a else b }
  function Max(a: int, b: int): int { if a <= b then b else a }

  /**
   * `changeStatistic(m, i, j, y_ij)` for egos of ages `age1` and `age2`; `tieExists` stands for
   * `y_ij`, which the term ignores. Java evaluates `theta * min` first and divides the product by
   * `max` in double arithmetic, so a zero maximum age yields NaN or an infinity rather than an error.
   */
  function ChangeStatistic(theta: real, age1: int, age2: int, tieExists: bool): (r: JavaNumerics.Quotient)
    ensures r.Finite? <==> Max(age1, age2) != 0
    ensures r.Finite? ==> r.value * Max(age1, age2) as real == theta * Min(age1, age2) as real
  {
    JavaNumerics.Divide(theta * Min(age1, age2) as real, Max(age1, age2) as real)
  }

  /** The statistic is symmetric in the two egos and does not depend on whether the tie exists. */
  lemma ChangeStatisticSymmetric(theta: real, age1: int, age2: int, y1: bool, y2: bool)
    ensures ChangeStatistic(theta, age1, age2, y1) == ChangeStatistic(theta, age2, age1, y2)
  {
  }

  /** Two egos of the same non-zero age score exactly theta. */
  lemma EqualAgesGiveTheta(theta: real, age: int, y: bool)
    requires age != 0
    ensures ChangeStatistic(theta, age, age, y) == JavaNumerics.Finite(theta)
  {
  }

  /** For positive ages the age ratio lies in (0, 1], so the statistic is finite and lies between 0 (excluded) and theta. */
  lemma ChangeStatisticBounds(theta: real, age1: int, age2: int, y: bool)
    requires age1 > 0 && age2 > 0
    ensures ChangeStatistic(theta, age1, age2, y).Finite?
    ensures theta > 0.0 ==> 0.0 < ChangeStatistic(theta, age1, age2, y).value <= theta
    ensures theta < 0.0 ==> theta <= ChangeStatistic(theta, age1, age2, y).value < 0.0
    ensures theta == 0.0 ==> ChangeStatistic(theta, age1, age2, y).value == 0.0
  {
    var lo, hi := Min(age1, age2) as real, Max(age1, age2) as real;
    var q := lo / hi;
    RatioInUnitInterval(lo, hi);
    ScaleThenDivide(theta, lo, hi);
    ScaleByRatio(theta, q);
    assert ChangeStatistic(theta, age1, age2, y) == JavaNumerics.Divide(theta * lo, hi);
    assert JavaNumerics.Divide(theta * lo, hi) == JavaNumerics.Finite(theta * q);
  }

  lemma ScaleThenDivide(theta: real, lo: real, hi: real)
    requires hi != 0.0
    ensures theta * lo / hi == theta * (lo / hi)
  {
  }

  lemma RatioInUnitInterval(lo: real, hi: real)
    requires 0.0 < lo <= hi
    ensures 0.0 < lo / hi <= 1.0
  {
  }

  /** Scaling by a ratio in (0, 1] keeps the sign and does not grow the magnitude. */
  lemma ScaleByRatio(theta: real, q: real)
    requires 0.0 < q <= 1.0
    ensures theta > 0.0 ==> 0.0 < theta * q <= theta
    ensures theta < 0.0 ==> theta <= theta * q < 0.0
    ensures theta == 0.0 ==> theta * q == 0.0
  {
    assert theta - theta * q == theta * (1.0 - q);
  }
}
