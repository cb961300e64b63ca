/**
 * The random plan selector of the replanning framework: it picks one of a
 * person's plans uniformly at random. The draw of `MatsimRandom.getRandom().nextDouble()`
 * is a parameter `r` with 0 <= r < 1, the contract of `Random.nextDouble`.
 */
module RandomPlanSelector {
  import opened Wrappers
  import JavaNumerics

  /** `(int) (r * n)`: the index chosen for the draw `r` among `n` plans; it is always below n. */
  function DrawIndex(r: real, n: nat): (i: nat)
    requires 0.0 <= r < 1.0 && 0 < n
    ensures i < n
  {
    ScaleBelow(r, n as real);
    CastBelow(r * (n as real), n as real);
    JavaNumerics.DoubleToInt(r * (n as real))
  }

  /** A factor in [0, 1) shrinks a positive quantity without making it negative. */
  lemma ScaleBelow(r: real, x: real)
    requires 0.0 <= r < 1.0 && 0.0 < x
    ensures 0.0 <= r * x < x
  {
  }

  /** Casting a value of [0, bound) to `int` gives a non-negative value below the bound. */
  lemma CastBelow(x: real, bound: real)
    requires 0.0 <= x < bound
    ensures 0 <= JavaNumerics.DoubleToInt(x) && JavaNumerics.DoubleToInt(x) as real < bound
  {
  }

  /** When the product fits in an `int` (always so for a Java list size), the index is the floor of `r * n`. */
  lemma DrawIndexIsFloor(r: real, n: nat)
    requires 0.0 <= r < 1.0 && 0 < n
    requires r * (n as real) < JavaNumerics.IntMax as real
    ensures DrawIndex(r, n) as real <= r * (n as real) < DrawIndex(r, n) as real + 1.0
  {
    ScaleBelow(r, n as real);
  }

  /**
   * `selectPlan`: no plan (`null`) exactly when the person has none, otherwise the plan at
   * the drawn index. The plan list is a value, so selection cannot change it.
   */
  function SelectPlan<T>(plans: seq<T>, r: real): (selected: Option<T>)
    requires 0.0 <= r < 1.0
    ensures selected.None? <==> |plans| == 0
    ensures selected.Some? ==> selected.value in plans
    ensures selected.Some? ==> selected.value == plans[DrawIndex(r, |plans|)]
  {
    if |plans| == 0 then None
    else Some(plans[DrawIndex(r, |plans|)])
  }

  /** The draw 0 selects the first plan. */
  lemma ZeroDrawSelectsFirst<T>(plans: seq<T>)
    requires 0 < |plans|
    ensures SelectPlan(plans, 0.0) == Some(plans[0])
  {
  }

  /** A larger draw never selects an earlier plan. */
  lemma DrawIndexMonotone(r1: real, r2: real, n: nat)
    requires 0.0 <= r1 <= r2 < 1.0
    requires 0 < n <= JavaNumerics.IntMax
    ensures DrawIndex(r1, n) <= DrawIndex(r2, n)
  {
    FitsInInt(r1, n);
    FitsInInt(r2, n);
    DrawIndexIsFloor(r1, n);
    DrawIndexIsFloor(r2, n);
    ScaleMonotone(r1, r2, n as real);
    FloorOrder(DrawIndex(r1, n), DrawIndex(r2, n), r1 * (n as real), r2 * (n as real));
  }

  /**
   * Every plan is chosen on a sub-interval of [0, 1) of width 1/n: the index i is drawn
   * exactly when i/n <= r < (i+1)/n, so a uniform draw picks each plan with probability 1/n.
   */
  lemma DrawIndexInterval(r: real, n: nat, i: nat)
    requires 0.0 <= r < 1.0
    requires 0 < n <= JavaNumerics.IntMax
    requires i < n
    ensures DrawIndex(r, n) == i <==> i as real / n as real <= r < (i as real + 1.0) / n as real
  {
    FitsInInt(r, n);
    DrawIndexIsFloor(r, n);
    DivisionBounds(i as real, n as real, r);
    var k := DrawIndex(r, n);
    if i as real / n as real <= r < (i as real + 1.0) / n as real {
      FloorOrder(k, i, r * (n as real), r * (n as real));
      FloorOrder(i, k, r * (n as real), r * (n as real));
    }
  }

  /** For a list size that fits Java's `int`, so does the product of the draw and the size. */
  lemma FitsInInt(r: real, n: nat)
    requires 0.0 <= r < 1.0
    requires 0 < n <= JavaNumerics.IntMax
    ensures r * (n as real) < JavaNumerics.IntMax as real
  {
    ScaleBelow(r, n as real);
  }

  lemma ScaleMonotone(r1: real, r2: real, x: real)
    requires r1 <= r2 && 0.0 < x
    ensures r1 * x <= r2 * x
  {
  }

  /** Two floors of ordered values are ordered. */
  lemma FloorOrder(i: int, k: int, x: real, y: real)
    requires i as real <= x <= y < k as real + 1.0
    ensures i <= k
  {
  }

  lemma DivisionBounds(a: real, d: real, r: real)
    requires 0.0 < d
    ensures a / d <= r <==> a <= r * d
    ensures r < (a + 1.0) / d <==> r * d < a + 1.0
  {
  }
}
