/**
  The two number-to-number conversions the calculators rely on, stated on exact reals:
  `Number.prototype.toFixed(n)` read back as a number (round to n decimals, ties away
  from zero) and `parseInt` applied to a number (truncation toward zero).
  Binary floating point is not modelled: every value here is an exact rational.
*/
module Numeric {

  /** 10 to the power n. */
  function Pow10(n: nat): (p: nat)
    ensures p >= 1
    ensures n > 0 ==> p >= 10
  {
    if n == 0 then 1 else 10 * Pow10(n - 1)
  }

  /** The factor that turns `digits` decimals into whole units. */
  function Scale(digits: nat): (p: real)
    ensures p >= 1.0
  {
    Pow10(digits) as real
  }

  /** The size of one step in the last kept decimal place. */
  function Step(digits: nat): (s: real)
    ensures 0.0 < s <= 1.0
  {
    1.0 / Scale(digits)
  }

  predicate IsInteger(y: real)
  {
    y.Floor as real == y
  }

  /** True when x is a whole multiple of 1 / p. */
  predicate OnGridAt(x: real, p: real)
  {
    IsInteger(x * p)
  }

  /** True when x has at most `digits` decimals. */
  predicate OnGrid(x: real, digits: nat)
  {
    OnGridAt(x, Scale(digits))
  }

  /** Rounding of a non-negative value to a whole multiple of 1 / p, halves going up. */
  function RoundHalfUp(x: real, p: real): real
    requires x >= 0.0 && p >= 1.0
  {
    (x * p + 0.5).Floor as real / p
  }

  /** The facts about k / p, for k the rounded multiple of x * p, that need no floor. */
  lemma ScaledRound(x: real, p: real, k: int)
    requires p >= 1.0
    requires k as real <= x * p + 0.5 < k as real + 1.0
    ensures (k as real / p) * p == k as real
    ensures x - (1.0 / p) / 2.0 < k as real / p <= x + (1.0 / p) / 2.0
  {
    var r := k as real / p;
    assert r * p == k as real;
    assert (r - x) * p == k as real - x * p;
    assert (1.0 / p) / 2.0 * p == 0.5;
  }

  lemma RoundHalfUpFacts(x: real, p: real)
    requires x >= 0.0 && p >= 1.0
    ensures RoundHalfUp(x, p) >= 0.0
    ensures OnGridAt(RoundHalfUp(x, p), p)
    ensures x - (1.0 / p) / 2.0 < RoundHalfUp(x, p) <= x + (1.0 / p) / 2.0
    ensures x == 0.0 ==> RoundHalfUp(x, p) == 0.0
  {
    var k := (x * p + 0.5).Floor;
    assert k >= 0 by { assert x * p + 0.5 >= 0.5; }
    ScaledRound(x, p, k);
    IntegerOverScale(k, p);
  }

  /** k / p is on the grid of step 1 / p. */
  lemma IntegerOverScale(k: int, p: real)
    requires p >= 1.0
    ensures OnGridAt(k as real / p, p)
  {
    var r := k as real / p;
    assert r * p == k as real;
    assert (r * p).Floor == k;
  }

  lemma NegateOnGrid(x: real, p: real)
    requires OnGridAt(x, p)
    ensures OnGridAt(-x, p)
  {
    var k := (x * p).Floor;
    assert x * p == k as real;
    assert (-x) * p == (-k) as real;
  }

  /** The rounding of `ToFixed` at the scale p. */
  function ToFixedAt(x: real, p: real): (r: real)
    requires p >= 1.0
    ensures OnGridAt(r, p)
    ensures -(1.0 / p) / 2.0 <= r - x <= (1.0 / p) / 2.0
    ensures x >= 0.0 ==> r >= 0.0
    ensures x <= 0.0 ==> r <= 0.0
  {
    if x < 0.0 then
      RoundHalfUpFacts(-x, p);
      NegateOnGrid(RoundHalfUp(-x, p), p);
      -RoundHalfUp(-x, p)
    else
      RoundHalfUpFacts(x, p);
      RoundHalfUp(x, p)
  }

  /**
    `x.toFixed(digits)` read back as a number: the magnitude is rounded half up and the
    sign is put back, so ties go away from zero.
  */
  function ToFixed(x: real, digits: nat): (r: real)
    ensures OnGrid(r, digits)
    ensures -Step(digits) / 2.0 <= r - x <= Step(digits) / 2.0
    ensures x >= 0.0 ==> r >= 0.0
    ensures x <= 0.0 ==> r <= 0.0
  {
    ToFixedAt(x, Scale(digits))
  }

  /** `parseInt` applied to a number: the integer part, truncated toward zero. */
  function Truncate(x: real): (n: int)
    ensures x >= 0.0 ==> n as real <= x < n as real + 1.0
    ensures x < 0.0 ==> n as real - 1.0 < x <= n as real
  {
    if x >= 0.0 then x.Floor else -((-x).Floor)
  }

  lemma ScaleMonotone(x: real, y: real, p: real)
    requires x <= y && p >= 1.0
    ensures x * p <= y * p
  {
  }

  lemma DivideMonotone(a: real, b: real, p: real)
    requires a <= b && p >= 1.0
    ensures a / p <= b / p
  {
  }

  lemma RoundHalfUpMonotone(x: real, y: real, p: real)
    requires 0.0 <= x <= y && p >= 1.0
    ensures RoundHalfUp(x, p) <= RoundHalfUp(y, p)
  {
    ScaleMonotone(x, y, p);
    var a, b := (x * p + 0.5).Floor, (y * p + 0.5).Floor;
    assert a <= b;
    DivideMonotone(a as real, b as real, p);
  }

  /** Rounding to a fixed number of decimals never reverses the order of two values. */
  lemma ToFixedMonotone(x: real, y: real, digits: nat)
    requires x <= y
    ensures ToFixed(x, digits) <= ToFixed(y, digits)
  {
    var p := Scale(digits);
    if 0.0 <= x {
      RoundHalfUpMonotone(x, y, p);
    } else if y < 0.0 {
      RoundHalfUpMonotone(-y, -x, p);
    }
  }

  /** Truncation toward zero never reverses the order of two values. */
  lemma TruncateMonotone(x: real, y: real)
    requires x <= y
    ensures Truncate(x) <= Truncate(y)
  {
    if 0.0 <= x {
      assert x.Floor <= y.Floor;
    } else if y < 0.0 {
      assert (-y).Floor <= (-x).Floor;
    }
  }

  lemma RoundOnGrid(m: real, p: real)
    requires m >= 0.0 && p >= 1.0 && OnGridAt(m, p)
    ensures RoundHalfUp(m, p) == m
  {
    var k := (m * p).Floor;
    assert k as real == m * p;
    assert (m * p + 0.5).Floor == k;
    assert k as real / p == m;
  }

  /** A value that already has at most `digits` decimals is left as it is. */
  lemma ToFixedOnGrid(x: real, digits: nat)
    requires OnGrid(x, digits)
    ensures ToFixed(x, digits) == x
  {
    var p := Scale(digits);
    if x >= 0.0 {
      RoundOnGrid(x, p);
    } else {
      NegateOnGrid(x, p);
      RoundOnGrid(-x, p);
    }
  }
}
