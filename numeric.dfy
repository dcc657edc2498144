/**
 * Number helpers shared by the statistics: `Math.round`, the value of
 * `x.toFixed(k)` for the precisions the dashboard uses, and guarded ratios.
 * Arithmetic is over unbounded `real`; IEEE rounding is not modelled.
 */
module Numeric {

  /** `Math.round(x)`: the nearest integer, halves rounded up. */
  function Round(x: real): (r: int)
    ensures x - 0.5 < r as real <= x + 0.5
  {
    (x + 0.5).Floor
  }

  lemma RoundMonotone(x: real, y: real)
    requires x <= y
    ensures Round(x) <= Round(y)
  {
    assert (Round(x) as real) < (Round(y) as real) + 1.0;
  }

  lemma RoundInteger(n: int)
    ensures Round(n as real) == n
  {
  }

  /** The value of `x.toFixed(3)`. */
  function Fixed3(x: real): (r: real)
    ensures x - 0.0005 < r <= x + 0.0005
    ensures (r * 1000.0).Floor as real == r * 1000.0
  {
    Round(x * 1000.0) as real / 1000.0
  }

  /** The value of `x.toFixed(1)`. */
  function Fixed1(x: real): (r: real)
    ensures x - 0.05 < r <= x + 0.05
    ensures (r * 10.0).Floor as real == r * 10.0
  {
    Round(x * 10.0) as real / 10.0
  }

  /** The value of `x.toFixed(0)`. */
  function Fixed0(x: real): (r: real)
    ensures x - 0.5 < r <= x + 0.5
    ensures r.Floor as real == r
  {
    Round(x) as real
  }

  /** The bound and the grid pin `toFixed(3)` down: no other thousandth lies within half a unit. */
  lemma Fixed3Unique(x: real, g: real)
    requires (g * 1000.0).Floor as real == g * 1000.0
    requires x - 0.0005 < g <= x + 0.0005
    ensures g == Fixed3(x)
  {
    var a := (g * 1000.0).Floor;
    var b := Round(x * 1000.0);
    assert x * 1000.0 - 0.5 < a as real <= x * 1000.0 + 0.5;
    assert a == b;
  }

  /** No other tenth lies within half a unit of `x`. */
  lemma Fixed1Unique(x: real, g: real)
    requires (g * 10.0).Floor as real == g * 10.0
    requires x - 0.05 < g <= x + 0.05
    ensures g == Fixed1(x)
  {
    var a := (g * 10.0).Floor;
    var b := Round(x * 10.0);
    assert x * 10.0 - 0.5 < a as real <= x * 10.0 + 0.5;
    assert a == b;
  }

  /** No other whole number lies within half a unit of `x`. */
  lemma Fixed0Unique(x: real, g: real)
    requires g.Floor as real == g
    requires x - 0.5 < g <= x + 0.5
    ensures g == Fixed0(x)
  {
    var a := g.Floor;
    var b := Round(x);
    assert x - 0.5 < a as real <= x + 0.5;
    assert a == b;
  }

  lemma Fixed3Monotone(x: real, y: real)
    requires x <= y
    ensures Fixed3(x) <= Fixed3(y)
  {
    RoundMonotone(x * 1000.0, y * 1000.0);
  }

  lemma Fixed1Monotone(x: real, y: real)
    requires x <= y
    ensures Fixed1(x) <= Fixed1(y)
  {
    RoundMonotone(x * 10.0, y * 10.0);
  }

  lemma Fixed0Monotone(x: real, y: real)
    requires x <= y
    ensures Fixed0(x) <= Fixed0(y)
  {
    RoundMonotone(x, y);
  }

  /** Whole numbers are left alone by every precision. */
  lemma FixedInteger(n: int)
    ensures Fixed3(n as real) == n as real
    ensures Fixed1(n as real) == n as real
    ensures Fixed0(n as real) == n as real
  {
    RoundInteger(n * 1000);
    RoundInteger(n * 10);
    RoundInteger(n);
  }

  /** `x.toFixed(3)` of a value in [0, c] stays in [0, c]. */
  lemma Fixed3Bounded(x: real, c: nat)
    requires 0.0 <= x <= c as real
    ensures 0.0 <= Fixed3(x) <= c as real
  {
    FixedInteger(0);
    FixedInteger(c);
    Fixed3Monotone(0.0, x);
    Fixed3Monotone(x, c as real);
  }

  /** `x.toFixed(1)` of a value in [0, c] stays in [0, c]. */
  lemma Fixed1Bounded(x: real, c: nat)
    requires 0.0 <= x <= c as real
    ensures 0.0 <= Fixed1(x) <= c as real
  {
    FixedInteger(0);
    FixedInteger(c);
    Fixed1Monotone(0.0, x);
    Fixed1Monotone(x, c as real);
  }

  /** `x.toFixed(0)` of a value in [0, c] stays in [0, c]. */
  lemma Fixed0Bounded(x: real, c: nat)
    requires 0.0 <= x <= c as real
    ensures 0.0 <= Fixed0(x) <= c as real
  {
    FixedInteger(0);
    FixedInteger(c);
    Fixed0Monotone(0.0, x);
    Fixed0Monotone(x, c as real);
  }

  /** `den ? num / den : 0`. */
  function Ratio(num: nat, den: nat): (r: real)
    ensures r >= 0.0
    ensures den == 0 ==> r == 0.0
  {
    if den != 0 then num as real / den as real else 0.0
  }

  lemma DivMonotone(a: real, b: real, p: real)
    requires a <= b && p > 0.0
    ensures a / p <= b / p
  {
    assert (b / p - a / p) * p == b - a;
  }

  /** A ratio whose numerator is at most `c` times its denominator is at most `c`. */
  lemma RatioBounded(num: nat, den: nat, c: nat)
    requires num <= c * den
    ensures Ratio(num, den) <= c as real
  {
    if den != 0 {
      assert (num as real) <= (c as real) * (den as real);
      DivMonotone(num as real, (c as real) * (den as real), den as real);
    }
  }

  /** `Math.max(0, Math.min(1, x))`. */
  function Clamp01(x: real): (r: real)
    ensures 0.0 <= r <= 1.0
    ensures 0.0 <= x <= 1.0 ==> r == x
  {
    if x < 0.0 then 0.0 else if x > 1.0 then 1.0 else x
  }

  lemma Clamp01Monotone(x: real, y: real)
    requires x <= y
    ensures Clamp01(x) <= Clamp01(y)
  {
  }

  function Min(a: real, b: real): real { if a <= b then a else b }
  function Max(a: real, b: real): real { if a >= b then a else b }
}
