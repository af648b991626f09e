/** Numeric helpers: rounding half away from zero to a number of decimals,
    and the lenient integer/float readers used for CSV cells. Money is a
    `real` here, so the rounding is exact rather than subject to binary
    floating point. */
module Utils {
  import opened Values

  function Pow10(d: nat): (p: nat)
    ensures p >= 1
  {
    if d == 0 then 1 else 10 * Pow10(d - 1)
  }

  /** Python's `int(r)` on a float: truncation toward zero. */
  function Trunc(r: real): int {
    if r >= 0.0 then r.Floor else -((-r).Floor)
  }

  /** Rounding half away from zero of a value already scaled to whole units. */
  function RoundHalfAway(y: real): int {
    if y < 0.0 then Trunc(y - 0.5) else Trunc(y + 0.5)
  }

  /** `x` expressed in units of 1/p. */
  function Scale(x: real, p: real): real { x * p }

  /** Rounding half away from zero to a multiple of 1/p. */
  function RoundAt(x: real, p: real): real
    requires p > 0.0
  {
    RoundHalfAway(Scale(x, p)) as real / p
  }

  /** `math_round(x, digits)`: scale by 10^digits, move half a unit away from
      zero, truncate toward zero, scale back. */
  function MathRound(x: real, digits: nat): real {
    RoundAt(x, Pow10(digits) as real)
  }

  /** Rounding to two decimals, the precision of every monetary figure. */
  function Round2(x: real): real {
    MathRound(x, 2)
  }

  // Facts about RoundAt for an arbitrary positive scale.

  lemma HalfAwayOdd(y: real)
    ensures RoundHalfAway(-y) == -RoundHalfAway(y)
  {
  }

  lemma HalfAwayClose(y: real)
    ensures -0.5 <= RoundHalfAway(y) as real - y <= 0.5
  {
  }

  lemma HalfAwayOfWhole(k: int)
    ensures RoundHalfAway(k as real) == k
  {
  }

  lemma HalfAwayMonotone(y: real, z: real)
    requires 0.0 <= y <= z
    ensures 0 <= RoundHalfAway(y) <= RoundHalfAway(z)
  {
  }

  lemma RoundAtOdd(x: real, p: real)
    requires p > 0.0
    ensures RoundAt(-x, p) == -RoundAt(x, p)
  {
    assert Scale(-x, p) == -Scale(x, p);
    HalfAwayOdd(Scale(x, p));
  }

  lemma RoundAtScaled(x: real, p: real)
    requires p > 0.0
    ensures RoundAt(x, p) * p == RoundHalfAway(Scale(x, p)) as real
  {
  }

  lemma RoundAtClose(x: real, p: real)
    requires p >= 1.0
    ensures -0.5 / p <= RoundAt(x, p) - x <= 0.5 / p
  {
    var y := Scale(x, p);
    var k := RoundHalfAway(y) as real;
    HalfAwayClose(y);
    assert RoundAt(x, p) - x == (k - y) / p;
  }

  lemma RoundAtOfMultiple(k: int, p: real)
    requires p > 0.0
    ensures RoundAt(k as real / p, p) == k as real / p
  {
    assert Scale(k as real / p, p) == k as real;
    HalfAwayOfWhole(k);
  }

  lemma RoundAtMonotone(x: real, y: real, p: real)
    requires 0.0 <= x <= y && p > 0.0
    ensures 0.0 <= RoundAt(x, p) <= RoundAt(y, p)
  {
    assert 0.0 <= Scale(x, p) <= Scale(y, p);
    HalfAwayMonotone(Scale(x, p), Scale(y, p));
  }

  lemma RoundAtSum(a: real, b: real, p: real)
    requires p > 0.0
    ensures RoundAt(RoundAt(a, p) + RoundAt(b, p), p) == RoundAt(a, p) + RoundAt(b, p)
  {
    var ka := RoundHalfAway(Scale(a, p));
    var kb := RoundHalfAway(Scale(b, p));
    assert RoundAt(a, p) + RoundAt(b, p) == (ka + kb) as real / p;
    RoundAtOfMultiple(ka + kb, p);
  }

  // The properties of math_round.

  /** For x >= 0 the result is floor(x * 10^d + 1/2) / 10^d: halves go up. */
  lemma RoundNonNegative(x: real, d: nat)
    requires x >= 0.0
    ensures MathRound(x, d) == (Scale(x, Pow10(d) as real) + 0.5).Floor as real / Pow10(d) as real
  {
    var p := Pow10(d) as real;
    assert Scale(x, p) >= 0.0;
  }

  /** For x < 0 the result truncates x * 10^d - 1/2 toward zero, which is
      minus the rounding of |x|: halves go away from zero. */
  lemma RoundNegative(x: real, d: nat)
    requires x < 0.0
    ensures MathRound(x, d) == -((Scale(-x, Pow10(d) as real) + 0.5).Floor as real) / Pow10(d) as real
  {
    var p := Pow10(d) as real;
    assert Scale(x, p) < 0.0;
    assert -Scale(x, p) == Scale(-x, p);
  }

  /** Rounding commutes with negation. */
  lemma RoundOdd(x: real, d: nat)
    ensures MathRound(-x, d) == -MathRound(x, d)
  {
    RoundAtOdd(x, Pow10(d) as real);
  }

  /** The result is a whole number of units of 10^-d. */
  lemma RoundIsMultiple(x: real, d: nat)
    ensures MathRound(x, d) * Pow10(d) as real == RoundHalfAway(Scale(x, Pow10(d) as real)) as real
  {
    RoundAtScaled(x, Pow10(d) as real);
  }

  /** The rounded value is within half a unit of the last kept decimal. */
  lemma RoundAccuracy(x: real, d: nat)
    ensures -0.5 / Pow10(d) as real <= MathRound(x, d) - x <= 0.5 / Pow10(d) as real
  {
    RoundAtClose(x, Pow10(d) as real);
  }

  /** A value that is already a multiple of 10^-d is left unchanged. */
  lemma RoundOfMultiple(k: int, d: nat)
    ensures MathRound(k as real / Pow10(d) as real, d) == k as real / Pow10(d) as real
  {
    RoundAtOfMultiple(k, Pow10(d) as real);
  }

  /** Rounding twice is rounding once. */
  lemma RoundIdempotent(x: real, d: nat)
    ensures MathRound(MathRound(x, d), d) == MathRound(x, d)
  {
    RoundAtOfMultiple(RoundHalfAway(Scale(x, Pow10(d) as real)), Pow10(d) as real);
  }

  /** On non-negative values rounding is monotone and stays non-negative. */
  lemma RoundMonotone(x: real, y: real, d: nat)
    requires 0.0 <= x <= y
    ensures 0.0 <= MathRound(x, d) <= MathRound(y, d)
  {
    RoundAtMonotone(x, y, Pow10(d) as real);
  }

  /** The sum of two rounded values is a multiple of 10^-d, so rounding it
      again changes nothing. */
  lemma RoundOfSumOfRounded(a: real, b: real, d: nat)
    ensures MathRound(MathRound(a, d) + MathRound(b, d), d) == MathRound(a, d) + MathRound(b, d)
  {
    RoundAtSum(a, b, Pow10(d) as real);
  }

  /** `safe_int(val)`: 0 for a missing or empty cell, otherwise Python's
      `int(val)`, given here as `parse`; `None` stands for the ValueError a
      text that is not an integer raises. */
  function SafeInt(val: Option<string>, parse: string -> Option<int>): (r: Option<int>)
    ensures (val == None || val == Some("")) ==> r == Some(0)
    ensures (val.Some? && val.value != "") ==> r == parse(val.value)
  {
    if val.None? || |val.value| == 0 then Some(0) else parse(val.value)
  }

  /** `safe_float(val)`: as `SafeInt`, with Python's `float(val)` as `parse`. */
  function SafeFloat(val: Option<string>, parse: string -> Option<real>): (r: Option<real>)
    ensures (val == None || val == Some("")) ==> r == Some(0.0)
    ensures (val.Some? && val.value != "") ==> r == parse(val.value)
  {
    if val.None? || |val.value| == 0 then Some(0.0) else parse(val.value)
  }
}
