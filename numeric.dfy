/** Decimal rounding as numpy's `round(x, d)` performs it, stated on exact reals:
    the nearest multiple of 10^-d, ties going to the even neighbour. Binary
    floating point is not modelled. */
module Numeric {

  function Pow10(d: nat): (p: real)
    ensures p >= 1.0
  {
    if d == 0 then 1.0 else 10.0 * Pow10(d - 1)
  }

  predicate IsInteger(y: real) {
    y.Floor as real == y
  }

  /** v has at most d decimals: v * 10^d is an integer. */
  predicate HasDecimals(v: real, d: nat) {
    IsInteger(v * Pow10(d))
  }

  /** The integer nearest to y; a tie goes to the even integer. */
  function RoundHalfEvenInt(y: real): (n: int)
    ensures y - 0.5 <= n as real <= y + 0.5
    ensures (n as real == y - 0.5 || n as real == y + 0.5) ==> n % 2 == 0
    ensures IsInteger(y) ==> n as real == y
  {
    var f := y.Floor;
    var frac := y - f as real;
    if frac > 0.5 then f + 1
    else if frac < 0.5 then f
    else if f % 2 == 0 then f
    else f + 1
  }

  /** round(x, d): x rounded half-to-even to d decimals. The result has d
      decimals and lies within half a unit of the d-th decimal of x. */
  function Round(x: real, d: nat): (r: real)
    ensures HasDecimals(r, d)
    ensures x - 0.5 / Pow10(d) <= r <= x + 0.5 / Pow10(d)
  {
    var n := RoundHalfEvenInt(x * Pow10(d));
    ScaleBack(n, d, x);
    n as real / Pow10(d)
  }

  lemma ScaleBack(n: int, d: nat, x: real)
    requires x * Pow10(d) - 0.5 <= n as real <= x * Pow10(d) + 0.5
    ensures HasDecimals(n as real / Pow10(d), d)
    ensures x - 0.5 / Pow10(d) <= n as real / Pow10(d) <= x + 0.5 / Pow10(d)
  {
    var p := Pow10(d);
    DivTimes(n as real, p);
    assert (n as real / p * p).Floor == n;
    LowerBound(n as real, p, x);
    UpperBound(n as real, p, x);
  }

  lemma DivTimes(y: real, p: real)
    requires p > 0.0
    ensures y / p * p == y
  {
  }

  lemma LowerBound(y: real, p: real, x: real)
    requires p > 0.0 && x * p - 0.5 <= y
    ensures x - 0.5 / p <= y / p
  {
    assert (x * p - 0.5) / p == x - 0.5 / p;
    DivMonotone(x * p - 0.5, y, p);
  }

  lemma UpperBound(y: real, p: real, x: real)
    requires p > 0.0 && y <= x * p + 0.5
    ensures y / p <= x + 0.5 / p
  {
    assert (x * p + 0.5) / p == x + 0.5 / p;
    DivMonotone(y, x * p + 0.5, p);
  }

  lemma DivMonotone(a: real, b: real, p: real)
    requires p > 0.0 && a <= b
    ensures a / p <= b / p
  {
  }

  /** A value that already has d decimals is left unchanged by round(., d). */
  lemma RoundKeepsDecimals(v: real, d: nat)
    requires HasDecimals(v, d)
    ensures Round(v, d) == v
  {
    var y := v * Pow10(d);
    assert IsInteger(y);
    var n := RoundHalfEvenInt(y);
    assert n as real == y;
    assert Round(v, d) == n as real / Pow10(d);
    MulDivCancel(v, Pow10(d));
  }

  lemma MulDivCancel(v: real, p: real)
    requires p > 0.0
    ensures v * p / p == v
  {
  }

  /** Multiplying a value of d decimals by a unit factor and rounding to d
      decimals gives the value back. */
  lemma RoundUnitFactor(x: real, g: real, d: nat)
    requires g == 1.0 && HasDecimals(x, d)
    ensures Round(x * g, d) == x
  {
    assert x * g == x;
    RoundKeepsDecimals(x, d);
  }

  /** Rounding twice to the same precision is rounding once. */
  lemma RoundIdempotent(x: real, d: nat)
    ensures Round(Round(x, d), d) == Round(x, d)
  {
    RoundKeepsDecimals(Round(x, d), d);
  }
}
