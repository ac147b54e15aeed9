/**
 * Exact rational stand-in for `Math.round` on the non-negative values the page
 * rounds: a value is a fraction `num / den` with `den > 0`.
 */
module Rounding {

  /** `Math.round(num / den)`: the nearest integer, with halves rounded up. */
  function RoundHalfUp(num: nat, den: nat): (r: nat)
    requires den > 0
    ensures 2 * r * den <= 2 * num + den < 2 * (r + 1) * den
  {
    var q := (2 * num + den) / (2 * den);
    DivBounds(2 * num + den, 2 * den);
    assert 2 * q * den == q * (2 * den);
    assert 2 * (q + 1) * den == q * (2 * den) + 2 * den;
    q
  }

  lemma DivBounds(x: nat, d: nat)
    requires d > 0
    ensures (x / d) * d <= x < (x / d) * d + d
  {
  }

  /** Rounding never goes past an integer bound that the value itself respects. */
  lemma {:induction false} RoundAtMost(num: nat, den: nat, k: nat)
    requires den > 0
    requires num <= k * den
    ensures RoundHalfUp(num, den) <= k
  {
    var r := RoundHalfUp(num, den);
    if r > k {
      MulMono(k + 1, r, den);
    }
  }

  /** The rounded value of `x * f / 100` is at most `x` when the factor `f / 100` is at most one. */
  lemma {:induction false} ScaledAtMost(x: nat, f: nat)
    requires f <= 100
    ensures RoundHalfUp(x * f, 100) <= x
  {
    MulMono(f, 100, x);
    assert x * f <= x * 100;
    RoundAtMost(x * f, 100, x);
  }

  lemma MulMono(a: nat, b: nat, c: nat)
    requires a <= b
    ensures a * c <= b * c
  {
  }

  lemma MulStrict(a: nat, b: nat, c: nat)
    requires a < b && c > 0
    ensures a * c < b * c
  {
  }
}
