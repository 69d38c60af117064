/**
 * The numeric conversions the components share: `parseFloat(text) || 0`
 * with the parse given as an `Option`, and `Math.round`.
 */
module Numbers {
  import opened Wrappers

  /** `parseFloat(text) || 0`: a failed parse (NaN) and a parsed 0 both give 0. */
  function ParseOrZero(parsed: Option<real>): (v: real)
    ensures parsed.Some? ==> v == parsed.value
    ensures parsed.None? ==> v == 0.0
  {
    parsed.GetOr(0.0)
  }

  /** `Math.round`: the nearest integer, halves rounded towards +∞. */
  function Round(x: real): (n: int)
    ensures n as real - 0.5 <= x < n as real + 0.5
  {
    (x + 0.5).Floor
  }

  /** A non-negative amount times a fraction in [0, 1] lies between 0 and the amount. */
  lemma FractionBounds(x: real, q: real)
    requires 0.0 <= x && 0.0 <= q <= 1.0
    ensures 0.0 <= x * q <= x
  {
    assert x * q <= x * 1.0 by {
      assert x * (1.0 - q) >= 0.0;
    }
  }
}
