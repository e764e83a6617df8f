/** Shared helpers: optional values, JavaScript rounding and clamping on integers. */
module Common {

  /** A value that may be absent (JavaScript `null`). */
  datatype Option<+T> = None | Some(value: T) {
    function GetOr(default: T): T {
      match this
      case Some(v) => v
      case None => default
    }
  }

  /** The `status` field of both slices: `'idle' | 'loading' | 'succeeded' | 'failed'`. */
  datatype Status = Idle | Loading | Succeeded | Failed

  function Min(a: int, b: int): (r: int)
    ensures r <= a && r <= b
    ensures r == a || r == b
  {
    if a <= b then a else b
  }

  function Max(a: int, b: int): (r: int)
    ensures r >= a && r >= b
    ensures r == a || r == b
  {
    if a >= b then a else b
  }

  /** `Math.round(n / d)`: the integer nearest to n/d, halves rounded up (towards +infinity). */
  function RoundDiv(n: int, d: int): (r: int)
    requires d > 0
    ensures 2 * d * r <= 2 * n + d < 2 * d * (r + 1)
  {
    (2 * n + d) / (2 * d)
  }

  /** `Math.round(x)` for a real x: floor(x + 1/2). */
  function RoundReal(x: real): (r: int)
    ensures r as real <= x + 0.5 < r as real + 1.0
  {
    (x + 0.5).Floor
  }

  /** Rounding an integer quotient that is exact gives the quotient itself. */
  lemma RoundDivExact(q: int, d: int)
    requires d > 0
    ensures RoundDiv(q * d, d) == q
  {
    var r := RoundDiv(q * d, d);
    if r < q {
      MulMonotone(2 * d, r + 1, q);
    } else if r > q {
      MulMonotone(2 * d, q + 1, r);
    }
  }

  /** Rounding is monotone in the numerator. */
  lemma RoundDivMonotone(n: int, m: int, d: int)
    requires d > 0 && n <= m
    ensures RoundDiv(n, d) <= RoundDiv(m, d)
  {
    var a, b := RoundDiv(n, d), RoundDiv(m, d);
    if a > b {
      MulMonotone(2 * d, b + 1, a);
    }
  }

  /** A non-negative numerator never rounds below zero. */
  lemma RoundDivNonNegative(n: int, d: int)
    requires d > 0 && n >= 0
    ensures RoundDiv(n, d) >= 0
  {
    RoundDivMonotone(0, n, d);
    RoundDivExact(0, d);
  }

  lemma MulMonotone(k: int, a: int, b: int)
    requires k >= 0 && a <= b
    ensures k * a <= k * b
  {
  }
}
