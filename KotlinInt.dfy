/**
 * Kotlin's `Int` division and remainder. Both truncate toward zero, so the
 * remainder takes the sign of the dividend; Dafny's own `/` and `%` are
 * Euclidean, so the two differ for negative dividends.
 */
module KotlinInt {

  /** `a % b` on Kotlin `Int`, for a positive divisor. */
  function Rem(a: int, b: int): (r: int)
    requires b > 0
    ensures -b < r < b
    ensures a >= 0 ==> r >= 0
    ensures a < 0 ==> r <= 0
  {
    if a >= 0 then a % b else -((-a) % b)
  }

  /** `a / b` on Kotlin `Int`, for a positive divisor. */
  function Div(a: int, b: int): (q: int)
    requires b > 0
    ensures q * b + Rem(a, b) == a
  {
    if a >= 0 then a / b else -((-a) / b)
  }

  /** For a non-negative dividend Kotlin and Dafny agree. */
  lemma NonNegativeAgrees(a: int, b: int)
    requires a >= 0 && b > 0
    ensures Div(a, b) == a / b && Rem(a, b) == a % b
  {
  }

  lemma MulAtLeast(d: int, k: int)
    requires d > 0 && k >= 1
    ensures d * k >= d
  {
    assert d * k == d * (k - 1) + d;
  }

  /** Quotient and remainder are determined by `a == d * q + c` with `0 <= c < d`. */
  lemma DivModUnique(a: int, d: int, q: int, c: int)
    requires d > 0 && 0 <= c < d && a == d * q + c
    ensures a / d == q && a % d == c
  {
    var q', c' := a / d, a % d;
    assert d * (q' - q) == c - c' by {
      assert d * q' + c' == d * q + c;
    }
    if q' > q {
      MulAtLeast(d, q' - q);
    } else if q' < q {
      MulAtLeast(d, q - q');
    }
  }
}
