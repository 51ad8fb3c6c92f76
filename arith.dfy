/**
 * Integer facts that the block geometry and the palette index rest on.
 * Dafny's `/` and `%` are Euclidean; every use in this model has a
 * non-negative dividend and a positive divisor, where C's truncating
 * division agrees with it.
 */
module Arith {

  function Min(a: int, b: int): int
  {
    if a <= b then a else b
  }

  /** Number of blocks of size `d` needed to cover `n` units: the ceiling of n / d. */
  function CeilDiv(n: int, d: int): (q: int)
    requires n > 0 && d > 0
    ensures q >= 1 && (q - 1) * d < n <= q * d
  {
    CeilDivBounds(n, d);
    (n + d - 1) / d
  }

  lemma MulLe(a: int, b: int, d: int)
    requires a <= b && 0 <= d
    ensures a * d <= b * d
  {
    assert b * d - a * d == (b - a) * d;
  }

  lemma MulLt(a: int, b: int, d: int)
    requires a < b && 0 < d
    ensures a * d < b * d
  {
    assert b * d - a * d == (b - a) * d;
    MulLe(1, b - a, d);
  }

  /** Division with remainder has exactly one answer. */
  lemma DivModUnique(n: int, d: int, q: int, r: int)
    requires d > 0 && 0 <= r < d && n == q * d + r
    ensures n / d == q && n % d == r
  {
    var q', r' := n / d, n % d;
    assert n == q' * d + r';
    if q' < q {
      MulLe(q' + 1, q, d);
    } else if q < q' {
      MulLe(q + 1, q', d);
    }
  }

  lemma CeilDivBounds(n: int, d: int)
    requires n > 0 && d > 0
    ensures (n + d - 1) / d >= 1
    ensures ((n + d - 1) / d - 1) * d < n <= ((n + d - 1) / d) * d
  {
    var q, r := (n + d - 1) / d, (n + d - 1) % d;
    assert n + d - 1 == q * d + r;
    assert (q - 1) * d == q * d - d;
    if q < 1 {
      MulLe(q, 0, d);
    }
  }

  /** A cell index k lies inside the covered range exactly when it is below the ceiling. */
  lemma BelowCeil(k: int, n: int, d: int)
    requires n > 0 && d > 0 && k >= 0
    ensures k * d < n <==> k < CeilDiv(n, d)
  {
    var c := CeilDiv(n, d);
    if k < c {
      MulLe(k, c - 1, d);
    } else {
      MulLe(c, k, d);
    }
  }
}
