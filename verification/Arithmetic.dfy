/** The little arithmetic the model needs. */
module Arithmetic {
  lemma Product(a: nat, b: nat)
    requires a > 0
    ensures a * b >= b
  {
    assert a * b == b + (a - 1) * b;
  }

  /** A wait that was doubled `n` times. */
  function Doubled(wait: int, n: nat): int { if n == 0 then wait else 2 * Doubled(wait, n - 1) }

  /** Quotient and remainder are the only such pair. */
  lemma DivModUnique(x: nat, n: nat, q: nat, r: nat)
    requires n > 0 && r < n && x == q * n + r
    ensures x / n == q && x % n == r
  {
    var q', r' := x / n, x % n;
    assert x == n * q' + r';
    if q != q' {
      Apart(n, q, q');
      assert false;
    }
  }

  /** Different multiples of n are at least n apart. */
  lemma Apart(n: nat, a: nat, b: nat)
    requires a != b
    ensures a * n >= n * b + n || n * b >= a * n + n
  {
    if a > b {
      Product(a - b, n);
      assert (a - b) * n == a * n - n * b;
    } else {
      Product(b - a, n);
      assert (b - a) * n == n * b - a * n;
    }
  }

  lemma RemainderRoom(n: nat, span: nat)
    requires 1 <= span <= n
    ensures n % span <= n - span
  {
    var q := n / span;
    assert n == span * q + n % span;
    if q == 0 {
      assert false;
    }
    Product(q, span);
    assert span * q == q * span;
  }
}
