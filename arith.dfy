/** Facts about Euclidean division used by the cycle and clock proofs. */
module Arith {

  /** `d * n >= n` for positive `d` and `n`. */
  lemma {:induction false} MulAtLeast(d: int, n: int)
    requires d >= 1 && n > 0
    ensures d * n >= n
  {
    if d > 1 {
      MulAtLeast(d - 1, n);
      assert d * n == (d - 1) * n + n;
    }
  }

  /** Euclidean quotients and remainders are unique. */
  lemma DivModUnique(a: int, q: int, r: int, n: int)
    requires n > 0 && 0 <= r < n && a == q * n + r
    ensures a / n == q && a % n == r
  {
    var q', r' := a / n, a % n;
    var d := q - q';
    assert d * n == r' - r;
    if d > 0 {
      MulAtLeast(d, n);
    } else if d < 0 {
      MulAtLeast(-d, n);
    }
  }

  lemma ModSmall(x: int, n: int)
    requires 0 <= x < n
    ensures x % n == x
  {
    DivModUnique(x, 0, x, n);
  }

  /** How a remainder moves on when its dividend grows by one. */
  lemma ModIncrement(x: int, n: int)
    requires n > 0
    ensures (x + 1) % n == if x % n + 1 == n then 0 else x % n + 1
  {
    var q, m := x / n, x % n;
    if m + 1 == n {
      assert x + 1 == (q + 1) * n + 0;
      DivModUnique(x + 1, q + 1, 0, n);
    } else {
      DivModUnique(x + 1, q, m + 1, n);
    }
  }
}
