/** Division facts by a variable positive divisor, proved from the division equation. */
module Arithmetic {
  lemma MulGap(a: int, b: int, k: int)
    requires a < b && k > 0
    ensures a * k + k <= b * k
  {
    var d := b - a;
    assert b * k == a * k + d * k;
    assert d * k >= k by {
      assert (d - 1) * k >= 0;
    }
  }

  lemma QuotientUnique(k: int, q: int, m: int, q': int, m': int)
    requires k > 0 && 0 <= m < k && 0 <= m' < k
    requires q * k + m == q' * k + m'
    ensures q == q' && m == m'
  {
    if q < q' {
      MulGap(q, q', k);
    } else if q' < q {
      MulGap(q', q, k);
    }
  }

  lemma DivMod(n: int, k: int)
    requires k > 0
    ensures n == (n / k) * k + n % k && 0 <= n % k < k
  {
  }

  lemma DivModOf(n: int, k: int, q: int, m: int)
    requires k > 0 && n == q * k + m && 0 <= m < k
    ensures n / k == q && n % k == m
  {
    DivMod(n, k);
    QuotientUnique(k, q, m, n / k, n % k);
  }

  /** Counting up by one passes a multiple of `k` exactly when the new number is one. */
  lemma NextMultiple(n: int, k: int)
    requires k > 1
    ensures (n + 1) % k == 0 ==> (n + 1) / k == n / k + 1
    ensures (n + 1) % k != 0 ==> (n + 1) / k == n / k
  {
    DivMod(n, k);
    var q, m := n / k, n % k;
    if m + 1 == k {
      assert (q + 1) * k == q * k + k;
      DivModOf(n + 1, k, q + 1, 0);
    } else {
      DivModOf(n + 1, k, q, m + 1);
    }
  }

  lemma DivMonotone(a: int, b: int, k: int)
    requires k > 0 && a <= b
    ensures a / k <= b / k
    ensures a < b && b % k == 0 ==> a / k < b / k
  {
    DivMod(a, k);
    DivMod(b, k);
    if b / k < a / k {
      MulGap(b / k, a / k, k);
    }
  }

  lemma DivNonnegative(a: int, k: int)
    requires k > 0 && a >= 0
    ensures a / k >= 0
  {
    DivMod(a, k);
    if a / k < 0 {
      MulGap(a / k, 0, k);
    }
  }

  lemma MulMonotone(a: int, b: int, k: int)
    requires a <= b && k > 0
    ensures k * a <= k * b
  {
    if a < b {
      MulGap(a, b, k);
    }
  }

  lemma ExactMultiple(n: int, k: int, q: int)
    requires k > 0 && n / k == q && n % k == 0
    ensures n == k * q
  {
    DivMod(n, k);
  }
}
