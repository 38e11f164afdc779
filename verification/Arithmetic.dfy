/** Division facts the solver does not find alone. */
module Arithmetic {
  lemma MultiplesApart(d: int, n: nat)
    ensures d >= 1 ==> d * n >= n
    ensures d <= -1 ==> d * n <= 0 - n
  {
  }

  lemma QuotientIs(i: int, n: nat, q: int, m: nat)
    requires n > 0 && i == q * n + m && m < n
    ensures i / n == q && i % n == m
  {
    var d := q - i / n;
    assert d * n == i % n - m;
    MultiplesApart(d, n);
  }

  /** Counting one further. */
  lemma NextQuotient(i: nat, n: nat)
    requires n > 0
    ensures i % n + 1 == n ==> (i + 1) / n == i / n + 1 && (i + 1) % n == 0
    ensures i % n + 1 < n ==> (i + 1) / n == i / n && (i + 1) % n == i % n + 1
  {
    var q, m := i / n, i % n;
    assert i == q * n + m;
    if m + 1 == n {
      assert i + 1 == (q + 1) * n;
      QuotientIs(i + 1, n, q + 1, 0);
    } else {
      QuotientIs(i + 1, n, q, m + 1);
    }
  }

  /** How many steps of at least `w` fit into `t`. */
  lemma StepsFit(k: nat, w: nat, t: nat)
    requires w > 0 && k * w <= t
    ensures k <= t / w
  {
    var q := t / w;
    assert t == q * w + t % w;
    assert (k - q) * w == k * w - q * w;
    MultiplesApart(k - q, w);
  }

  /** `n` times `x`, by repeated addition. */
  function Sum(n: nat, x: int): int {
    if n == 0 then 0 else Sum(n - 1, x) + x
  }

  lemma {:induction false} SumIsProduct(n: nat, x: int)
    ensures Sum(n, x) == n * x
  {
    if n > 0 {
      SumIsProduct(n - 1, x);
      assert n * x == (n - 1) * x + x;
    }
  }

  /** If `n` starts are at least `w` apart within `t`, then `n` groups of `x` are at most x * (t / w + 1). */
  lemma SumsFit(n: nat, w: int, t: nat, x: nat)
    requires n > 0 && w > 0 && Sum(n - 1, w) <= t
    ensures Sum(n, x) <= x * (t / w + 1)
  {
    SumIsProduct(n - 1, w);
    SumIsProduct(n, x);
    StepsFit(n - 1, w, t);
    ProductOrdered(x, n, t / w + 1);
  }

  lemma ProductOrdered(x: nat, a: nat, b: nat)
    requires a <= b
    ensures a * x <= x * b
  {
  }
}
