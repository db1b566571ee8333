/** Facts of arithmetic that the verifier does not find by itself. */
module Arithmetic {
  lemma OneMore(k: nat, n: nat)
    ensures (k + 1) * n == k * n + n
  {
  }

  lemma ModUnique(a: int, m: nat, q: int, r: nat)
    requires m > 0 && a == m * q + r && r < m
    ensures a / m == q && a % m == r
  {
    var q', r' := a / m, a % m;
    assert a == m * q' + r' && 0 <= r' < m;
    assert m * (q - q') == r' - r;
    if q - q' >= 1 {
      MulMonotone(m, 1, q - q');
    } else if q - q' <= -1 {
      MulMonotone(m, q - q', -1);
    }
  }

  lemma MulMonotone(m: nat, a: int, b: int)
    requires a <= b
    ensures m * a <= m * b
  {
  }

  lemma QuotientBelow(i: nat, n: nat, r: nat)
    requires n > 0 && i < n * r
    ensures i / n < r && i == (i / n) * n + i % n
  {
    var q := i / n;
    assert i == n * q + i % n;
    assert q >= r ==> n * q >= n * r;
  }

  lemma ModNext(i: nat, n: nat)
    requires n > 0
    ensures (i + 1) % n == if i % n + 1 == n then 0 else i % n + 1
  {
    var q := i / n;
    assert i == n * q + i % n;
    if i % n + 1 == n {
      assert n * (q + 1) == n * q + n;
      ModUnique(i + 1, n, q + 1, 0);
    } else {
      ModUnique(i + 1, n, q, i % n + 1);
    }
  }
}
