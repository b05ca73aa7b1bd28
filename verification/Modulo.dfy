/** Remainders by a modulus that is not a constant, from one uniqueness argument. */
module Modulo {

  lemma {:induction false} NotNegative(a: nat, n: nat)
    ensures a * n >= 0
    decreases a
  {
    if a == 0 {
    } else {
      NotNegative(a - 1, n);
      assert a * n == (a - 1) * n + n;
    }
  }

  lemma MultipleIsFar(q: int, n: nat)
    requires q != 0 && n > 0
    ensures q * n >= n || q * n + n <= 0
  {
    if q > 0 {
      NotNegative(q - 1, n);
      assert q * n == n + (q - 1) * n;
    } else {
      NotNegative(-q - 1, n);
      assert q * n + n == 0 - (-q - 1) * n;
    }
  }

  lemma RemainderUnique(x: nat, n: nat, k: nat, r: nat)
    requires r < n && x == k * n + r
    ensures x % n == r
  {
    var q := x / n - k;
    assert q * n == x / n * n - k * n;
    if q != 0 { MultipleIsFar(q, n); }
  }

  lemma ModOnce(x: nat, n: nat)
    requires 0 < n && x < 2 * n
    ensures x % n == if x < n then x else x - n
  {
    if x < n {
      RemainderUnique(x, n, 0, x);
    } else {
      RemainderUnique(x, n, 1, x - n);
    }
  }
}
