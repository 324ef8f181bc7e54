/** Facts about natural-number division and remainder used by several modules. */
module Arith {

  lemma {:induction false} MulGap(s: nat, a: nat, b: nat)
    requires a < b
    ensures s * a + s <= s * b
  {
    assert s * b == s * a + s * (b - a);
    assert s * (b - a) == s + s * (b - a - 1);
  }

  /** Euclidean division is unique: `r == s * q + k` with `0 <= k < s` fixes both. */
  lemma {:induction false} DivModUnique(r: nat, s: nat, q: nat, k: nat)
    requires 0 <= k < s && r == s * q + k
    ensures r / s == q && r % s == k
  {
    var q', k' := r / s, r % s;
    assert r == s * q' + k';
    if q' < q {
      MulGap(s, q', q);
    } else if q' > q {
      MulGap(s, q, q');
    }
  }

  lemma {:induction false} DivStep(c: nat, s: nat)
    requires 0 < s <= c
    ensures c / s == (c - s) / s + 1 && c % s == (c - s) % s
  {
    var q := (c - s) / s;
    assert c - s == s * q + (c - s) % s;
    assert s * (q + 1) == s * q + s;
    DivModUnique(c, s, q + 1, (c - s) % s);
  }

  /** Division by a positive number keeps the order. */
  lemma {:induction false} DivMono(i: nat, j: nat, n: nat)
    requires n > 0 && i <= j
    ensures i / n <= j / n
  {
    assert i == n * (i / n) + i % n;
    assert j == n * (j / n) + j % n;
    if i / n > j / n {
      MulGap(n, j / n, i / n);
    }
  }

  /** Counting modulo `n`: one more step either moves the remainder on by one or wraps it to 0. */
  lemma {:induction false} ModSucc(k: nat, n: nat)
    requires n > 0
    ensures (k + 1) % n == if k % n + 1 == n then 0 else k % n + 1
  {
    var q := k / n;
    assert k == n * q + k % n;
    if k % n + 1 == n {
      assert k + 1 == n * (q + 1) + 0;
      DivModUnique(k + 1, n, q + 1, 0);
    } else {
      DivModUnique(k + 1, n, q, k % n + 1);
    }
  }
}
