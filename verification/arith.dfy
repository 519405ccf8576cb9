/** Small facts about Euclidean division that the solver does not find alone.
    Used by the components whose counters and bank numbers wrap with `%`. */
module Arith {

  lemma MulLe(a: int, b: int, n: int)
    requires a <= b && n >= 0
    ensures a * n <= b * n
  {
    assert b * n - a * n == (b - a) * n;
  }

  /** Quotient and remainder are determined by any decomposition
      `x == q * n + r` with `0 <= r < n`. */
  lemma ModUnique(x: int, n: int, q: int, r: int)
    requires n > 0 && 0 <= r < n && x == q * n + r
    ensures x % n == r && x / n == q
  {
    var q' := x / n;
    var r' := x % n;
    assert x == q' * n + r';
    if q' > q {
      MulLe(q + 1, q', n);
      assert false;
    } else if q' < q {
      MulLe(q' + 1, q, n);
      assert false;
    }
  }

  /** Taking the remainder before a successor does not change the remainder after it. */
  lemma ModSucc(a: nat, n: nat)
    requires n > 0
    ensures (a % n + 1) % n == (a + 1) % n
  {
    var q := a / n;
    var r := a % n;
    assert a == q * n + r;
    if r + 1 < n {
      ModUnique(a + 1, n, q, r + 1);
      ModUnique(r + 1, n, 0, r + 1);
    } else {
      ModUnique(a + 1, n, q + 1, 0);
      ModUnique(r + 1, n, 1, 0);
    }
  }

  /** Dividing a natural number by a positive one never makes it larger. */
  lemma DivLe(x: nat, d: nat)
    requires d >= 1
    ensures x / d <= x
  {
    assert x == d * (x / d) + x % d;
    MulLe(1, d, x / d);
  }

  /** A value below `n * d` has quotient below `n`. */
  lemma DivBound(x: nat, d: nat, n: nat)
    requires d >= 1 && x < n * d
    ensures x / d < n
  {
    var q := x / d;
    assert x == q * d + x % d;
    if q >= n {
      MulLe(n, q, d);
      assert false;
    }
  }

  /** An offset inside bank `b` of `count` equal-sized banks stays inside
      the `count * size` bytes they occupy. */
  lemma BankBound(b: nat, count: nat, size: nat, offset: nat)
    requires b < count && offset < size
    ensures b * size + offset < count * size
  {
    MulLe(b + 1, count, size);
  }

  /** Bank `b` at `offset` is recovered from the flat address by division
      and remainder, and stays below `count * size`. */
  lemma BankDecompose(b: nat, count: nat, size: nat, offset: nat)
    requires b < count && offset < size
    ensures b * size + offset < count * size
    ensures (b * size + offset) % size == offset
    ensures (b * size + offset) / size == b
  {
    var x := b * size + offset;
    BankBound(b, count, size, offset);
    ModUnique(x, size, b, offset);
  }

  lemma DivExact(q: nat, d: nat)
    requires d > 0
    ensures q * d / d == q
  {
    BankDecompose(q, q + 1, d, 0);
  }

  /** `p` units of `k` banks each are `p * k` banks. */
  lemma Units(p: nat, unit: nat, bank: nat, k: nat)
    requires bank > 0 && unit == k * bank
    ensures p * unit / bank == p * k
  {
    assert p * unit == (p * k) * bank;
    DivExact(p * k, bank);
  }
}
