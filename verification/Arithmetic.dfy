/** The little nonlinear arithmetic that the other modules need, kept away from their proofs. */
module Arithmetic {

  function Times(a: nat, b: nat): nat {
    a * b
  }

  lemma TimesNext(a: nat, b: nat)
    ensures Times(a, b + 1) == Times(a, b) + a
  {
  }

  lemma TimesNextLeft(a: nat, b: nat)
    ensures Times(a + 1, b) == Times(a, b) + b
  {
  }

  lemma OneChunkLess(n: nat, size: nat)
    requires 1 <= size <= n
    ensures n / size == (n - size) / size + 1 && n % size == (n - size) % size
  {
    var q, r := (n - size) / size, (n - size) % size;
    assert n == (q + 1) * size + r;
    QuotientUnique(n, size, q + 1, r);
  }

  lemma QuotientUnique(n: nat, size: nat, q: nat, r: nat)
    requires size >= 1 && n == q * size + r && r < size
    ensures n / size == q && n % size == r
  {
    SameQuotient(size, q, r, n / size, n % size);
  }

  /** One more: on to the next multiple, or one further from the last. */
  lemma OneFurther(n: nat, size: nat)
    requires size >= 1
    ensures if n % size + 1 == size then (n + 1) / size == n / size + 1 && (n + 1) % size == 0
            else (n + 1) / size == n / size && (n + 1) % size == n % size + 1
  {
    var q, r := n / size, n % size;
    assert n == q * size + r;
    if r + 1 == size {
      assert n + 1 == (q + 1) * size + 0;
      QuotientUnique(n + 1, size, q + 1, 0);
    } else {
      QuotientUnique(n + 1, size, q, r + 1);
    }
  }

  lemma {:induction false} QuotientGrows(m: nat, n: nat, size: nat)
    requires size >= 1 && m <= n
    ensures m / size <= n / size
  {
    if m < n {
      QuotientGrows(m, n - 1, size);
      OneFurther(n - 1, size);
    }
  }

  lemma SameQuotient(size: nat, q: int, r: nat, p: int, t: nat)
    requires r < size && t < size && q * size + r == p * size + t
    ensures p == q && t == r
  {
    assert (p - q) * size == r - t && (q - p) * size == t - r;
    if p > q {
      AtLeastOne(p - q, size);
    } else if p < q {
      AtLeastOne(q - p, size);
    }
  }

  lemma AtLeastOne(d: int, size: nat)
    requires d >= 1
    ensures d * size >= size
  {
    assert (d - 1) * size >= 0;
  }
}
