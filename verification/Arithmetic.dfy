/** The few facts about products and quotients that the other modules need. */
module Arithmetic {

  lemma MulMono(a: nat, b: nat, c: nat)
    requires a <= b
    ensures a * c <= b * c && c * a <= c * b
  {
  }

  lemma QuotientBounds(n: nat, d: nat)
    requires d > 0
    ensures n / d * d <= n < (n / d + 1) * d
  {
  }

  /** A quotient at most k is the same as a dividend below (k + 1) * d. */
  lemma {:induction false} QuotientAtMost(n: nat, d: nat, k: nat)
    requires d > 0
    ensures n / d <= k <==> n < (k + 1) * d
  {
    QuotientBounds(n, d);
    if n / d <= k {
      MulMono(n / d + 1, k + 1, d);
    } else {
      MulMono(k + 1, n / d, d);
    }
  }

  /** A quotient at least k is the same as a dividend of at least k * d. */
  lemma {:induction false} QuotientAtLeast(n: nat, d: nat, k: nat)
    requires d > 0
    ensures k <= n / d <==> k * d <= n
  {
    QuotientBounds(n, d);
    if k <= n / d {
      MulMono(k, n / d, d);
    } else {
      MulMono(n / d + 1, k, d);
    }
  }

  lemma {:induction false} QuotientUnique(n: nat, d: nat, q: nat, r: nat)
    requires r < d
    requires n == q * d + r
    ensures n / d == q
  {
    QuotientAtLeast(n, d, q);
    QuotientAtMost(n, d, q);
  }

  lemma {:induction false} DivAntitone(n: nat, d: nat, e: nat)
    requires 0 < d <= e
    ensures n / e <= n / d
  {
    QuotientBounds(n, e);
    MulMono(d, e, n / e);
    QuotientAtLeast(n, d, n / e);
  }

  lemma {:induction false} MulDiv(a: nat, b: nat)
    requires b > 0
    ensures a * b / b == a
  {
    QuotientUnique(a * b, b, a, 0);
  }
}
