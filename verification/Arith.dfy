/** The few facts about products and quotients that the proofs need. */
module Arith {
  lemma NonPositive(w: nat, x: int)
    requires x <= 0
    ensures w * x <= 0
  {
  }

  lemma Scale(w: nat, a: int, b: int)
    requires a <= b
    ensures w * a <= w * b
  {
    NonPositive(w, a - b);
    assert w * (a - b) == w * a - w * b;
  }

  lemma CancelFactor(w: nat, a: int, b: int)
    requires w * a < w * b
    ensures a < b
  {
    if b <= a { Scale(w, b, a); }
  }

  lemma DivUnique(n: nat, w: nat, k: int)
    requires w >= 1 && w * k <= n < w * k + w
    ensures n / w == k && n % w == n - w * k
  {
    assert n == w * (n / w) + n % w;
    assert w * (n / w + 1) == w * (n / w) + w;
    assert w * (k + 1) == w * k + w;
    if n / w < k {
      Scale(w, n / w + 1, k);
    } else if n / w > k {
      Scale(w, k + 1, n / w);
    }
  }
}
