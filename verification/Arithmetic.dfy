/**
 Multiplication and division, where the solver needs the steps spelled out.
 */
module Arithmetic {

  lemma MulMono(a: nat, b: nat, p: nat)
    requires a <= b
    ensures a * p <= b * p
  {
  }

  lemma Split(i: nat, p: nat)
    requires p > 0
    ensures i == (i / p) * p + i % p && 0 <= i % p < p
  {
  }

  lemma SplitUnique(q: nat, r: nat, p: nat)
    requires r < p
    ensures (q * p + r) / p == q && (q * p + r) % p == r
  {
    var i := q * p + r;
    Split(i, p);
    if i / p < q {
      MulMono(i / p + 1, q, p);
    } else if i / p > q {
      MulMono(q + 1, i / p, p);
    }
  }
}
