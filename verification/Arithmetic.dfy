/** The few facts about products and quotients of naturals the other modules need. */
module Arithmetic {
  // A quotient is at most `q` exactly when the dividend is below d * (q + 1).
  lemma {:induction false} QuotientBound(x: nat, d: nat, q: nat)
    requires d > 0
    ensures x / d <= q <==> x < d * q + d
  {
    var p, r := x / d, x % d;
    assert x == d * p + r;
    if p <= q {
      ProductMonotone(p, q, d, d);
    } else {
      ProductMonotone(q + 1, p, d, d);
    }
  }

  lemma {:induction false} QuotientMonotone(x: nat, y: nat, d: nat)
    requires d > 0 && x <= y
    ensures x / d <= y / d
  {
    QuotientBound(y, d, y / d);
    QuotientBound(x, d, y / d);
  }

  lemma {:induction false} QuotientExact(q: nat, d: nat)
    requires d > 0
    ensures d * q / d == q
  {
    QuotientBound(d * q, d, q);
    if q > 0 {
      QuotientBound(d * q, d, q - 1);
    }
  }

  lemma {:induction false} ProductMonotone(a: nat, b: nat, c: nat, d: nat)
    requires a <= b && c <= d
    ensures a * c <= b * d
  {
    assert a * c <= b * c;
  }

  lemma {:induction false} QuotientAtMost(a: nat, b: nat, w: nat)
    requires b > 0 && a <= b
    ensures a * w / b <= w
  {
    ProductMonotone(a, b, w, w);
    QuotientMonotone(a * w, b * w, b);
    QuotientExact(w, b);
  }

  lemma {:induction false} QuotientUnique(x: nat, d: nat, q: nat)
    requires d > 0 && q * d <= x < q * d + d
    ensures x / d == q
  {
    QuotientBound(x, d, q);
    if q > 0 {
      QuotientBound(x, d, q - 1);
    }
  }

  lemma {:induction false} QuotientTimes(x: nat, d: nat)
    requires d > 0
    ensures d * (x / d) <= x < d * (x / d) + d
  {
  }
}
