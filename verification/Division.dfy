/** Quotients, characterised by multiplication. */
module Division {

  lemma MulAtMost(a: nat, b: nat, c: nat)
    requires a <= b
    ensures a * c <= b * c
  {
  }

  /** The quotient is the only number whose multiple is just below. */
  lemma DivIs(x: nat, d: nat, q: nat)
    requires d > 0
    ensures x / d == q <==> q * d <= x < q * d + d
  {
    var k := x / d;
    assert x == k * d + x % d;
    if k < q {
      MulAtMost(k + 1, q, d);
    } else if k > q {
      MulAtMost(q + 1, k, d);
    }
  }

  lemma MulDiv(a: nat, b: nat)
    requires b > 0
    ensures a * b / b == a && a * b % b == 0
  {
    DivIs(a * b, b, a);
    assert a * b == (a * b / b) * b + a * b % b;
  }
}
