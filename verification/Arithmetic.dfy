/** Powers of two, quotients and remainders. */
module Arithmetic {

  function Pow2(n: nat): (r: nat)
    ensures r > 0
  {
    if n == 0 then 1 else 2 * Pow2(n - 1)
  }

  lemma {:induction false} PowAdds(a: nat, b: nat)
    ensures Pow2(a + b) == Pow2(a) * Pow2(b)
    decreases a
  {
    if a > 0 {
      PowAdds(a - 1, b);
      assert Pow2(a + b) == 2 * Pow2(a - 1 + b);
    }
  }

  lemma Quotient(v: nat, u: nat)
    requires u > 0
    ensures 0 <= v / u * u <= v < v / u * u + u
  {
    assert v == v / u * u + v % u;
  }

  lemma MulStrict(a: nat, b: nat, u: nat)
    requires a < b
    ensures a * u + u <= b * u
  {
    assert b * u == a * u + u + (b - a - 1) * u;
  }

  lemma Euclid(v: nat, u: nat, q: nat, r: nat)
    requires r < u && v == q * u + r
    ensures v / u == q && v % u == r
  {
    Quotient(v, u);
    var k := v / u;
    if k < q { MulStrict(k, q, u); } else if q < k { MulStrict(q, k, u); }
    assert v == k * u + v % u;
  }
}
