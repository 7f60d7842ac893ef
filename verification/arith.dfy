/** Division and multiples, for a divisor that is not a constant. */
module Arith {
  lemma MulMono(a: int, b: int, p: nat)
    requires a <= b
    ensures a * p <= b * p
  {
    assert b * p == a * p + (b - a) * p;
  }

  lemma DivMod(x: nat, p: nat, q: nat, r: nat)
    requires p > 0 && r < p && x == q * p + r
    ensures x / p == q && x % p == r
  {
    var a, b := x / p, x % p;
    assert x == a * p + b;
    if a < q { MulMono(a + 1, q, p); }
    if q < a { MulMono(q + 1, a, p); }
  }

  /** Distinct multiples of p are at least p apart. */
  lemma Gap(p: nat, f: nat, g: nat)
    requires p > 0 && f % p == 0 && g % p == 0 && f < g
    ensures f + p <= g
  {
    var a, b := f / p, g / p;
    assert f == a * p && g == b * p;
    if b <= a { MulMono(b, a, p); } else { MulMono(a + 1, b, p); }
  }

  lemma StepUp(p: nat, f: nat)
    requires p > 0 && f % p == 0
    ensures (f + p) % p == 0 && (f + p) / p == f / p + 1
  {
    DivMod(f + p, p, f / p + 1, 0);
  }

  lemma StepDown(p: nat, f: nat)
    requires p > 0 && f % p == 0 && f > 0
    ensures f >= p && (f - p) % p == 0
  {
    assert 0 % p == 0;
    Gap(p, 0, f);
    DivMod(f - p, p, f / p - 1, 0);
  }
}
