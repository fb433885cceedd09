/** Division, remainder and product facts the solver does not find by itself. */
module Arithmetic {

  lemma {:induction false} ModShift(x: nat, k: nat, q: nat)
    requires q > 0
    ensures (x + k * q) % q == x % q
    decreases k
  {
    if k > 0 {
      ModShift(x, k - 1, q);
      assert x + k * q == (x + (k - 1) * q) + q;
      ModStep(x + (k - 1) * q, q);
    }
  }

  lemma ModStep(x: nat, q: nat)
    requires q > 0
    ensures (x + q) % q == x % q
  {
    assert (x + q) / q == x / q + 1 by {
      DivUnique(x + q, q, x / q + 1, x % q);
    }
  }

  lemma DivUnique(x: nat, q: nat, d: nat, r: nat)
    requires q > 0 && r < q && x == d * q + r
    ensures x / q == d && x % q == r
  {
    var e, s := x / q, x % q;
    assert x == e * q + s;
    MultiplesApart(e, d, q);
    MultiplesApart(d, e, q);
  }

  lemma {:induction false} MultiplesApart(a: nat, b: nat, q: nat)
    ensures a < b ==> a * q + q <= b * q
    decreases b
  {
    if a < b {
      assert b * q == (b - 1) * q + q;
      MultiplesApart(a, b - 1, q);
    }
  }

  lemma MultipleMod(k: nat, q: nat)
    requires q > 0
    ensures (k * q) % q == 0
  {
    ModShift(0, k, q);
  }

  lemma Cancel(a: nat, b: nat, q: nat)
    requires q > 0 && a * q <= b * q
    ensures a <= b
  {
    MultiplesApart(b, a, q);
  }

  lemma Scaled(a: nat, b: nat, q: nat)
    requires a <= b
    ensures a * q <= b * q
  {
    MultiplesApart(a, b, q);
  }
}
