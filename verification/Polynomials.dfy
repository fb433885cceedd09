/** Polynomials, commitments and the two sums the key generation relies on. */
module Polynomials {
  import opened Field
  import opened FiniteSets

  type Id = Scalar
  type Polynomial = seq<Scalar>
  type Commitment = seq<Point>

  /** Horner evaluation, as in Appendix C.1 of RFC 9591. */
  function Eval(p: Polynomial, x: Scalar): (y: Scalar) {
    if p == [] then 0 else Add(p[0], Mul(x, Eval(p[1..], x)))
  }

  function Commit(p: Polynomial): (c: Commitment)
    ensures |c| == |p|
  {
    seq(|p|, i requires 0 <= i < |p| => Base(p[i]))
  }

  /** The sum of x^j C_j, as in Appendix C.2 of RFC 9591, from the given power on. */
  function EvalCommitment(c: Commitment, x: Scalar, power: Scalar): (p: Point) {
    if c == [] then Base(0)
    else AddPoints(Scale(power, c[0]), EvalCommitment(c[1..], x, Mul(power, x)))
  }

  /** Share verification: the share times the base point is the committed polynomial at x. */
  predicate Verifies(share: Scalar, x: Scalar, c: Commitment) {
    Base(share) == EvalCommitment(c, x, 1)
  }

  // ------------------------------------------------ a commitment verifies its shares

  lemma {:induction false} CommitmentTracks(p: Polynomial, x: Scalar, power: Scalar)
    ensures EvalCommitment(Commit(p), x, power) == Base(Mul(power, Eval(p, x)))
  {
    hide Reduce, Mul, Add;
    if p == [] {
      ReduceSmall(power);
    } else {
      var rest := Eval(p[1..], x);
      assert Commit(p)[1..] == Commit(p[1..]);
      CommitmentTracks(p[1..], x, Mul(power, x));
      MulDistributes(power, p[0], Mul(x, rest));
      MulAssociates(power, x, rest);
    }
  }

  lemma SharesVerify(p: Polynomial, x: Scalar, share: Scalar)
    ensures Verifies(share, x, Commit(p)) <==> share == Eval(p, x)
  {
    hide Reduce, Mul, Eval, EvalCommitment;
    CommitmentTracks(p, x, 1);
    ReduceSmall(Eval(p, x));
  }

  // ------------------------------------------------------------------- sums

  function AddPolynomials(p: Polynomial, q: Polynomial): (r: Polynomial)
    requires |p| == |q|
    ensures |r| == |p|
  {
    seq(|p|, i requires 0 <= i < |p| => Add(p[i], q[i]))
  }

  lemma {:induction false} EvalAdds(p: Polynomial, q: Polynomial, x: Scalar)
    requires |p| == |q|
    ensures Eval(AddPolynomials(p, q), x) == Add(Eval(p, x), Eval(q, x))
  {
    if p != [] {
      var a, b := Mul(x, Eval(p[1..], x)), Mul(x, Eval(q[1..], x));
      assert AddPolynomials(p, q)[1..] == AddPolynomials(p[1..], q[1..]);
      EvalAdds(p[1..], q[1..], x);
      MulDistributes(x, Eval(p[1..], x), Eval(q[1..], x));
      Interchange(p[0], q[0], a, b);
    }
  }

  lemma Interchange(a: Scalar, b: Scalar, c: Scalar, d: Scalar)
    ensures Add(Add(a, b), Add(c, d)) == Add(Add(a, c), Add(b, d))
  {
    hide Reduce;
    ReduceAdd(a + b, Add(c, d));
    ReduceAdd(a + b, c + d);
    ReduceAdd(a + c, Add(b, d));
    ReduceAdd(a + c, b + d);
  }

  /** The sum of scalars indexed by a set, which no order of summation can change. */
  ghost function Total(keys: set<nat>, f: nat -> nat): (s: Scalar) {
    Reduce(Sum(keys, f))
  }

  lemma TotalRemove(keys: set<nat>, f: nat -> nat, k: nat)
    requires k in keys
    ensures Total(keys, f) == Add(Reduce(f(k)), Total(keys - {k}, f))
  {
    SumRemove(keys, f, k);
    var rest := Sum(keys - {k}, f);
    ReduceAdd(f(k), Reduce(rest));
    ReduceAdd(f(k), rest);
  }

  ghost predicate AllOfLength(polys: map<nat, Polynomial>, t: nat) {
    forall k :: k in polys ==> |polys[k]| == t
  }

  ghost function Coefficient(polys: map<nat, Polynomial>, i: nat): (f: nat -> nat) {
    k => if k in polys && i < |polys[k]| then polys[k][i] else 0
  }

  ghost function ValueAt(polys: map<nat, Polynomial>, x: Scalar): (f: nat -> nat) {
    k => if k in polys then Eval(polys[k], x) else 0
  }

  /** The coefficientwise sum of the polynomials of `keys`. */
  ghost function SumPolynomial(keys: set<nat>, polys: map<nat, Polynomial>, t: nat): (p: Polynomial)
    ensures |p| == t
  {
    seq(t, i requires 0 <= i < t => Total(keys, Coefficient(polys, i)))
  }

  lemma {:induction false} ZeroPolynomial(p: Polynomial, x: Scalar)
    requires forall i :: 0 <= i < |p| ==> p[i] == 0
    ensures Eval(p, x) == 0
  {
    if p != [] {
      ZeroPolynomial(p[1..], x);
      ReduceSmall(x);
      ReduceSmall(0);
    }
  }

  lemma SumPolynomialRemove(keys: set<nat>, polys: map<nat, Polynomial>, t: nat, k: nat)
    requires AllOfLength(polys, t) && k in keys && k in polys
    ensures SumPolynomial(keys, polys, t) == AddPolynomials(polys[k], SumPolynomial(keys - {k}, polys, t))
  {
    hide Reduce, Total, Add;
    forall i | 0 <= i < t
      ensures SumPolynomial(keys, polys, t)[i] == Add(polys[k][i], SumPolynomial(keys - {k}, polys, t)[i])
    {
      TotalRemove(keys, Coefficient(polys, i), k);
      ReduceSmall(polys[k][i]);
    }
  }

  lemma TotalEmpty(f: nat -> nat)
    ensures Total({}, f) == 0
  {
    ReduceSmall(0);
  }

  /** Summing evaluations is evaluating the sum. */
  lemma {:induction false} EvalOfSum(keys: set<nat>, polys: map<nat, Polynomial>, t: nat, x: Scalar)
    requires AllOfLength(polys, t) && keys <= polys.Keys
    ensures Eval(SumPolynomial(keys, polys, t), x) == Total(keys, ValueAt(polys, x))
    decreases |keys|
  {
    hide Reduce, Total, Add, Eval;
    if keys == {} {
      TotalEmpty(ValueAt(polys, x));
      forall i: nat | i < t ensures SumPolynomial(keys, polys, t)[i] == 0 {
        TotalEmpty(Coefficient(polys, i));
      }
      ZeroPolynomial(SumPolynomial(keys, polys, t), x);
    } else {
      var k :| k in keys;
      var rest := keys - {k};
      assert |rest| < |keys|;
      EvalOfSum(rest, polys, t, x);
      TotalRemove(keys, ValueAt(polys, x), k);
      ReduceSmall(Eval(polys[k], x));
      SumPolynomialRemove(keys, polys, t, k);
      EvalAdds(polys[k], SumPolynomial(rest, polys, t), x);
    }
  }
}
