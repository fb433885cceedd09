/**
  The scalar field of secp256k1 and its group. The group is cyclic of prime order `ORDER`, so an
  element is written as the multiple of the base point it is.
 */
module Field {
  import opened Arithmetic

  const ORDER: nat := 0xFFFFFFFF_FFFFFFFF_FFFFFFFF_FFFFFFFE_BAAEDCE6_AF48A03B_BFD25E8C_D0364141

  type Scalar = x: nat | x < ORDER witness 0

  datatype Point = Point(multiple: Scalar)

  function Reduce(x: nat): (r: Scalar) {
    x % ORDER
  }

  function Add(a: Scalar, b: Scalar): (r: Scalar) {
    Reduce(a + b)
  }

  function Mul(a: Scalar, b: Scalar): (r: Scalar) {
    Reduce(a * b)
  }

  function AddPoints(p: Point, q: Point): (r: Point) {
    Point(Add(p.multiple, q.multiple))
  }

  function Scale(a: Scalar, p: Point): (r: Point) {
    Point(Mul(a, p.multiple))
  }

  /** a times the base point. */
  function Base(a: Scalar): (r: Point) {
    Point(a)
  }

  lemma ReduceSmall(x: Scalar)
    ensures Reduce(x) == x && Mul(1, x) == x && Mul(x, 0) == 0 && Add(x, 0) == x && Add(0, x) == x
  {
    assert x * 0 == 0 && 1 * x == x;
  }

  lemma ReduceAdd(x: nat, y: nat)
    ensures Reduce(Reduce(x) + y) == Reduce(x + y)
    ensures Reduce(x + Reduce(y)) == Reduce(x + y)
  {
    ModShift(Reduce(x) + y, x / ORDER, ORDER);
    assert x == (x / ORDER) * ORDER + x % ORDER;
    ModShift(x + Reduce(y), y / ORDER, ORDER);
    assert y == (y / ORDER) * ORDER + y % ORDER;
  }

  lemma ReduceMul(x: nat, y: nat)
    ensures Reduce(Reduce(x) * y) == Reduce(x * y)
    ensures Reduce(y * Reduce(x)) == Reduce(y * x)
  {
    var d, r := x / ORDER, x % ORDER;
    assert x == d * ORDER + r;
    Distribute(d, ORDER, r, y);
    ModShift(r * y, d * y, ORDER);
    assert y * r == r * y && y * x == x * y;
  }

  lemma Distribute(d: nat, q: nat, r: nat, y: nat)
    ensures (d * q + r) * y == r * y + (d * y) * q
  {
    assert (d * q) * y == (d * y) * q;
  }

  lemma ProductsAssociate(a: nat, b: nat, c: nat)
    ensures (a * b) * c == a * (b * c)
    ensures a * (b + c) == a * b + a * c
  {}

  lemma MulAssociates(a: Scalar, b: Scalar, c: Scalar)
    ensures Mul(Mul(a, b), c) == Mul(a, Mul(b, c))
  {
    hide Reduce;
    ReduceMul(a * b, c);
    ReduceMul(b * c, a);
    ProductsAssociate(a, b, c);
  }

  lemma MulDistributes(a: Scalar, b: Scalar, c: Scalar)
    ensures Mul(a, Add(b, c)) == Add(Mul(a, b), Mul(a, c))
  {
    hide Reduce;
    ReduceMul(b + c, a);
    ProductsAssociate(a, b, c);
    ReduceAdd(a * b, Reduce(a * c));
    ReduceAdd(a * b, a * c);
  }
}
