/** The key generation state machine of tss/src/dkg.rs and the on-chain sum of commitments. */
module DkgSpec {
  import opened Options
  import opened Field
  import opened Sequences
  import opened Polynomials

  datatype Action =
    | Idle
    | Publish(commitment: Commitment)
    | Send(shares: map<Id, Scalar>)
    | Complete(share: Scalar, groupKey: Point, commitment: Commitment)
    | Failure

  datatype Dkg = Dkg(id: Id, members: set<Id>, threshold: nat, secret: Option<Polynomial>,
                     commitment: Option<Commitment>, sent: bool, round2: map<Id, Scalar>)

  function NewDkg(id: Id, members: set<Id>, threshold: nat): (d: Dkg) {
    Dkg(id, members, threshold, None, None, false, map[])
  }

  /** The numbers of signers that `part1` of the FROST crate accepts. */
  predicate GoodParameters(members: nat, threshold: nat) {
    2 <= threshold <= members
  }

  ghost function ShareOf(round2: map<nat, Scalar>): (f: nat -> nat) {
    k => if k in round2 then round2[k] else 0
  }

  /** The sum of the received shares and the node's own. */
  ghost function FinalShare(d: Dkg): (s: Scalar)
    requires d.secret.Some?
  {
    Add(Total(d.round2.Keys, ShareOf(d.round2)), Eval(d.secret.value, d.id))
  }

  function OnMessage(d: Dkg, peer: Id, share: Scalar): (d': Dkg) {
    d.(round2 := d.round2[peer := share])
  }

  /** `coefficients` are the ones the random source provides should a polynomial be drawn now. */
  ghost function NextAction(d: Dkg, coefficients: Polynomial): (r: (Dkg, Action)) {
    if d.secret.None? then
      if !GoodParameters(|d.members|, d.threshold) then (d, Failure)
      else (d.(secret := Some(coefficients)), Publish(Commit(coefficients)))
    else if d.commitment.None? then (d, Idle)
    else if !d.sent then
      (d.(sent := true), Send(map peer | peer in d.members && peer != d.id :: Eval(d.secret.value, peer)))
    else if |d.round2| != |d.members| - 1 then (d, Idle)
    else if d.commitment.value == [] || !Verifies(FinalShare(d), d.id, d.commitment.value) then (d, Failure)
    else (d, Complete(FinalShare(d), d.commitment.value[0], d.commitment.value))
  }

  // -------------------------------------------------------- the on-chain sum

  /** Adds the shorter prefix pointwise, as the zipped iterators do. */
  function ZipAdd(group: Commitment, c: Commitment): (r: Commitment)
    ensures |r| == |group|
  {
    seq(|group|, i requires 0 <= i < |group| => if i < |c| then AddPoints(group[i], c[i]) else group[i])
  }

  /** `reduce` over the members' commitments, in the order in which the storage lists them. */
  function GroupCommitment(commitments: seq<Commitment>): (group: Commitment)
    requires commitments != []
  {
    var n := |commitments| - 1;
    if n == 0 then commitments[0] else ZipAdd(GroupCommitment(commitments[..n]), commitments[n])
  }

  function InOrder(order: seq<nat>, m: map<nat, Commitment>): (cs: seq<Commitment>)
    requires forall i :: 0 <= i < |order| ==> order[i] in m
    ensures |cs| == |order|
  {
    seq(|order|, i requires 0 <= i < |order| => m[order[i]])
  }

  ghost predicate Commits(commitments: map<nat, Commitment>, polys: map<nat, Polynomial>) {
    commitments.Keys == polys.Keys && forall k :: k in polys ==> commitments[k] == Commit(polys[k])
  }

  lemma ZipAddCommits(p: Polynomial, q: Polynomial)
    requires |p| == |q|
    ensures ZipAdd(Commit(p), Commit(q)) == Commit(AddPolynomials(q, p))
  {
    hide Reduce;
    assert forall i :: 0 <= i < |p| ==> Add(p[i], q[i]) == Add(q[i], p[i]);
  }

  lemma SingleSum(polys: map<nat, Polynomial>, t: nat, k: nat)
    requires AllOfLength(polys, t) && k in polys
    ensures SumPolynomial({k}, polys, t) == polys[k]
  {
    hide Reduce, Total;
    SumPolynomialRemove({k}, polys, t, k);
    assert {k} - {k} == {};
    forall i: nat | i < t ensures AddPolynomials(polys[k], SumPolynomial({}, polys, t))[i] == polys[k][i] {
      TotalEmpty(Coefficient(polys, i));
      ReduceSmall(polys[k][i]);
    }
  }

  /** Whatever the order, the stored group commitment commits to the sum of the polynomials. */
  lemma {:induction false} GroupCommitsToSum(order: seq<nat>, commitments: map<nat, Commitment>,
                                             polys: map<nat, Polynomial>, t: nat)
    requires order != [] && NoDuplicates(order)
    requires Commits(commitments, polys) && AllOfLength(polys, t)
    requires forall i :: 0 <= i < |order| ==> order[i] in commitments
    ensures GroupCommitment(InOrder(order, commitments)) == Commit(SumPolynomial(Elements(order), polys, t))
  {
    hide Reduce, Total, Commit;
    var n := |order| - 1;
    var cs := InOrder(order, commitments);
    var k := order[n];
    if n == 0 {
      assert Elements(order) == {k};
      SingleSum(polys, t, k);
    } else {
      var before := order[..n];
      NotInPrefix(order, n);
      assert order == before + [k];
      assert cs[..n] == InOrder(before, commitments);
      GroupCommitsToSum(before, commitments, polys, t);
      assert Elements(order) == Elements(before) + {k};
      assert Elements(order) - {k} == Elements(before);
      SumPolynomialRemove(Elements(order), polys, t, k);
      ZipAddCommits(SumPolynomial(Elements(before), polys, t), polys[k]);
    }
  }
}

module DkgMachine {
  import opened Options
  import opened Field
  import opened Polynomials
  import opened DkgSpec

  /** The fold over the received packages, in whatever order the hash map yields them. */
  method SumReceived(round2: map<Id, Scalar>) returns (sum: Scalar)
    ensures sum == Total(round2.Keys, ShareOf(round2))
  {
    sum := 0;
    var left := round2.Keys;
    ghost var done := {};
    TotalEmpty(ShareOf(round2));
    while left != {}
      invariant left <= round2.Keys && done == round2.Keys - left
      invariant sum == Total(done, ShareOf(round2))
      decreases |left|
    {
      var peer :| peer in left;
      FoldStep(done, round2, peer);
      sum, left, done := Add(sum, round2[peer]), left - {peer}, done + {peer};
    }
    assert done == round2.Keys;
  }

  lemma FoldStep(done: set<Id>, round2: map<Id, Scalar>, peer: Id)
    requires peer !in done && peer in round2
    ensures Total(done + {peer}, ShareOf(round2)) == Add(Total(done, ShareOf(round2)), round2[peer])
  {
    hide Total, Reduce;
    TotalRemove(done + {peer}, ShareOf(round2), peer);
    assert done + {peer} - {peer} == done;
    ReduceSmall(round2[peer]);
  }

  class DkgProcess {
    const id: Id
    const members: set<Id>
    const threshold: nat
    var secret: Option<Polynomial>
    var commitment: Option<Commitment>
    var sent: bool
    var round2: map<Id, Scalar>

    ghost function Value(): (d: Dkg)
      reads this
    {
      Dkg(id, members, threshold, secret, commitment, sent, round2)
    }

    constructor (id: Id, members: set<Id>, threshold: nat)
      ensures Value() == NewDkg(id, members, threshold)
    {
      this.id, this.members, this.threshold := id, members, threshold;
      secret, commitment, sent, round2 := None, None, false, map[];
    }

    method HandleCommit(group: Commitment)
      modifies this
      ensures Value() == old(Value()).(commitment := Some(group))
    {
      commitment := Some(group);
    }

    method HandleMessage(peer: Id, share: Scalar)
      modifies this
      ensures Value() == OnMessage(old(Value()), peer, share)
    {
      round2 := round2[peer := share];
    }

    method Poll(coefficients: Polynomial) returns (action: Action)
      modifies this
      ensures Value() == NextAction(old(Value()), coefficients).0
      ensures action == NextAction(old(Value()), coefficients).1
    {
      if secret.None? {
        if !GoodParameters(|members|, threshold) {
          return Failure;
        }
        secret := Some(coefficients);
        return Publish(Commit(coefficients));
      }
      if commitment.None? {
        return Idle;
      }
      if !sent {
        var shares := Deal(secret.value);
        sent := true;
        return Send(shares);
      }
      if |round2| != |members| - 1 {
        return Idle;
      }
      var received := SumReceived(round2);
      var share := Add(received, Eval(secret.value, id));
      if commitment.value == [] || !Verifies(share, id, commitment.value) {
        return Failure;
      }
      return Complete(share, commitment.value[0], commitment.value);
    }

    /** One round-two package for every other member. */
    method Deal(polynomial: Polynomial) returns (shares: map<Id, Scalar>)
      ensures shares == map peer | peer in members && peer != id :: Eval(polynomial, peer)
    {
      shares := map[];
      var left := members;
      while left != {}
        invariant left <= members
        invariant shares == map peer | peer in members - left && peer != id :: Eval(polynomial, peer)
        decreases |left|
      {
        var peer :| peer in left;
        left := left - {peer};
        if peer != id {
          shares := shares[peer := Eval(polynomial, peer)];
        }
      }
    }
  }
}
