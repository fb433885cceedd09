/**
  What one `Dkg` guarantees whatever it is given: any shares under any sender, any commitments, and polls,
  in any order.
 */
module DkgSafety {
  import opened Options
  import opened Field
  import opened Polynomials
  import opened DkgSpec

  datatype Input = Poll(coefficients: Polynomial) | Receive(peer: Id, share: Scalar) | Learn(commitment: Commitment)

  ghost function Apply(d: Dkg, input: Input): (d': Dkg) {
    match input
    case Poll(coefficients) => NextAction(d, coefficients).0
    case Receive(peer, share) => OnMessage(d, peer, share)
    case Learn(commitment) => d.(commitment := Some(commitment))
  }

  ghost function After(d: Dkg, inputs: seq<Input>): (d': Dkg) {
    if inputs == [] then d else Apply(After(d, inputs[..|inputs| - 1]), inputs[|inputs| - 1])
  }

  /** The actions returned by `next_action`, in order. */
  ghost function Actions(d: Dkg, inputs: seq<Input>): (actions: seq<Action>) {
    if inputs == [] then []
    else
      var before, last := inputs[..|inputs| - 1], inputs[|inputs| - 1];
      Actions(d, before) + if last.Poll? then [NextAction(After(d, before), last.coefficients).1] else []
  }

  lemma SecretStays(d: Dkg, input: Input)
    ensures d.secret.Some? ==> Apply(d, input).secret == d.secret
    ensures d.sent ==> Apply(d, input).sent
    ensures Apply(d, input).id == d.id && Apply(d, input).members == d.members
  {
    hide FinalShare, Verifies, Commit, Eval;
  }

  /** Once published, a commitment is to the polynomial the node keeps. */
  lemma {:induction false} PublishedStays(d: Dkg, inputs: seq<Input>, i: nat)
    requires i < |Actions(d, inputs)| && Actions(d, inputs)[i].Publish?
    ensures var d' := After(d, inputs); d'.secret.Some? && Actions(d, inputs)[i].commitment == Commit(d'.secret.value)
  {
    hide FinalShare, Verifies, Commit, Eval;
    var before, last := inputs[..|inputs| - 1], inputs[|inputs| - 1];
    if i < |Actions(d, before)| {
      PublishedStays(d, before, i);
      SecretStays(After(d, before), last);
    }
  }

  ghost predicate SharesOf(d: Dkg, shares: map<Id, Scalar>) {
    && d.secret.Some? && d.sent && shares.Keys == d.members - {d.id}
    && forall peer :: peer in shares ==> shares[peer] == Eval(d.secret.value, peer)
  }

  lemma SendShares(d: Dkg, coefficients: Polynomial)
    requires NextAction(d, coefficients).1.Send?
    ensures SharesOf(NextAction(d, coefficients).0, NextAction(d, coefficients).1.shares) && !d.sent
  {
    hide FinalShare, Verifies, Commit, Eval;
    assert NextAction(d, coefficients).1.shares.Keys == d.members - {d.id};
  }

  lemma {:induction false} SentStays(d: Dkg, inputs: seq<Input>, i: nat)
    requires i < |Actions(d, inputs)| && Actions(d, inputs)[i].Send?
    ensures SharesOf(After(d, inputs), Actions(d, inputs)[i].shares)
  {
    hide NextAction, Eval;
    var before, last := inputs[..|inputs| - 1], inputs[|inputs| - 1];
    if i < |Actions(d, before)| {
      SentStays(d, before, i);
      SecretStays(After(d, before), last);
    } else {
      SendShares(After(d, before), last.coefficients);
    }
  }

  /** A node publishes one commitment and sends its shares once, however it is polled. */
  lemma {:induction false} OnceEach(d: Dkg, inputs: seq<Input>, i: nat, j: nat)
    requires i < j < |Actions(d, inputs)|
    ensures Actions(d, inputs)[i].Publish? ==> !Actions(d, inputs)[j].Publish?
    ensures Actions(d, inputs)[i].Send? ==> !Actions(d, inputs)[j].Send?
  {
    hide FinalShare, Verifies, Commit, Eval;
    var before := inputs[..|inputs| - 1];
    if j < |Actions(d, before)| {
      OnceEach(d, before, i, j);
    } else {
      if Actions(d, inputs)[i].Publish? {
        PublishedStays(d, before, i);
      }
      if Actions(d, inputs)[i].Send? {
        SentStays(d, before, i);
      }
    }
  }

  /** The shares a node sends go to all other members and verify against the commitment it published. */
  lemma SharesMatchCommitment(d: Dkg, inputs: seq<Input>, i: nat, j: nat)
    requires i < |Actions(d, inputs)| && j < |Actions(d, inputs)|
    requires Actions(d, inputs)[i].Publish? && Actions(d, inputs)[j].Send?
    ensures var shares := Actions(d, inputs)[j].shares;
            && shares.Keys == After(d, inputs).members - {After(d, inputs).id}
            && forall peer :: peer in shares ==> Verifies(shares[peer], peer, Actions(d, inputs)[i].commitment)
  {
    PublishedStays(d, inputs, i);
    SentStays(d, inputs, j);
    hide Verifies, Commit, Eval, Actions, After;
    var shares := Actions(d, inputs)[j].shares;
    forall peer | peer in shares ensures Verifies(shares[peer], peer, Actions(d, inputs)[i].commitment) {
      SharesVerify(After(d, inputs).secret.value, peer, shares[peer]);
    }
  }

  /** Whatever shares arrived, a node completes only with a share that its group commitment vouches for. */
  lemma CompletedSharesVerify(d: Dkg, coefficients: Polynomial)
    ensures var (d', action) := NextAction(d, coefficients);
            action.Complete? ==>
              && d' == d && d.sent && |d.round2| == |d.members| - 1
              && d.commitment == Some(action.commitment)
              && action.commitment != [] && action.groupKey == action.commitment[0]
              && Verifies(action.share, d.id, action.commitment)
  {
    hide Verifies, Commit, Eval, FinalShare;
  }

  /** A node refuses to start exactly for thresholds below two or above the number of members. */
  lemma RefusedExactly(id: Id, members: set<Id>, threshold: nat, coefficients: Polynomial)
    ensures NextAction(NewDkg(id, members, threshold), coefficients).1.Failure?
            <==> threshold < 2 || threshold > |members|
  {
    hide Commit, FinalShare, Verifies, Eval;
  }
}
