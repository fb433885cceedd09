/**
  Key generation among honest members: each draws a polynomial, the chain publishes the sum of the
  commitments, and the round-two packages arrive in any order.
 */
module DkgWorld {
  import opened Options
  import opened Field
  import opened FiniteSets
  import opened Sequences
  import opened Polynomials
  import opened DkgSpec

  datatype Setup = Setup(members: set<Id>, threshold: nat) {
    predicate Valid() {
      GoodParameters(|members|, threshold)
    }
  }

  datatype Packet = Packet(from: Id, to: Id, share: Scalar)
  datatype Key = Key(share: Scalar, groupKey: Point, commitment: Commitment)

  datatype World = World(nodes: map<Id, Dkg>, chain: map<Id, Commitment>, net: multiset<Packet>,
                         keys: map<Id, Key>, failed: set<Id>)

  datatype Event =
    | Act(node: Id, coefficients: Polynomial)
    | Deliver(packet: Packet)
    | Learn(node: Id, order: seq<Id>)

  ghost function Init(su: Setup): (w: World) {
    World(map i | i in su.members :: NewDkg(i, su.members, su.threshold), map[], multiset{}, map[], {})
  }

  ghost function Packets(i: Id, shares: map<Id, Scalar>): (net: multiset<Packet>) {
    multiset(set peer | peer in shares :: Packet(i, peer, shares[peer]))
  }

  ghost predicate Enabled(su: Setup, w: World, e: Event) {
    match e
    case Act(i, coefficients) => i in w.nodes && |coefficients| == su.threshold
    case Deliver(p) => p in w.net && p.to in w.nodes
    case Learn(i, order) =>
      && i in w.nodes && w.chain.Keys == su.members
      && order != [] && NoDuplicates<nat>(order) && Elements(order) == su.members
  }

  ghost function Next(su: Setup, w: World, e: Event): (w': World)
    requires Enabled(su, w, e)
  {
    match e
    case Act(i, coefficients) =>
      var (d, action) := NextAction(w.nodes[i], coefficients);
      var w1 := w.(nodes := w.nodes[i := d]);
      (match action
       case Idle => w1
       case Publish(c) => w1.(chain := w.chain[i := c])
       case Send(shares) => w1.(net := w.net + Packets(i, shares))
       case Complete(share, groupKey, commitment) => w1.(keys := w.keys[i := Key(share, groupKey, commitment)])
       case Failure => w1.(failed := w.failed + {i}))
    case Deliver(p) =>
      w.(nodes := w.nodes[p.to := OnMessage(w.nodes[p.to], p.from, p.share)], net := w.net - multiset{p})
    case Learn(i, order) =>
      ElementsAreKeys(order, w.chain);
      w.(nodes := w.nodes[i := w.nodes[i].(commitment := Some(GroupCommitment(InOrder(order, w.chain))))])
  }

  lemma ElementsAreKeys(order: seq<Id>, m: map<Id, Commitment>)
    requires Elements(order) == m.Keys
    ensures forall i :: 0 <= i < |order| ==> order[i] in m
  {
    assert forall i :: 0 <= i < |order| ==> order[i] in Elements(order);
  }

  ghost function After(su: Setup, events: seq<Event>): (w: Option<World>) {
    if events == [] then Some(Init(su))
    else
      var before := After(su, events[..|events| - 1]);
      var e := events[|events| - 1];
      if before.None? || !Enabled(su, before.value, e) then None else Some(Next(su, before.value, e))
  }

  // ---------------------------------------------------------------- invariant

  ghost function GroupPolynomial(su: Setup, polys: map<Id, Polynomial>): (p: Polynomial)
    ensures |p| == su.threshold
  {
    SumPolynomial(su.members, polys, su.threshold)
  }

  ghost predicate GoodShare(polys: map<Id, Polynomial>, from: Id, to: Id, share: Scalar) {
    from in polys && share == Eval(polys[from], to)
  }

  ghost predicate NodeOk(su: Setup, polys: map<Id, Polynomial>, i: Id, d: Dkg) {
    && d.id == i && d.members == su.members && d.threshold == su.threshold
    && (d.secret.Some? <==> i in polys)
    && (d.secret.Some? ==> polys[i] == d.secret.value)
    && (d.sent ==> d.secret.Some? && d.commitment.Some?)
    && (d.commitment.Some? ==> polys.Keys == su.members && d.commitment.value == Commit(GroupPolynomial(su, polys)))
    && (forall j :: j in d.round2 ==> j in su.members && j != i && GoodShare(polys, j, i, d.round2[j]))
  }

  ghost predicate PacketOk(su: Setup, polys: map<Id, Polynomial>, p: Packet) {
    && polys.Keys == su.members && p.from in su.members && p.to in su.members && p.from != p.to
    && GoodShare(polys, p.from, p.to, p.share)
  }

  ghost predicate KeyOk(su: Setup, polys: map<Id, Polynomial>, i: Id, k: Key)
    requires su.Valid()
  {
    var group := GroupPolynomial(su, polys);
    polys.Keys == su.members && k == Key(Eval(group, i), Base(group[0]), Commit(group))
  }

  ghost predicate Consistent(su: Setup, w: World, polys: map<Id, Polynomial>)
    requires su.Valid()
  {
    && w.nodes.Keys == su.members && polys.Keys <= su.members && w.failed == {}
    && AllOfLength(polys, su.threshold) && Commits(w.chain, polys)
    && (forall i :: i in w.nodes ==> NodeOk(su, polys, i, w.nodes[i]))
    && (forall p :: p in w.net ==> PacketOk(su, polys, p))
    && (forall i :: i in w.keys ==> KeyOk(su, polys, i, w.keys[i]))
  }

  ghost predicate OnTheWire(net: multiset<Packet>, from: Id, to: Id) {
    exists p :: p in net && p.from == from && p.to == to
  }

  ghost predicate Accounted(w: World, j: Id, i: Id)
    requires i in w.nodes
  {
    j in w.nodes[i].round2 || OnTheWire(w.net, j, i)
  }

  /** Every package a member has sent is in flight or has arrived. */
  ghost predicate NothingLost(w: World) {
    forall j, i :: j in w.nodes && i in w.nodes && j != i && w.nodes[j].sent ==> Accounted(w, j, i)
  }

  // --------------------------------------------------------------------- steps

  /** With all packages in, the received shares and the own one add up to the group polynomial. */
  lemma FinalShareIsGroupValue(su: Setup, polys: map<Id, Polynomial>, i: Id, d: Dkg)
    requires su.Valid() && AllOfLength(polys, su.threshold) && polys.Keys == su.members && i in su.members
    requires NodeOk(su, polys, i, d) && d.secret.Some? && |d.round2| == |su.members| - 1
    ensures FinalShare(d) == Eval(GroupPolynomial(su, polys), i)
  {
    hide Reduce, Total, Eval, Add;
    assert |su.members - {i}| == |su.members| - 1;
    SubsetSize(d.round2.Keys, su.members - {i});
    EvalOfSum(su.members, polys, su.threshold, i);
    TotalRemove(su.members, ValueAt(polys, i), i);
    TotalAgrees(su.members - {i}, ShareOf(d.round2), ValueAt(polys, i));
    ReduceSmall(Eval(polys[i], i));
    AddCommutes(Eval(polys[i], i), Total(su.members - {i}, ValueAt(polys, i)));
  }

  lemma TotalAgrees(keys: set<nat>, f: nat -> nat, g: nat -> nat)
    requires forall k :: k in keys ==> f(k) == g(k)
    ensures Total(keys, f) == Total(keys, g)
  {
    SumAgree(keys, f, g);
  }

  lemma AddCommutes(a: Scalar, b: Scalar)
    ensures Add(a, b) == Add(b, a)
  {}

  /** Neither check on the final share can fail. */
  lemma NeverFails(su: Setup, polys: map<Id, Polynomial>, i: Id, d: Dkg, coefficients: Polynomial)
    requires su.Valid() && AllOfLength(polys, su.threshold) && i in su.members
    requires NodeOk(su, polys, i, d)
    ensures !NextAction(d, coefficients).1.Failure?
    ensures var action := NextAction(d, coefficients).1;
            action.Complete? ==> KeyOk(su, polys, i, Key(action.share, action.groupKey, action.commitment))
  {
    hide Reduce, Total, Eval, Add, Verifies, FinalShare;
    if d.secret.Some? && d.commitment.Some? && d.sent && |d.round2| == |d.members| - 1 {
      FinalShareIsGroupValue(su, polys, i, d);
      SharesVerify(GroupPolynomial(su, polys), i, FinalShare(d));
    }
  }

  lemma GroupStable(su: Setup, polys: map<Id, Polynomial>, i: Id, p: Polynomial)
    requires i !in polys && i in su.members
    ensures polys.Keys != su.members
    ensures forall j :: j in polys ==> j in polys[i := p] && polys[i := p][j] == polys[j]
  {}

  lemma PublishNode(su: Setup, polys: map<Id, Polynomial>, i: Id, p: Polynomial, j: Id, d: Dkg)
    requires i in su.members && i !in polys && NodeOk(su, polys, j, d)
    ensures NodeOk(su, polys[i := p], j, if j == i then d.(secret := Some(p)) else d)
  {
    GroupStable(su, polys, i, p);
  }

  lemma PublishStep(su: Setup, w: World, polys: map<Id, Polynomial>, i: Id, p: Polynomial)
    requires su.Valid() && Consistent(su, w, polys) && i in w.nodes && |p| == su.threshold && w.nodes[i].secret.None?
    ensures Consistent(su, Next(su, w, Act(i, p)), polys[i := p])
  {
    hide NodeOk, Eval, GroupPolynomial;
    var w' := Next(su, w, Act(i, p));
    SecretOf(su, polys, i, w.nodes[i]);
    GroupStable(su, polys, i, p);
    assert NextAction(w.nodes[i], p) == (w.nodes[i].(secret := Some(p)), Publish(Commit(p)));
    forall j | j in w'.nodes ensures NodeOk(su, polys[i := p], j, w'.nodes[j]) {
      PublishNode(su, polys, i, p, j, w.nodes[j]);
    }
  }

  lemma SecretOf(su: Setup, polys: map<Id, Polynomial>, i: Id, d: Dkg)
    requires NodeOk(su, polys, i, d)
    ensures d.secret.Some? <==> i in polys
    ensures d.threshold == su.threshold && d.members == su.members && d.id == i
    ensures d.secret.Some? ==> polys[i] == d.secret.value
  {}

  lemma NodeAfterAct(su: Setup, polys: map<Id, Polynomial>, i: Id, d: Dkg, c: Polynomial)
    requires NodeOk(su, polys, i, d) && d.secret.Some?
    ensures NodeOk(su, polys, i, NextAction(d, c).0)
    ensures NextAction(d, c).1.Send? ==> polys.Keys == su.members
    ensures NextAction(d, c).1.Send? ==>
              forall peer :: peer in NextAction(d, c).1.shares ==>
                               peer in su.members && peer != i
                                   && GoodShare(polys, i, peer, NextAction(d, c).1.shares[peer])
  {
    hide Eval, GroupPolynomial, FinalShare, Verifies;
  }

  lemma LaterActStep(su: Setup, w: World, polys: map<Id, Polynomial>, i: Id, c: Polynomial)
    requires su.Valid() && Consistent(su, w, polys) && i in w.nodes && |c| == su.threshold && w.nodes[i].secret.Some?
    ensures Consistent(su, Next(su, w, Act(i, c)), polys)
  {
    hide NodeOk, Eval, GroupPolynomial, NextAction, GoodShare, Commits, KeyOk;
    NeverFails(su, polys, i, w.nodes[i], c);
    NodeAfterAct(su, polys, i, w.nodes[i], c);
    SecretOf(su, polys, i, w.nodes[i]);
    NeverPublishes(w.nodes[i], c);
  }

  lemma NeverPublishes(d: Dkg, c: Polynomial)
    requires d.secret.Some?
    ensures !NextAction(d, c).1.Publish?
  {}

  lemma DeliverNode(su: Setup, polys: map<Id, Polynomial>, p: Packet, d: Dkg)
    requires NodeOk(su, polys, p.to, d) && PacketOk(su, polys, p)
    ensures NodeOk(su, polys, p.to, OnMessage(d, p.from, p.share))
  {
    hide GoodShare, GroupPolynomial;
  }

  lemma DeliverStep(su: Setup, w: World, polys: map<Id, Polynomial>, p: Packet)
    requires su.Valid() && Consistent(su, w, polys) && Enabled(su, w, Deliver(p))
    ensures Consistent(su, Next(su, w, Deliver(p)), polys)
  {
    hide NodeOk, PacketOk, Commits, KeyOk;
    DeliverNode(su, polys, p, w.nodes[p.to]);
  }

  lemma LearnNode(su: Setup, polys: map<Id, Polynomial>, i: Id, d: Dkg, c: Commitment)
    requires NodeOk(su, polys, i, d) && polys.Keys == su.members && c == Commit(GroupPolynomial(su, polys))
    ensures NodeOk(su, polys, i, d.(commitment := Some(c)))
  {
    hide GoodShare, GroupPolynomial, Commit;
  }

  lemma LearnStep(su: Setup, w: World, polys: map<Id, Polynomial>, i: Id, order: seq<Id>)
    requires su.Valid() && Consistent(su, w, polys) && Enabled(su, w, Learn(i, order))
    ensures Consistent(su, Next(su, w, Learn(i, order)), polys)
  {
    hide KeyOk, NodeOk, PacketOk, GroupCommitment, Commit, AllOfLength, NoDuplicates;
    ElementsAreKeys(order, w.chain);
    GroupCommitsToSum(order, w.chain, polys, su.threshold);
    LearnNode(su, polys, i, w.nodes[i], GroupCommitment(InOrder(order, w.chain)));
  }

  lemma StepConsistent(su: Setup, w: World, polys: map<Id, Polynomial>, e: Event) returns (polys': map<Id, Polynomial>)
    requires su.Valid() && Consistent(su, w, polys) && Enabled(su, w, e)
    ensures Consistent(su, Next(su, w, e), polys')
  {
    hide Consistent, Next;
    polys' := polys;
    match e
    case Act(i, c) =>
      if w.nodes[i].secret.None? {
        PublishStep(su, w, polys, i, c);
        polys' := polys[i := c];
      } else {
        LaterActStep(su, w, polys, i, c);
      }
    case Deliver(p) => DeliverStep(su, w, polys, p);
    case Learn(i, order) => LearnStep(su, w, polys, i, order);
  }

  lemma {:induction false} RunConsistent(su: Setup, events: seq<Event>) returns (polys: map<Id, Polynomial>)
    requires su.Valid() && After(su, events).Some?
    ensures Consistent(su, After(su, events).value, polys)
  {
    if events == [] {
      polys := map[];
    } else {
      hide Consistent, Next, Enabled;
      var before := events[..|events| - 1];
      polys := RunConsistent(su, before);
      polys := StepConsistent(su, After(su, before).value, polys, events[|events| - 1]);
    }
  }

  // ------------------------------------------------------------------- results

  /** The polynomials the members have drawn. */
  ghost function Secrets(w: World): (polys: map<Id, Polynomial>) {
    map i | i in w.nodes && w.nodes[i].secret.Some? :: w.nodes[i].secret.value
  }

  lemma SecretsAre(su: Setup, w: World, polys: map<Id, Polynomial>)
    requires su.Valid() && Consistent(su, w, polys)
    ensures polys == Secrets(w)
  {
    hide KeyOk, PacketOk, Commits, AllOfLength, GoodShare, GroupPolynomial;
    forall i ensures i in polys <==> i in Secrets(w) {
      if i in polys {
        assert NodeOk(su, polys, i, w.nodes[i]);
      }
    }
  }

  /**
    Member i holds the value at i of the sum of all members' polynomials, the key that sum has, and the
    commitment to it.
   */
  ghost predicate HoldsShare(su: Setup, w: World, i: Id, key: Key) {
    var group := GroupPolynomial(su, Secrets(w));
    && Secrets(w).Keys == su.members && |group| == su.threshold > 0
    && key == Key(Eval(group, i), Base(group[0]), Commit(group)) && key.groupKey == key.commitment[0]
    && Verifies(key.share, i, key.commitment)
  }

  /**
    No run fails; completed members hold shares of one sum and report the same key and commitment, every
    learnt commitment is to that sum, and no share is sent before all members have published theirs.
   */
  lemma KeysAgree(su: Setup, events: seq<Event>)
    requires su.Valid() && After(su, events).Some?
    ensures var w := After(su, events).value;
            && w.failed == {}
            && (forall i :: i in w.keys ==> HoldsShare(su, w, i, w.keys[i]))
            && (forall i, j :: i in w.keys && j in w.keys ==>
                  w.keys[i].groupKey == w.keys[j].groupKey && w.keys[i].commitment == w.keys[j].commitment)
            && (w.net != multiset{} ==> w.chain.Keys == su.members)
            && (forall i :: i in w.nodes && w.nodes[i].commitment.Some? ==>
                  w.nodes[i].commitment.value == Commit(GroupPolynomial(su, Secrets(w))))
  {
    hide Eval, Verifies, After, GoodShare, AllOfLength;
    var w := After(su, events).value;
    var polys := RunConsistent(su, events);
    SecretsAre(su, w, polys);
    if w.net != multiset{} {
      var p :| p in w.net;
      assert PacketOk(su, polys, p);
    }
    forall i | i in w.keys ensures HoldsShare(su, w, i, w.keys[i]) {
      SharesVerify(GroupPolynomial(su, polys), i, w.keys[i].share);
    }
    forall i | i in w.nodes && w.nodes[i].commitment.Some?
      ensures w.nodes[i].commitment.value == Commit(GroupPolynomial(su, Secrets(w)))
    {
      assert NodeOk(su, polys, i, w.nodes[i]);
    }
  }

  lemma SentReaches(i: Id, to: Id, shares: map<Id, Scalar>, net: multiset<Packet>)
    requires to in shares
    ensures OnTheWire(net + Packets(i, shares), i, to)
  {
    var p := Packet(i, to, shares[to]);
    assert p in set peer | peer in shares :: Packet(i, peer, shares[peer]);
    assert p in net + Packets(i, shares);
  }

  lemma WireGrows(net: multiset<Packet>, more: multiset<Packet>, j: Id, i: Id)
    requires OnTheWire(net, j, i)
    ensures OnTheWire(net + more, j, i)
  {
    var p :| p in net && p.from == j && p.to == i;
    assert p in net + more;
  }

  lemma ActAccounts(su: Setup, w: World, x: Id, c: Polynomial, j: Id, i: Id)
    requires Enabled(su, w, Act(x, c)) && j in w.nodes && i in w.nodes && j != i && w.nodes.Keys == su.members
    requires w.nodes[j].id == j && w.nodes[j].members == su.members
    requires w.nodes[j].sent ==> Accounted(w, j, i)
    requires Next(su, w, Act(x, c)).nodes[j].sent
    ensures i in Next(su, w, Act(x, c)).nodes && Accounted(Next(su, w, Act(x, c)), j, i)
  {
    hide FinalShare, Verifies, Commit, Eval, OnTheWire, Packets;
    var (d, action) := NextAction(w.nodes[x], c);
    if action.Send? {
      if j == x {
        SentReaches(x, i, action.shares, w.net);
      } else if OnTheWire(w.net, j, i) {
        WireGrows(w.net, Packets(x, action.shares), j, i);
      }
    }
  }

  lemma DeliverAccounts(su: Setup, w: World, p: Packet, j: Id, i: Id)
    requires Enabled(su, w, Deliver(p)) && i in w.nodes && Accounted(w, j, i)
    ensures i in Next(su, w, Deliver(p)).nodes && Accounted(Next(su, w, Deliver(p)), j, i)
  {
    if j !in w.nodes[i].round2 {
      var q :| q in w.net && q.from == j && q.to == i;
      assert q == p || q in w.net - multiset{p};
    }
  }

  /** A member that has sent either just sent its packages or had sent them before. */
  lemma StepSent(su: Setup, w: World, e: Event, j: Id)
    requires Enabled(su, w, e) && j in Next(su, w, e).nodes && Next(su, w, e).nodes[j].sent
    ensures j in w.nodes && (w.nodes[j].sent || (e.Act? && e.node == j))
  {
    hide NextAction, GroupCommitment, Packets;
  }

  lemma StepNodes(su: Setup, w: World, e: Event)
    requires Enabled(su, w, e)
    ensures Next(su, w, e).nodes.Keys == w.nodes.Keys
  {
    hide NextAction, GroupCommitment, Packets;
  }

  lemma NodeShape(su: Setup, w: World, polys: map<Id, Polynomial>, j: Id)
    requires su.Valid() && Consistent(su, w, polys) && j in w.nodes
    ensures w.nodes.Keys == su.members && w.nodes[j].id == j && w.nodes[j].members == su.members
  {
    hide Commits, KeyOk, PacketOk, GroupPolynomial, GoodShare, AllOfLength;
    assert NodeOk(su, polys, j, w.nodes[j]);
  }

  lemma StepLosesNothing(su: Setup, w: World, polys: map<Id, Polynomial>, e: Event)
    requires su.Valid() && Consistent(su, w, polys) && Enabled(su, w, e) && NothingLost(w)
    ensures NothingLost(Next(su, w, e))
  {
    hide Consistent, Next, Enabled, Accounted;
    var w' := Next(su, w, e);
    StepNodes(su, w, e);
    forall j, i | j in w'.nodes && i in w'.nodes && j != i && w'.nodes[j].sent ensures Accounted(w', j, i) {
      NodeShape(su, w, polys, j);
      StepSent(su, w, e, j);
      match e
      case Act(x, c) => ActAccounts(su, w, x, c, j, i);
      case Deliver(p) => DeliverAccounts(su, w, p, j, i);
      case Learn(x, order) => LearnAccounts(su, w, x, order, j, i);
    }
  }

  lemma LearnAccounts(su: Setup, w: World, x: Id, order: seq<Id>, j: Id, i: Id)
    requires Enabled(su, w, Learn(x, order)) && i in w.nodes && Accounted(w, j, i)
    ensures i in Next(su, w, Learn(x, order)).nodes && Accounted(Next(su, w, Learn(x, order)), j, i)
  {}

  lemma {:induction false} RunLosesNothing(su: Setup, events: seq<Event>)
    requires su.Valid() && After(su, events).Some?
    ensures NothingLost(After(su, events).value)
  {
    if events != [] {
      hide Consistent, Next, Enabled, NothingLost;
      var before := events[..|events| - 1];
      RunLosesNothing(su, before);
      var polys := RunConsistent(su, before);
      StepLosesNothing(su, After(su, before).value, polys, events[|events| - 1]);
    }
  }

  /** Everyone knows the group commitment and has sent its packages, and all have arrived. */
  ghost predicate Settled(w: World) {
    && w.net == multiset{}
    && forall i :: i in w.nodes ==> w.nodes[i].sent && w.nodes[i].commitment.Some?
  }

  /** Once the packages have arrived the next poll completes at every member. */
  lemma SettledRunsComplete(su: Setup, events: seq<Event>, i: Id, coefficients: Polynomial)
    requires su.Valid() && After(su, events).Some? && Settled(After(su, events).value) && i in su.members
    ensures i in After(su, events).value.nodes
    ensures NextAction(After(su, events).value.nodes[i], coefficients).1.Complete?
  {
    hide NextAction, After, Consistent, NothingLost;
    var w := After(su, events).value;
    var polys := RunConsistent(su, events);
    RunLosesNothing(su, events);
    NodeOf(su, w, polys, i);
    AllArrived(su, w, polys, i);
    NeverFails(su, polys, i, w.nodes[i], coefficients);
    SettledPolls(w.nodes[i], coefficients);
  }

  lemma NodeOf(su: Setup, w: World, polys: map<Id, Polynomial>, i: Id)
    requires su.Valid() && Consistent(su, w, polys) && i in su.members
    ensures i in w.nodes && NodeOk(su, polys, i, w.nodes[i]) && AllOfLength(polys, su.threshold)
    ensures w.nodes[i].members == su.members && (w.nodes[i].sent ==> w.nodes[i].secret.Some?)
  {}

  lemma AllArrived(su: Setup, w: World, polys: map<Id, Polynomial>, i: Id)
    requires su.Valid() && Consistent(su, w, polys) && NothingLost(w) && Settled(w) && i in su.members
    ensures i in w.nodes && |w.nodes[i].round2| == |su.members| - 1
  {
    hide GoodShare, GroupPolynomial, KeyOk, PacketOk, Commits, AllOfLength;
    assert NodeOk(su, polys, i, w.nodes[i]);
    forall j | j in su.members && j != i ensures j in w.nodes[i].round2 {
      assert Accounted(w, j, i);
    }
    assert w.nodes[i].round2.Keys == su.members - {i};
    assert |su.members - {i}| == |su.members| - 1;
  }

  lemma SettledPolls(d: Dkg, c: Polynomial)
    requires d.secret.Some? && d.commitment.Some? && d.sent && |d.round2| == |d.members| - 1
    ensures NextAction(d, c).1.Failure? || NextAction(d, c).1.Complete?
  {}
}
