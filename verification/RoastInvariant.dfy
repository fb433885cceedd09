/** Every elementary step of the protocol keeps some ledger in agreement with the world. */
module RoastInvariant {
  import opened Options
  import opened Frost
  import opened RoastSpec
  import opened FiniteSets
  import opened RoastWorld

  // ------------------------------------------------------------ frame lemmas

  ghost function AsNet(o: Option<Packet>): (net: multiset<Packet>) {
    if o.Some? then multiset{o.value} else multiset{}
  }

  lemma NetMove(su: Setup, net: multiset<Packet>, l: Ledger, q: (Id, Id), p: Place, net': multiset<Packet>)
    requires NetOk(su, net, l) && q in l
    requires net' == net - AsNet(InFlight(su.data, q, l[q])) + AsNet(InFlight(su.data, q, p))
    ensures NetOk(su, net', l[q := p])
  {
    var gone, come := InFlight(su.data, q, l[q]), InFlight(su.data, q, p);
    assert gone.Some? ==> net[gone.value] == 1;
    forall m ensures net'[m]
        == if Route(m) in l[q := p] && InFlight(su.data, Route(m), l[q := p][Route(m)]) == Some(m) then 1 else 0 {
      if Route(m) == q {
        assert net[m] == if gone == Some(m) then 1 else 0;
      }
    }
  }

  /** Only node x and the places of some pairs change. */
  lemma Rebuild(su: Setup, w: World, l: Ledger, w': World, l': Ledger, x: Id)
    requires su.Valid() && Agrees(su, w, l) && x in w.nodes && x in w'.nodes
    requires w'.nodes == w.nodes[x := w'.nodes[x]]
    requires Domains(su, w', l')
    requires forall i :: i in w.signatures && i != x ==> w'.signatures[i] == w.signatures[i]
    requires NodeOk(su, x, w'.nodes[x], w'.signatures[x]) && QueueOk(su, w'.nodes[x].signer.requests)
    requires forall s, c :: (s, c) in l' && (s == x || l'[(s, c)] != l[(s, c)]) ==>
                              SignerSide(su, w'.nodes[s], l'[(s, c)], s, c)
    requires forall s, c :: (s, c) in l' && (c == x || l'[(s, c)] != l[(s, c)]) ==>
                              CoordSide(w'.nodes[c].coordinator, l'[(s, c)], s)
    requires NetOk(su, w'.net, l')
    ensures Agrees(su, w', l')
  {
    hide SignerSide, CoordSide, NodeOk, QueueOk, NetOk;
  }

  /** As `Rebuild`, when only the pair (s, c) moves and x is one of its two ends. */
  lemma RebuildPair(su: Setup, w: World, l: Ledger, w': World, x: Id, s: Id, c: Id, p: Place)
    requires su.Valid() && Agrees(su, w, l) && (x == s || x == c) && (s, c) in l
    requires x in w'.nodes && w'.nodes == w.nodes[x := w'.nodes[x]]
    requires w'.signatures == w.signatures && w'.silent == w.silent && w'.panicked == w.panicked
    requires NodeOk(su, x, w'.nodes[x], w'.signatures[x]) && QueueOk(su, w'.nodes[x].signer.requests)
    requires SignerSide(su, w'.nodes[s], p, s, c) && CoordSide(w'.nodes[c].coordinator, p, s)
    requires forall d :: (x, d) in l && (x, d) != (s, c) ==> SignerSide(su, w'.nodes[x], l[(x, d)], x, d)
    requires forall s2 :: (s2, x) in l && (s2, x) != (s, c) ==> CoordSide(w'.nodes[x].coordinator, l[(s2, x)], s2)
    requires NetOk(su, w'.net, l[(s, c) := p])
    ensures Agrees(su, w', l[(s, c) := p])
  {
    hide SignerSide, CoordSide, NodeOk, QueueOk, NetOk;
    Rebuild(su, w, l, w', l[(s, c) := p], x);
  }

  /** Moving between places outside a session queue needs only the nonce to be the one held. */
  lemma SignerSideMoves(su: Setup, r: Roast, p: Place, p': Place, s: Id, c: Id)
    requires SignerSide(su, r, p, s, c)
    requires !p.Unsent? && !p'.Unsent? && p.Queued? == p'.Queued? == false
    requires forall n :: Holds(p, s, n) ==> Holds(p', s, n)
    requires InSession(p') ==> s in p'.pkg && |p'.pkg| == su.threshold
    ensures SignerSide(su, r, p', s, c)
  {}

  // -------------------------------------------------------------- deliveries

  lemma DeliveredIsExpected(su: Setup, w: World, l: Ledger, p: Packet)
    requires su.Valid() && Agrees(su, w, l) && p in w.net
    ensures Route(p) in l && InFlight(su.data, Route(p), l[Route(p)]) == Some(p)
    ensures p.from in su.members && p.to in su.members && p.to in w.nodes
  {
    assert w.net[p] > 0;
  }

  /** The place of the pair concerned once packet p has been handled. */
  ghost function PlaceAfter(w: World, l: Ledger, p: Packet): (q: Place)
    requires Route(p) in l && p.to in w.nodes
  {
    var place := l[Route(p)];
    match place
    case Sent(n) => if w.nodes[p.to].coordinator.Some? then Waiting(n) else Done(n)
    case Asked(sid, pkg) => Queued(sid, pkg)
    case Answered(sid, pkg, n) => if w.nodes[p.to].coordinator.Some? then Waiting(n) else Done(n)
    case _ => place
  }

  lemma DeliverNet(su: Setup, w: World, l: Ledger, p: Packet)
    requires NetOk(su, w.net, l) && p in w.net && p.to in w.nodes
    requires Route(p) in l && InFlight(su.data, Route(p), l[Route(p)]) == Some(p)
    ensures NetOk(su, Receive(w, p).net, l[Route(p) := PlaceAfter(w, l, p)])
  {
    NetMove(su, w.net, l, Route(p), PlaceAfter(w, l, p), Receive(w, p).net);
  }

  /** Queueing a request from c moves only the pair of c. */
  lemma EnqueueSide(su: Setup, r: Roast, r': Roast, p: Place, p': Place, s: Id, d: Id, c: Id, request: Request)
    requires SignerSide(su, r, p, s, d)
    requires r' == OnMessage(r, c, Sign(request))
    requires d == c ==> p == Asked(request.sid, request.commitments) && p' == Queued(request.sid, request.commitments)
    requires d != c ==> p' == p
    ensures SignerSide(su, r', p', s, d)
  {
    var requests := r.signer.requests;
    assert r'.signer.requests[|requests|] == (c, request);
    if p.Queued? {
      var k :| 0 <= k < |requests| && requests[k].0 == d;
      assert r'.signer.requests[k] == requests[k];
    }
  }

  lemma EnqueueNode(su: Setup, r: Roast, signatures: seq<Frost.Signature>, p: Place, s: Id, c: Id, request: Request)
    requires su.Valid() && NodeOk(su, s, r, signatures) && QueueOk(su, r.signer.requests)
    requires SignerSide(su, r, p, s, c) && !p.Queued? && c in su.Coords()
    ensures NodeOk(su, s, OnMessage(r, c, Sign(request)), signatures)
    ensures QueueOk(su, OnMessage(r, c, Sign(request)).signer.requests)
  {}

  lemma SessionSideMoves(k: Option<Coordinator>, p: Place, p': Place, s: Id)
    requires CoordSide(k, p, s) && InSession(p) && InSession(p') && p.sid == p'.sid && p.pkg == p'.pkg
    ensures CoordSide(k, p', s)
  {}

  lemma Parts(su: Setup, w: World, l: Ledger, s: Id, c: Id)
    requires su.Valid() && Agrees(su, w, l) && (s, c) in l
    ensures s in w.nodes && s in w.signatures && c in w.nodes && c in w.signatures && c in su.Coords()
    ensures NodeOk(su, s, w.nodes[s], w.signatures[s]) && QueueOk(su, w.nodes[s].signer.requests)
    ensures NodeOk(su, c, w.nodes[c], w.signatures[c]) && QueueOk(su, w.nodes[c].signer.requests)
    ensures SignerSide(su, w.nodes[s], l[(s, c)], s, c) && CoordSide(w.nodes[c].coordinator, l[(s, c)], s)
    ensures NetOk(su, w.net, l)
  {}

  lemma DeliverSign(su: Setup, w: World, l: Ledger, p: Packet) returns (l': Ledger)
    requires su.Valid() && Agrees(su, w, l) && p in w.net && p.msg.Sign?
    ensures p.to in w.nodes && Agrees(su, Receive(w, p), l')
    ensures Route(p) in l && l' == l[Route(p) := PlaceAfter(w, l, p)]
  {
    hide Agrees, SignerSide, CoordSide, NodeOk, QueueOk, NetOk;
    DeliveredIsExpected(su, w, l, p);
    var w', s, c, request := Receive(w, p), p.to, p.from, p.msg.request;
    Parts(su, w, l, s, c);
    DeliverNet(su, w, l, p);
    var place, place' := l[(s, c)], Queued(request.sid, request.commitments);
    l' := l[(s, c) := place'];
    forall d | (s, d) in l && d != c ensures SignerSide(su, w'.nodes[s], l[(s, d)], s, d) {
      Parts(su, w, l, s, d);
      EnqueueSide(su, w.nodes[s], w'.nodes[s], l[(s, d)], l[(s, d)], s, d, c, request);
    }
    EnqueueSide(su, w.nodes[s], w'.nodes[s], place, place', s, c, c, request);
    EnqueueNode(su, w.nodes[s], w.signatures[s], place, s, c, request);
    SessionSideMoves(w.nodes[c].coordinator, place, place', s);
    forall s2 | (s2, s) in l && (s2, s) != (s, c) ensures CoordSide(w'.nodes[s].coordinator, l[(s2, s)], s2) {
      Parts(su, w, l, s2, s);
    }
    RebuildPair(su, w, l, w', s, s, c, place');
  }

  lemma CommitSides(su: Setup, k: Coordinator, informed: bool, s: Id, n: Nonce, p: Place, s2: Id)
    requires su.Valid() && CoordinatorOk(su, k, informed) && s in su.members
    requires CoordSide(Some(k), Sent(n), s) && CoordSide(Some(k), p, s2)
    ensures CoordinatorOk(su, OnCommit(k, s, Commitment(n)), informed)
    ensures CoordSide(Some(OnCommit(k, s, Commitment(n))), if s2 == s then Waiting(n) else p, s2)
  {}

  lemma ResponseSides(su: Setup, k: Coordinator, informed: bool, s: Id, sid: nat, pkg: Commitments, n: Nonce, p: Place,
                      s2: Id)
    requires su.Valid() && CoordinatorOk(su, k, informed) && s in su.members && s in pkg
    requires CoordSide(Some(k), Answered(sid, pkg, n), s) && CoordSide(Some(k), p, s2)
    ensures var k' := OnResponse(k, s, Response(sid, Share(s, Package(pkg, su.data)), Commitment(n)));
            CoordinatorOk(su, k', informed) && CoordSide(Some(k'), if s2 == s then Waiting(n) else p, s2)
  {
    var k' := OnResponse(k, s, Response(sid, Share(s, Package(pkg, su.data)), Commitment(n)));
    assert SessionOk(su, k.sessions[sid]) && SessionOk(su, k'.sessions[sid]);
  }

  /** The coordinator half after a commit or a response, for any signer. */
  lemma DeliverSides(su: Setup, k: Option<Coordinator>, informed: bool, r: Roast, place: Place, p: Packet, q: Place,
                     s2: Id)
    requires su.Valid() && (k.Some? ==> CoordinatorOk(su, k.value, informed)) && p.from in su.members
    requires !p.msg.Sign? && InFlight(su.data, (p.from, p.to), place) == Some(p)
    requires InSession(place) ==> p.from in place.pkg
    requires r.coordinator == k && CoordSide(k, place, p.from) && CoordSide(k, q, s2)
    requires s2 == p.from ==> q == place
    ensures var k' := OnMessage(r, p.from, p.msg).coordinator;
            && (k.Some? <==> k'.Some?)
            && (k'.Some? ==> CoordinatorOk(su, k'.value, informed))
            && CoordSide(k', if s2 != p.from then q else if k.Some? then Waiting(place.nonce) else Done(place.nonce),
                         s2)
  {
    if k.Some? {
      if place.Sent? {
        CommitSides(su, k.value, informed, p.from, place.nonce, q, s2);
      } else {
        ResponseSides(su, k.value, informed, p.from, place.sid, place.pkg, place.nonce, q, s2);
      }
    }
  }

  lemma DeliverToCoordinator(su: Setup, w: World, l: Ledger, p: Packet) returns (l': Ledger)
    requires su.Valid() && Agrees(su, w, l) && p in w.net && !p.msg.Sign?
    ensures p.to in w.nodes && Agrees(su, Receive(w, p), l')
    ensures Route(p) in l && l' == l[Route(p) := PlaceAfter(w, l, p)]
  {
    hide Agrees, SignerSide, CoordSide, QueueOk, NetOk, CoordinatorOk, Holds;
    DeliveredIsExpected(su, w, l, p);
    var w', s, c := Receive(w, p), p.from, p.to;
    Parts(su, w, l, s, c);
    DeliverNet(su, w, l, p);
    var place, place' := l[(s, c)], PlaceAfter(w, l, p);
    l' := l[(s, c) := place'];
    SessionHasSigner(su, w.nodes[s], place, s, c);
    ReceivedHolds(place, place', s);
    SignerSideMoves(su, w.nodes[s], place, place', s, c);
    forall s2 | (s2, c) in l && s2 != s ensures CoordSide(w'.nodes[c].coordinator, l[(s2, c)], s2) {
      Parts(su, w, l, s2, c);
      DeliverSides(su, w.nodes[c].coordinator, c in su.informed, w.nodes[c], place, p, l[(s2, c)], s2);
    }
    DeliverSides(su, w.nodes[c].coordinator, c in su.informed, w.nodes[c], place, p, place, s);
    if s == c {
      SignerSideFrame(su, w.nodes[c], w'.nodes[c], place', s, c);
    }
    forall d | (c, d) in l && (c, d) != (s, c) ensures SignerSide(su, w'.nodes[c], l[(c, d)], c, d) {
      Parts(su, w, l, c, d);
      SignerSideFrame(su, w.nodes[c], w'.nodes[c], l[(c, d)], c, d);
    }
    RebuildPair(su, w, l, w', c, s, c, place');
  }

  lemma SignerSideFrame(su: Setup, r: Roast, r': Roast, p: Place, s: Id, c: Id)
    requires SignerSide(su, r, p, s, c) && r'.signer == r.signer && r'.coordinators == r.coordinators
    ensures SignerSide(su, r', p, s, c)
  {}

  lemma SessionHasSigner(su: Setup, r: Roast, p: Place, s: Id, c: Id)
    requires SignerSide(su, r, p, s, c)
    ensures InSession(p) ==> s in p.pkg
  {}

  lemma ReceivedHolds(p: Place, p': Place, s: Id)
    requires (p.Sent? || p.Answered?) && (p' == Waiting(p.nonce) || p' == Done(p.nonce))
    ensures forall n :: Holds(p, s, n) ==> Holds(p', s, n)
  {}

  // --------------------------------------------------------------- emissions

  ghost predicate MayComplete(r: Roast) {
    r.coordinator.Some? && r.signer.data.Some? && CompleteIds(r.coordinator.value) != {}
  }

  ghost predicate MayStart(r: Roast, t: nat) {
    r.coordinator.Some? && !MayComplete(r) && t <= |r.coordinator.value.commitments|
  }

  /** What `next_action` does at an honest node: a complete session always aggregates. */
  lemma PollCases(su: Setup, i: Id, r: Roast, signatures: seq<Frost.Signature>)
    requires su.Valid() && NodeOk(su, i, r, signatures)
    ensures MayComplete(r) ==> NextAction(r) == (r.(coordinator := None), Complete(Frost.Signature(su.data)))
    ensures MayStart(r, su.threshold) ==>
              var (k, request) := StartSession(r.coordinator.value);
              request.Some? && NextAction(r)
                  == (r.(coordinator := Some(k)), SendMany(request.value.commitments.Keys, Sign(request.value)))
    ensures !MayComplete(r) && !MayStart(r, su.threshold) ==> NextAction(r) == SignerAction(r)
  {
    if MayComplete(r) {
      var k := r.coordinator.value;
      var s := k.sessions[Min(CompleteIds(k))];
      assert SessionOk(su, s);
      SubsetSize(s.shares.Keys, s.commitments.Keys);
    }
  }

  lemma DrawNode(su: Setup, r: Roast, signatures: seq<Frost.Signature>, s: Id, c: Id)
    requires su.Valid() && NodeOk(su, s, r, signatures) && c in r.coordinators
    ensures NodeOk(su, s, r.(signer := DrawNonce(r.signer, c).0, coordinators := r.coordinators - {c}), signatures)
  {
    assert su.Coords() - (r.coordinators - {c}) == su.Coords() - r.coordinators + {c};
  }

  lemma DrawSide(su: Setup, r: Roast, r': Roast, p: Place, s: Id, c: Id, d: Id)
    requires SignerSide(su, r, p, s, d) && r.signer.id == s && c in r.coordinators && (d == c ==> p.Unsent?)
    requires r' == r.(signer := DrawNonce(r.signer, c).0, coordinators := r.coordinators - {c})
    ensures SignerSide(su, r', if d == c then Sent(Nonce(s, r.signer.drawn)) else p, s, d)
  {}

  lemma UnsentMoves(k: Option<Coordinator>, n: Nonce, s: Id)
    requires CoordSide(k, Unsent, s)
    ensures CoordSide(k, Sent(n), s)
  {}

  lemma UnsentIsPending(su: Setup, r: Roast, p: Place, s: Id, c: Id)
    requires SignerSide(su, r, p, s, c) && c in r.coordinators
    ensures p.Unsent?
  {}

  /** Node s sends its first commitment to the largest coordinator it has not written to. */
  lemma EmitCommit(su: Setup, w: World, l: Ledger, s: Id) returns (c: Id, l': Ledger)
    requires su.Valid() && Agrees(su, w, l) && s in w.nodes && s in w.signatures
    requires w.nodes[s].coordinators != {} && NextAction(w.nodes[s]) == SignerAction(w.nodes[s])
    ensures Agrees(su, Emit(w, s), l')
    ensures (s, c) in l && l[(s, c)].Unsent? && l' == l[(s, c) := Sent(Nonce(s, w.nodes[s].signer.drawn))]
  {
    hide Agrees, SignerSide, CoordSide, NodeOk, QueueOk, NetOk, CoordinatorOk, NextAction;
    var r, w' := w.nodes[s], Emit(w, s);
    c := Max(r.coordinators);
    NodeFacts(su, w, l, s, c);
    Parts(su, w, l, s, c);
    UnsentIsPending(su, r, l[(s, c)], s, c);
    var place := Sent(Nonce(s, r.signer.drawn));
    l' := l[(s, c) := place];
    DrawNode(su, r, w.signatures[s], s, c);
    DrawSide(su, r, w'.nodes[s], l[(s, c)], s, c, c);
    UnsentMoves(w.nodes[c].coordinator, place.nonce, s);
    forall d | (s, d) in l && d != c ensures SignerSide(su, w'.nodes[s], l[(s, d)], s, d) {
      Parts(su, w, l, s, d);
      DrawSide(su, r, w'.nodes[s], l[(s, d)], s, c, d);
    }
    forall s2 | (s2, s) in l && (s2, s) != (s, c) ensures CoordSide(w'.nodes[s].coordinator, l[(s2, s)], s2) {
      Parts(su, w, l, s2, s);
    }
    NetMove(su, w.net, l, (s, c), place, w'.net);
    RebuildPair(su, w, l, w', s, s, c, place);
  }

  lemma NodeFacts(su: Setup, w: World, l: Ledger, s: Id, c: Id)
    requires su.Valid() && Agrees(su, w, l) && s in w.nodes && s in w.signatures
    ensures NodeOk(su, s, w.nodes[s], w.signatures[s]) && w.nodes[s].signer.id == s
    ensures c in w.nodes[s].coordinators ==> (s, c) in l
    ensures forall k :: 0 <= k < |w.nodes[s].signer.requests| && w.nodes[s].signer.requests[k].0 == c ==> (s, c) in l
  {
    assert QueueOk(su, w.nodes[s].signer.requests);
  }

  /** At an honest node that has the data the oldest request can always be signed. */
  lemma AnswerOldest(su: Setup, r: Roast, signatures: seq<Frost.Signature>, p: Place, s: Id)
    requires su.Valid() && NodeOk(su, s, r, signatures) && r.signer.requests != [] && r.signer.data.Some?
    requires SignerSide(su, r, p, s, r.signer.requests[0].0)
    ensures p.Queued? && r.signer.requests[0].1 == Request(p.sid, p.pkg)
    ensures var c := r.signer.requests[0].0;
            var (signer, commitment) := DrawNonce(Pop(r.signer), c);
            && Respond(r.signer) == (signer, Answer(c, Response(p.sid, Share(s, Package(p.pkg, su.data)), commitment)))
            && commitment == Commitment(Nonce(s, r.signer.drawn))
  {
    assert r.signer.requests[0].1 == Request(p.sid, p.pkg);
  }

  lemma AnswerNode(su: Setup, r: Roast, signatures: seq<Frost.Signature>, s: Id)
    requires su.Valid() && NodeOk(su, s, r, signatures) && QueueOk(su, r.signer.requests) && r.signer.requests != []
    requires r.signer.requests[0].0 in r.signer.nonces
    ensures var r' := r.(signer := DrawNonce(Pop(r.signer), r.signer.requests[0].0).0);
            NodeOk(su, s, r', signatures) && QueueOk(su, r'.signer.requests)
  {
    var c := r.signer.requests[0].0;
    assert r.signer.nonces.Keys - {c} + {c} == r.signer.nonces.Keys;
  }

  lemma AnswerSide(su: Setup, r: Roast, p: Place, s: Id, d: Id)
    requires SignerSide(su, r, p, s, d) && r.signer.id == s && r.signer.requests != []
    requires forall j, k :: 0 <= j < k < |r.signer.requests| ==> r.signer.requests[j].0 != r.signer.requests[k].0
    ensures var c := r.signer.requests[0].0;
            var r' := r.(signer := DrawNonce(Pop(r.signer), c).0);
            SignerSide(su, r', if d == c && p.Queued? then Answered(p.sid, p.pkg, Nonce(s, r.signer.drawn)) else p, s,
                       d)
  {
    var requests := r.signer.requests;
    var r' := r.(signer := DrawNonce(Pop(r.signer), requests[0].0).0);
    assert forall k :: 0 <= k < |r'.signer.requests| ==> r'.signer.requests[k] == requests[k + 1];
    if p.Queued? && d != requests[0].0 {
      var k :| 0 <= k < |requests| && requests[k].0 == d;
      assert r'.signer.requests[k - 1] == requests[k];
    }
    if d == requests[0].0 {
      assert requests[0].0 == d;
    }
  }

  lemma QueueDistinct(su: Setup, requests: seq<(Id, Request)>)
    requires su.Valid() && QueueOk(su, requests)
    ensures forall j, k :: 0 <= j < k < |requests| ==> requests[j].0 != requests[k].0
  {}

  lemma HeldNonce(su: Setup, r: Roast, p: Place, s: Id, c: Id)
    requires SignerSide(su, r, p, s, c) && !p.Unsent?
    ensures c in r.signer.nonces
  {}

  /** Node s answers the oldest signing request in its queue. */
  lemma EmitAnswer(su: Setup, w: World, l: Ledger, s: Id) returns (c: Id, l': Ledger)
    requires su.Valid() && Agrees(su, w, l) && s in w.nodes && s in w.signatures
    requires w.nodes[s].coordinators == {} && w.nodes[s].signer.requests != [] && w.nodes[s].signer.data.Some?
    requires NextAction(w.nodes[s]) == SignerAction(w.nodes[s])
    ensures Agrees(su, Emit(w, s), l')
    ensures (s, c) in l && l[(s, c)].Queued?
    ensures l' == l[(s, c) := Answered(l[(s, c)].sid, l[(s, c)].pkg, Nonce(s, w.nodes[s].signer.drawn))]
  {
    hide Agrees, SignerSide, CoordSide, NodeOk, QueueOk, NetOk, CoordinatorOk, NextAction, Respond;
    var r, w' := w.nodes[s], Emit(w, s);
    c := r.signer.requests[0].0;
    NodeFacts(su, w, l, s, c);
    Parts(su, w, l, s, c);
    var p := l[(s, c)];
    AnswerOldest(su, r, w.signatures[s], p, s);
    HeldNonce(su, r, p, s, c);
    AnswerNode(su, r, w.signatures[s], s);
    QueueDistinct(su, r.signer.requests);
    var place := Answered(p.sid, p.pkg, Nonce(s, r.signer.drawn));
    l' := l[(s, c) := place];
    AnswerSide(su, r, p, s, c);
    SessionSideMoves(w.nodes[c].coordinator, p, place, s);
    forall d | (s, d) in l && d != c ensures SignerSide(su, w'.nodes[s], l[(s, d)], s, d) {
      Parts(su, w, l, s, d);
      AnswerSide(su, r, l[(s, d)], s, d);
    }
    forall s2 | (s2, s) in l && (s2, s) != (s, c) ensures CoordSide(w'.nodes[s].coordinator, l[(s2, s)], s2) {
      Parts(su, w, l, s2, s);
    }
    NetMove(su, w.net, l, (s, c), place, w'.net);
    RebuildPair(su, w, l, w', s, s, c, place);
  }

  // ------------------------------------------------------------------ late data

  lemma InformSide(su: Setup, r: Roast, p: Place, s: Id, c: Id)
    requires SignerSide(su, r, p, s, c)
    ensures SignerSide(su, SetData(r, su.data), p, s, c)
  {}

  lemma InformNode(su: Setup, i: Id, r: Roast, signatures: seq<Frost.Signature>)
    requires su.Valid() && NodeOk(su, i, r, signatures)
    ensures NodeOk(su, i, SetData(r, su.data), signatures)
  {
    hide CoordinatorOk;
  }

  /** Node i is given the data. */
  lemma InformKeeps(su: Setup, w: World, l: Ledger, i: Id)
    requires su.Valid() && Agrees(su, w, l) && i in w.nodes && i in w.signatures
    ensures Agrees(su, w.(nodes := w.nodes[i := SetData(w.nodes[i], su.data)]), l)
  {
    hide Agrees, Domains, SignerSide, CoordSide, NodeOk, QueueOk, NetOk;
    var w' := w.(nodes := w.nodes[i := SetData(w.nodes[i], su.data)]);
    NodeFacts(su, w, l, i, i);
    QueueOf(su, w, l, i);
    InformNode(su, i, w.nodes[i], w.signatures[i]);
    Whole(su, w, l);
    DomainsKept(su, w, l, w', l);
    forall s, d | (s, d) in l && s == i ensures SignerSide(su, w'.nodes[s], l[(s, d)], s, d) {
      Parts(su, w, l, s, d);
      InformSide(su, w.nodes[s], l[(s, d)], s, d);
    }
    forall s, d | (s, d) in l && d == i ensures CoordSide(w'.nodes[d].coordinator, l[(s, d)], s) {
      Parts(su, w, l, s, d);
    }
    Rebuild(su, w, l, w', l, i);
  }

  lemma QueueOf(su: Setup, w: World, l: Ledger, i: Id)
    requires su.Valid() && Agrees(su, w, l) && i in w.nodes
    ensures QueueOk(su, w.nodes[i].signer.requests)
  {}

  // ----------------------------------------------------- coordinator emissions

  /** The ledger once coordinator c is gone: the commitments it had waiting are of no more use. */
  ghost function Retire(l: Ledger, c: Id): (l': Ledger)
    ensures l'.Keys == l.Keys
    ensures forall q :: q in l ==> l'[q] == if q.1 == c && l[q].Waiting? then Done(l[q].nonce) else l[q]
  {
    map q | q in l :: if q.1 == c && l[q].Waiting? then Done(l[q].nonce) else l[q]
  }

  lemma RetireNet(su: Setup, net: multiset<Packet>, l: Ledger, c: Id)
    requires NetOk(su, net, l)
    ensures NetOk(su, net + multiset{}, Retire(l, c))
  {
    assert net + multiset{} == net;
    assert forall q :: q in l ==> InFlight(su.data, q, Retire(l, c)[q]) == InFlight(su.data, q, l[q]);
  }

  lemma RetireSides(su: Setup, r: Roast, k: Option<Coordinator>, p: Place, s: Id, c: Id)
    requires SignerSide(su, r, p, s, c) && CoordSide(k, p, s)
    ensures var p' := if p.Waiting? then Done(p.nonce) else p;
            SignerSide(su, r, p', s, c) && CoordSide(None, p', s)
  {}

  lemma RetireNode(su: Setup, r: Roast, c: Id)
    requires su.Valid() && NodeOk(su, c, r, []) && c in su.Coords()
    ensures NodeOk(su, c, r.(coordinator := None), [] + [Frost.Signature(su.data)])
  {}

  lemma CoordinatorIsUnsigned(su: Setup, i: Id, r: Roast, signatures: seq<Frost.Signature>)
    requires su.Valid() && NodeOk(su, i, r, signatures) && r.coordinator.Some?
    ensures signatures == [] && i in su.Coords()
  {}

  lemma EmitComplete(su: Setup, w: World, l: Ledger, c: Id)
    requires su.Valid() && Agrees(su, w, l) && c in w.nodes && c in w.signatures
    requires w.nodes[c].coordinator.Some?
    requires NextAction(w.nodes[c]) == (w.nodes[c].(coordinator := None), Complete(Frost.Signature(su.data)))
    ensures Agrees(su, Emit(w, c), Retire(l, c))
  {
    hide Agrees, Domains, SignerSide, CoordSide, NodeOk, QueueOk, NetOk, CoordinatorOk, NextAction;
    var r, w', l' := w.nodes[c], Emit(w, c), Retire(l, c);
    assert w'.nodes.Keys == w.nodes.Keys && w'.signatures.Keys == w.signatures.Keys;
    NodeFacts(su, w, l, c, c);
    Whole(su, w, l);
    CoordinatorIsUnsigned(su, c, r, w.signatures[c]);
    RetireNode(su, r, c);
    Parts(su, w, l, c, c);
    RetireNet(su, w.net, l, c);
    forall s, d | (s, d) in l' && (s == c || l'[(s, d)] != l[(s, d)])
      ensures SignerSide(su, w'.nodes[s], l'[(s, d)], s, d)
    {
      Parts(su, w, l, s, d);
      RetireSides(su, w.nodes[s], w.nodes[d].coordinator, l[(s, d)], s, d);
      SignerSideFrame(su, w.nodes[s], w'.nodes[s], l'[(s, d)], s, d);
    }
    forall s, d | (s, d) in l' && (d == c || l'[(s, d)] != l[(s, d)])
      ensures CoordSide(w'.nodes[d].coordinator, l'[(s, d)], s)
    {
      Parts(su, w, l, s, d);
      RetireSides(su, w.nodes[s], w.nodes[d].coordinator, l[(s, d)], s, d);
    }
    DomainsKept(su, w, l, w', l');
    Rebuild(su, w, l, w', l', c);
  }

  lemma DomainsKept(su: Setup, w: World, l: Ledger, w': World, l': Ledger)
    requires su.Valid() && Domains(su, w, l)
    requires w'.nodes.Keys == w.nodes.Keys && w'.signatures.Keys == w.signatures.Keys && l'.Keys == l.Keys
    requires w'.silent == w.silent && w'.panicked == w.panicked
    ensures Domains(su, w', l')
  {}

  lemma Whole(su: Setup, w: World, l: Ledger)
    requires su.Valid() && Agrees(su, w, l)
    ensures Domains(su, w, l) && NetOk(su, w.net, l)
    ensures forall c :: c in su.Coords() ==> (c, c) in l
  {}

  // ---------------------------------------------------------- the session bound

  /** Distinct open sessions, each incomplete, wait for distinct signers. */
  lemma {:induction false} PendingSigners(su: Setup, w: World, l: Ledger, c: Id, m: nat) returns (pending: set<Id>)
    requires su.Valid() && Agrees(su, w, l) && c in su.Coords() && c in w.nodes && w.nodes[c].coordinator.Some?
    requires c in su.informed && CompleteIds(w.nodes[c].coordinator.value) == {}
             && m <= w.nodes[c].coordinator.value.sessionId
    ensures pending <= su.members && |pending| == m
    ensures forall s :: s in pending ==> (s, c) in l && InSession(l[(s, c)]) && l[(s, c)].sid < m
  {
    hide Agrees;
    pending := {};
    if m > 0 {
      pending := PendingSigners(su, w, l, c, m - 1);
      var s := PendingSigner(su, w, l, c, m - 1);
      pending := pending + {s};
    }
  }

  lemma PendingSigner(su: Setup, w: World, l: Ledger, c: Id, sid: nat) returns (s: Id)
    requires su.Valid() && Agrees(su, w, l) && c in su.Coords() && c in w.nodes && w.nodes[c].coordinator.Some?
    requires c in su.informed && CompleteIds(w.nodes[c].coordinator.value) == {}
             && sid < w.nodes[c].coordinator.value.sessionId
    ensures s in su.members && (s, c) in l && PendingIn(l[(s, c)], sid)
  {
    hide SignerSide, QueueOk, NetOk;
    var k := w.nodes[c].coordinator.value;
    assert NodeOk(su, c, w.nodes[c], w.signatures[c]);
    assert sid in k.sessions;
    assert sid !in CompleteIds(k) && SessionOk(su, k.sessions[sid]);
    s := Missing(k.sessions[sid]);
    assert CoordSide(w.nodes[c].coordinator, l[(s, c)], s);
  }

  lemma Missing(s: Session) returns (i: Id)
    requires !s.IsComplete() && s.shares.Keys <= s.commitments.Keys
    ensures i in s.commitments && i !in s.shares
  {
    assert s.shares.Keys != s.commitments.Keys;
    i :| i in s.commitments.Keys && i !in s.shares.Keys;
  }

  /** With t signers waiting at a coordinator that always had the data there is room for one more session. */
  lemma SessionRoom(su: Setup, w: World, l: Ledger, c: Id)
    requires su.Valid() && Agrees(su, w, l) && c in w.nodes && c in w.signatures && w.nodes[c].coordinator.Some?
    requires c in su.informed && MayStart(w.nodes[c], su.threshold)
    ensures w.nodes[c].coordinator.value.sessionId < su.Spare()
  {
    hide Agrees, SignerSide, QueueOk, NetOk, CoordSide, CoordinatorOk;
    var k := w.nodes[c].coordinator.value;
    Whole(su, w, l);
    NodeFacts(su, w, l, c, c);
    NodeCoordinator(su, c, w.nodes[c], w.signatures[c]);
    var pending := PendingSigners(su, w, l, c, k.sessionId);
    forall s | s in pending ensures s !in k.commitments {
      Parts(su, w, l, s, c);
      PendingIsNotWaiting(k, l[(s, c)], s);
    }
    assert pending !! k.commitments.Keys;
    SubsetSize(pending + k.commitments.Keys, su.members);
  }

  lemma PendingIsNotWaiting(k: Coordinator, p: Place, s: Id)
    requires CoordSide(Some(k), p, s) && InSession(p)
    ensures s !in k.commitments
  {}

  /** The ledger once c has asked every signer in `pkg` to sign in session `sid`. */
  ghost function Ask(l: Ledger, c: Id, sid: nat, pkg: Commitments): (l': Ledger)
    ensures l'.Keys == l.Keys
    ensures forall q :: q in l ==> l'[q] == if q.1 == c && q.0 in pkg then Asked(sid, pkg) else l[q]
  {
    map q | q in l :: if q.1 == c && q.0 in pkg then Asked(sid, pkg) else l[q]
  }

  lemma AskNet(su: Setup, net: multiset<Packet>, l: Ledger, c: Id, sid: nat, pkg: Commitments)
    requires NetOk(su, net, l)
    requires forall s :: s in pkg ==> (s, c) in l && l[(s, c)].Waiting?
    ensures NetOk(su, net + Packets(c, SendMany(pkg.Keys, Sign(Request(sid, pkg)))), Ask(l, c, sid, pkg))
  {
    var l' := Ask(l, c, sid, pkg);
    var sent := set s | s in pkg.Keys :: Packet(c, s, Sign(Request(sid, pkg)));
    assert Packets(c, SendMany(pkg.Keys, Sign(Request(sid, pkg)))) == multiset(sent);
    forall m ensures (net + multiset(sent))[m]
        == if Route(m) in l' && InFlight(su.data, Route(m), l'[Route(m)]) == Some(m) then 1 else 0 {
      assert net[m] == if Route(m) in l && InFlight(su.data, Route(m), l[Route(m)]) == Some(m) then 1 else 0;
      assert multiset(sent)[m] == if m in sent then 1 else 0;
    }
  }

  lemma AskSignerSide(su: Setup, r: Roast, n: Nonce, s: Id, c: Id, sid: nat, pkg: Commitments)
    requires SignerSide(su, r, Waiting(n), s, c)
    requires s in pkg && pkg[s] == Commitment(n) && |pkg| == su.threshold
    ensures SignerSide(su, r, Asked(sid, pkg), s, c)
  {}

  /** How `start_session` looks; the number of the new session may be in use when it has wrapped. */
  ghost predicate Opened(k: Coordinator, k': Coordinator, pkg: Commitments) {
    && k' == k.(sessionId := (k.sessionId + 1) % SESSION_IDS, commitments := k'.commitments,
                sessions := k.sessions[k.sessionId := Session(pkg, map[])])
    && pkg.Keys <= k.commitments.Keys && |pkg| == k.threshold
    && (forall s :: s in pkg ==> pkg[s] == k.commitments[s])
    && k'.commitments == k.commitments - pkg.Keys
  }

  lemma StartOpens(su: Setup, k: Coordinator, informed: bool)
    requires su.Valid() && CoordinatorOk(su, k, informed) && su.threshold <= |k.commitments|
    requires informed ==> k.sessionId < su.Spare()
    ensures var (k', request) := StartSession(k);
            && request.Some? && request.value.sid == k.sessionId
            && Opened(k, k', request.value.commitments) && CoordinatorOk(su, k', informed)
            && (informed ==> k'.sessionId == k.sessionId + 1)
  {
    var low := Lowest(k.commitments.Keys, k.threshold);
    var pkg := Restrict(k.commitments, low);
    assert pkg.Keys == low;
    assert SessionOk(su, Session(pkg, map[]));
  }

  lemma OpenedAsked(k: Coordinator, k': Coordinator, pkg: Commitments, p: Place, s: Id)
    requires Opened(k, k', pkg) && CoordSide(Some(k), p, s) && s in pkg
    ensures p.Waiting? && pkg[s] == Commitment(p.nonce)
    ensures CoordSide(Some(k'), Asked(k.sessionId, pkg), s)
  {}

  lemma OpenedOther(k: Coordinator, k': Coordinator, pkg: Commitments, p: Place, s: Id)
    requires Opened(k, k', pkg) && CoordSide(Some(k), p, s) && s !in pkg
    ensures CoordSide(Some(k'), p, s)
  {}

  lemma OpenedSide(k: Coordinator, k': Coordinator, pkg: Commitments, p: Place, s: Id)
    requires Opened(k, k', pkg) && CoordSide(Some(k), p, s)
    ensures s in pkg ==> p.Waiting? && pkg[s] == Commitment(p.nonce)
    ensures CoordSide(Some(k'), if s in pkg then Asked(k.sessionId, pkg) else p, s)
  {
    hide CoordSide, Opened;
    if s in pkg {
      OpenedAsked(k, k', pkg, p, s);
    } else {
      OpenedOther(k, k', pkg, p, s);
    }
  }

  lemma OpenNode(su: Setup, r: Roast, signatures: seq<Frost.Signature>, c: Id, k': Coordinator)
    requires su.Valid() && NodeOk(su, c, r, signatures) && r.coordinator.Some?
             && CoordinatorOk(su, k', c in su.informed)
    ensures NodeOk(su, c, r.(coordinator := Some(k')), signatures)
  {}

  lemma EmitRequests(su: Setup, w: World, l: Ledger, c: Id) returns (pkg: Commitments, l': Ledger)
    requires su.Valid() && Agrees(su, w, l) && c in w.nodes && c in w.signatures && MayStart(w.nodes[c], su.threshold)
    ensures Agrees(su, Emit(w, c), l')
    ensures l' == Ask(l, c, w.nodes[c].coordinator.value.sessionId, pkg) && |pkg| == su.threshold
    ensures forall s :: s in pkg ==> (s, c) in l && l[(s, c)].Waiting?
    ensures Emit(w, c).nodes[c].coordinator.Some?
    ensures c in su.informed ==>
              && Emit(w, c).nodes[c].coordinator.value.sessionId == w.nodes[c].coordinator.value.sessionId + 1
              && w.nodes[c].coordinator.value.sessionId < su.Spare()
  {
    hide Agrees, Domains, SignerSide, CoordSide, NodeOk, QueueOk, NetOk, CoordinatorOk, NextAction, StartSession;
    var r, w' := w.nodes[c], Emit(w, c);
    assert w'.nodes.Keys == w.nodes.Keys && w'.signatures.Keys == w.signatures.Keys;
    var k := r.coordinator.value;
    NodeFacts(su, w, l, c, c);
    NodeCoordinator(su, c, r, w.signatures[c]);
    Whole(su, w, l);
    if c in su.informed {
      SessionRoom(su, w, l, c);
    }
    PollCases(su, c, r, w.signatures[c]);
    StartOpens(su, k, c in su.informed);
    var k' := StartSession(k).0;
    pkg := StartSession(k).1.value.commitments;
    var sid := k.sessionId;
    l' := Ask(l, c, sid, pkg);
    forall s | s in pkg ensures (s, c) in l && l[(s, c)].Waiting? {
      Parts(su, w, l, s, c);
      OpenedSide(k, k', pkg, l[(s, c)], s);
    }
    AskNet(su, w.net, l, c, sid, pkg);
    OpenNode(su, r, w.signatures[c], c, k');
    Parts(su, w, l, c, c);
    forall s, d | (s, d) in l' && (s == c || l'[(s, d)] != l[(s, d)])
      ensures SignerSide(su, w'.nodes[s], l'[(s, d)], s, d)
    {
      Parts(su, w, l, s, d);
      if d == c && s in pkg {
        OpenedSide(k, k', pkg, l[(s, d)], s);
        AskSignerSide(su, w.nodes[s], l[(s, d)].nonce, s, d, sid, pkg);
      }
      SignerSideFrame(su, w.nodes[s], w'.nodes[s], l'[(s, d)], s, d);
    }
    forall s, d | (s, d) in l' && (d == c || l'[(s, d)] != l[(s, d)])
      ensures CoordSide(w'.nodes[d].coordinator, l'[(s, d)], s)
    {
      Parts(su, w, l, s, d);
      OpenedSide(k, k', pkg, l[(s, d)], s);
    }
    DomainsKept(su, w, l, w', l');
    Rebuild(su, w, l, w', l', c);
  }

  lemma NodeCoordinator(su: Setup, i: Id, r: Roast, signatures: seq<Frost.Signature>)
    requires su.Valid() && NodeOk(su, i, r, signatures) && r.coordinator.Some?
    ensures i in su.Coords() && CoordinatorOk(su, r.coordinator.value, i in su.informed)
    ensures r.coordinator.value.commitments.Keys <= su.members && r.coordinator.value.threshold == su.threshold
  {}
}
