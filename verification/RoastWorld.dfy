/**
  ROAST as a distributed protocol: n honest nodes, each running one `Roast`, a multiset of messages in
  flight, and members that may fall silent at any point. All nodes are given the same data, some of them
  when they start and the others at any later point.
 */
module RoastWorld {
  import opened Options
  import opened Frost
  import opened RoastSpec
  import opened FiniteSets

  /** `informed` are the nodes that have the data from the start. */
  datatype Setup = Setup(members: set<Id>, threshold: nat, data: Data, informed: set<Id>) {
    ghost predicate Valid() {
      1 <= threshold <= |members| < SESSION_IDS
    }
    ghost function Coords(): (c: set<Id>)
      requires Valid()
      ensures IsLowest(members, Spare(), c)
    {
      Coordinators(members, threshold)
    }
    /** Every coordinator has the data from the start. */
    ghost predicate CoordinatorsInformed()
      requires Valid()
    {
      Coords() <= informed
    }
    /** n - t + 1, the number of coordinators and of sessions each may open. */
    ghost function Spare(): (n: nat)
      requires Valid()
    {
      |members| - threshold + 1
    }
  }

  datatype Packet = Packet(from: Id, to: Id, msg: Message)

  datatype World = World(nodes: map<Id, Roast>, net: multiset<Packet>, silent: set<Id>,
                         signatures: map<Id, seq<Frost.Signature>>, panicked: set<Id>)

  datatype Event = Act(node: Id) | Deliver(packet: Packet) | FallSilent(node: Id) | Inform(node: Id)

  ghost function Init(su: Setup): (w: World)
    requires su.Valid()
  {
    World(map i | i in su.members :: InitNode(su, i), multiset{}, {}, map i | i in su.members :: [], {})
  }

  ghost function InitNode(su: Setup, i: Id): (r: Roast)
    requires su.Valid()
  {
    var r := NewRoast(i, su.threshold, su.Coords());
    if i in su.informed then SetData(r, su.data) else r
  }

  ghost function Packets(from: Id, action: Action): (packets: multiset<Packet>) {
    match action
    case Send(to, msg) => multiset{Packet(from, to, msg)}
    case SendMany(peers, msg) => multiset(set peer | peer in peers :: Packet(from, peer, msg))
    case _ => multiset{}
  }

  /** One `Roast::next_action` at node i, with everything it sends put in flight. */
  ghost function Emit(w: World, i: Id): (w': World)
    requires i in w.nodes && i in w.signatures
  {
    var (r, action) := NextAction(w.nodes[i]);
    w.(nodes := w.nodes[i := r],
       net := w.net + Packets(i, action),
       signatures := if action.Complete? then w.signatures[i := w.signatures[i] + [action.signature]] else w.signatures,
       panicked := if action.Panic? then w.panicked + {i} else w.panicked)
  }

  ghost function Receive(w: World, p: Packet): (w': World)
    requires p.to in w.nodes
  {
    w.(nodes := w.nodes[p.to := OnMessage(w.nodes[p.to], p.from, p.msg)], net := w.net - multiset{p})
  }

  /** The message of `action` that node i addressed to itself. */
  ghost function ToSelf(i: Id, action: Action): (p: Option<Packet>) {
    match action
    case Send(to, msg) => if to == i then Some(Packet(i, i, msg)) else None
    case SendMany(peers, msg) => if i in peers then Some(Packet(i, i, msg)) else None
    case _ => None
  }

  ghost predicate Enabled(su: Setup, w: World, e: Event)
    requires su.Valid()
  {
    match e
    case Act(i) => i in w.nodes && i in w.signatures && i !in w.silent && !NextAction(w.nodes[i]).1.Idle?
    case Deliver(p) => p in w.net && p.to in w.nodes && p.to !in w.silent
    case FallSilent(i) => i in su.members && i !in w.silent && |w.silent| < |su.members| - su.threshold
    case Inform(i) => i in w.nodes && w.nodes[i].signer.data.None?
  }

  /** Acting includes handing a node its own message at once, as `Tss::next_action` does. */
  ghost function Next(su: Setup, w: World, e: Event): (w': World)
    requires su.Valid() && Enabled(su, w, e)
  {
    match e
    case Act(i) =>
      var self := ToSelf(i, NextAction(w.nodes[i]).1);
      if self.Some? then Receive(Emit(w, i), self.value) else Emit(w, i)
    case Deliver(p) => Receive(w, p)
    case FallSilent(i) => w.(silent := w.silent + {i})
    case Inform(i) => w.(nodes := w.nodes[i := SetData(w.nodes[i], su.data)])
  }

  /** The world after `events`, or None when one of them was not possible. */
  ghost function After(su: Setup, events: seq<Event>): (w: Option<World>)
    requires su.Valid()
  {
    if events == [] then Some(Init(su))
    else
      var before := After(su, events[..|events| - 1]);
      var e := events[|events| - 1];
      if before.None? || !Enabled(su, before.value, e) then None
      else Some(Next(su, before.value, e))
  }

  // ------------------------------------------------------------------- ledger

  /** Where the one live commitment of a signer towards a coordinator is. */
  datatype Place =
    | Unsent
    | Sent(nonce: Nonce)
    | Waiting(nonce: Nonce)
    | Asked(sid: nat, pkg: Commitments)
    | Queued(sid: nat, pkg: Commitments)
    | Answered(sid: nat, pkg: Commitments, nonce: Nonce)
    | Done(nonce: Nonce)

  type Ledger = map<(Id, Id), Place>

  ghost predicate InSession(p: Place) {
    p.Asked? || p.Queued? || p.Answered?
  }

  ghost predicate PendingIn(p: Place, sid: nat) {
    InSession(p) && p.sid == sid
  }

  /** The nonce the signer keeps while its commitment is at `p`. */
  ghost predicate Holds(p: Place, s: Id, nonce: Nonce) {
    match p
    case Unsent => false
    case Sent(n) => n == nonce
    case Waiting(n) => n == nonce
    case Asked(_, pkg) => s in pkg && pkg[s] == Commitment(nonce)
    case Queued(_, pkg) => s in pkg && pkg[s] == Commitment(nonce)
    case Answered(_, _, n) => n == nonce
    case Done(n) => n == nonce
  }

  /** The signer whose commitment a packet concerns, and the coordinator. */
  ghost function Route(p: Packet): (q: (Id, Id)) {
    if p.msg.Sign? then (p.to, p.from) else (p.from, p.to)
  }

  /** The packet in flight for the pair q while its commitment is at `p`. */
  ghost function InFlight(data: Data, q: (Id, Id), p: Place): (o: Option<Packet>)
    ensures o.Some? ==> Route(o.value) == q
  {
    match p
    case Sent(n) => Some(Packet(q.0, q.1, Commit(Commitment(n))))
    case Asked(sid, pkg) => Some(Packet(q.1, q.0, Sign(Request(sid, pkg))))
    case Answered(sid, pkg, n) =>
      Some(Packet(q.0, q.1, Message.Signature(Response(sid, Share(q.0, Package(pkg, data)), Commitment(n)))))
    case _ => None
  }

  // ---------------------------------------------------------------- invariant

  ghost predicate NodeOk(su: Setup, i: Id, r: Roast, signatures: seq<Frost.Signature>)
    requires su.Valid()
  {
    && r.signer.id == i && r.signer.threshold == su.threshold
    && (r.signer.data == Some(su.data) || (r.signer.data.None? && i !in su.informed))
    && r.coordinators <= su.Coords()
    && r.signer.nonces.Keys == su.Coords() - r.coordinators
    && (r.coordinator.Some? ==> i in su.Coords() && CoordinatorOk(su, r.coordinator.value, i in su.informed))
    && signatures == if i in su.Coords() && r.coordinator.None? then [Frost.Signature(su.data)] else []
  }

  /** Without the data a coordinator may go on opening sessions until their numbers wrap. */
  ghost predicate CoordinatorOk(su: Setup, c: Coordinator, informed: bool)
    requires su.Valid()
  {
    && c.threshold == su.threshold
    && c.commitments.Keys <= su.members
    && (informed ==> c.sessionId <= su.Spare() && forall sid :: sid in c.sessions <==> 0 <= sid < c.sessionId)
    && (forall sid :: sid in c.sessions ==> SessionOk(su, c.sessions[sid]))
  }

  ghost predicate SessionOk(su: Setup, s: Session) {
    && |s.commitments| == su.threshold
    && s.commitments.Keys <= su.members
    && s.shares.Keys <= s.commitments.Keys
    && forall i :: i in s.shares ==> s.shares[i] == Share(i, Package(s.commitments, su.data))
  }

  /** The signer's half of the bookkeeping for the pair (s, c). */
  ghost predicate SignerSide(su: Setup, r: Roast, p: Place, s: Id, c: Id) {
    && (p.Unsent? <==> c in r.coordinators)
    && (!p.Unsent? ==> c in r.signer.nonces && Holds(p, s, r.signer.nonces[c]))
    && (InSession(p) ==> s in p.pkg && |p.pkg| == su.threshold)
    && (p.Queued? <==> exists k :: 0 <= k < |r.signer.requests| && r.signer.requests[k].0 == c)
    && (forall k :: 0 <= k < |r.signer.requests| && r.signer.requests[k].0 == c ==>
          p.Queued? && r.signer.requests[k].1 == Request(p.sid, p.pkg))
  }

  /** The session is still the one the signer was asked to sign in, unless its number was reused without s. */
  ghost predicate SameSession(session: Session, p: Place, s: Id)
    requires InSession(p)
  {
    s in session.commitments ==> session.commitments == p.pkg && s !in session.shares
  }

  /** The coordinator's half of the bookkeeping for the signer s. */
  ghost predicate CoordSide(k: Option<Coordinator>, p: Place, s: Id) {
    if k.None? then !p.Waiting?
    else
      var c := k.value;
      && !p.Done?
      && (p.Waiting? <==> s in c.commitments)
      && (p.Waiting? ==> c.commitments[s] == Commitment(p.nonce))
      && (p.Unsent? || p.Sent? <==> s !in c.committed)
      && (InSession(p) ==> p.sid in c.sessions && SameSession(c.sessions[p.sid], p, s))
      && (forall sid :: sid in c.sessions && s in c.sessions[sid].commitments && s !in c.sessions[sid].shares
            ==> PendingIn(p, sid))
  }

  ghost predicate QueueOk(su: Setup, requests: seq<(Id, Request)>)
    requires su.Valid()
  {
    && (forall k :: 0 <= k < |requests| ==> requests[k].0 in su.Coords())
    && (forall j, k :: 0 <= j < k < |requests| ==> requests[j].0 != requests[k].0)
  }

  ghost predicate NetOk(su: Setup, net: multiset<Packet>, l: Ledger) {
    forall p :: net[p] == if Route(p) in l && InFlight(su.data, Route(p), l[Route(p)]) == Some(p) then 1 else 0
  }

  ghost predicate Domains(su: Setup, w: World, l: Ledger)
    requires su.Valid()
  {
    && w.nodes.Keys == su.members && w.signatures.Keys == su.members
    && (forall s, c :: (s, c) in l <==> s in su.members && c in su.Coords())
    && w.panicked == {}
    && w.silent <= su.members && |w.silent| <= |su.members| - su.threshold
  }

  /** World w is as the ledger says. */
  ghost predicate Agrees(su: Setup, w: World, l: Ledger)
    requires su.Valid()
  {
    && Domains(su, w, l)
    && (forall i :: i in w.nodes ==> NodeOk(su, i, w.nodes[i], w.signatures[i]))
    && (forall i :: i in w.nodes ==> QueueOk(su, w.nodes[i].signer.requests))
    && (forall s, c :: (s, c) in l ==> SignerSide(su, w.nodes[s], l[(s, c)], s, c))
    && (forall s, c :: (s, c) in l ==> CoordSide(w.nodes[c].coordinator, l[(s, c)], s))
    && NetOk(su, w.net, l)
  }
}
