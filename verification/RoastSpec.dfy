/**
  The primitives of the FROST crate that ROAST relies on, as tokens: a commitment names exactly one
  nonce, a share is valid for one package, and a set of valid shares aggregates.
 */
module Frost {
  import opened Options

  type Id = nat
  type Data = seq<nat>

  datatype Nonce = Nonce(owner: Id, serial: nat)
  datatype Commitment = Commitment(nonce: Nonce)
  type Commitments = map<Id, Commitment>
  datatype Package = Package(commitments: Commitments, data: Data)
  datatype Share = Share(signer: Id, package: Package) | Malformed(tag: nat)
  datatype Signature = Signature(data: Data)

  /** Round two of section 5.2 of RFC 9591: refuse a package that is too small or not ours. */
  function Sign(threshold: nat, id: Id, nonce: Nonce, package: Package): (share: Option<Share>)
  {
    if |package.commitments| >= threshold && id in package.commitments
       && package.commitments[id] == Commitment(nonce)
    then Some(Share(id, package))
    else None
  }

  predicate AllValid(package: Package, shares: map<Id, Share>) {
    && shares.Keys == package.commitments.Keys
    && forall i :: i in shares ==> shares[i] == Share(i, package)
  }

  function Aggregate(package: Package, shares: map<Id, Share>): (signature: Option<Signature>) {
    if AllValid(package, shares) then Some(Signature(package.data)) else None
  }
}

/** What each operation of tss/src/roast.rs computes, as a function on values. */
module RoastSpec {
  import opened Options
  import opened Frost
  import opened FiniteSets

  const SESSION_IDS: nat := 0x1_0000

  datatype Request = Request(sid: nat, commitments: Commitments)
  datatype Response = Response(sid: nat, share: Share, commitment: Commitment)
  datatype Message = Commit(commitment: Commitment) | Sign(request: Request) | Signature(response: Response)

  datatype Action =
    | Idle
    | Send(to: Id, msg: Message)
    | SendMany(peers: set<Id>, msg: Message)
    | Complete(signature: Frost.Signature)
    | Panic

  // ---------------------------------------------------------------- signer

  datatype Signer = Signer(id: Id, threshold: nat, data: Option<Data>, nonces: map<Id, Nonce>,
                           requests: seq<(Id, Request)>, drawn: nat)

  datatype Reply = Nothing | Answer(to: Id, response: Response) | Crash

  /** Draws a nonce never drawn before and keeps it for `coordinator`. */
  function DrawNonce(s: Signer, coordinator: Id): (r: (Signer, Commitment)) {
    var nonce := Nonce(s.id, s.drawn);
    (s.(nonces := s.nonces[coordinator := nonce], drawn := s.drawn + 1), Commitment(nonce))
  }

  /** The signer after it takes its oldest request and the nonce stored for its sender. */
  function Pop(s: Signer): (s': Signer)
    requires s.requests != []
  {
    s.(requests := s.requests[1..], nonces := s.nonces - {s.requests[0].0})
  }

  predicate HasNonce(s: Signer)
    requires s.requests != []
  {
    s.requests[0].0 in s.nonces
  }

  /** The `round2::sign` call for the oldest request. */
  function Attempt(s: Signer): (share: Option<Share>)
    requires s.requests != [] && s.data.Some? && HasNonce(s)
  {
    var (coordinator, request) := s.requests[0];
    Frost.Sign(s.threshold, s.id, s.nonces[coordinator], Package(request.commitments, s.data.value))
  }

  /** Pops requests until one can be signed; a request without a stored nonce is the `expect`. */
  function Respond(s: Signer): (r: (Signer, Reply))
    decreases |s.requests|
  {
    if s.data.None? || s.requests == [] then (s, Nothing)
    else if !HasNonce(s) then (Pop(s), Crash)
    else if Attempt(s).None? then Respond(Pop(s))
    else
      var (coordinator, request) := s.requests[0];
      var (s', commitment) := DrawNonce(Pop(s), coordinator);
      (s', Answer(coordinator, Response(request.sid, Attempt(s).value, commitment)))
  }

  /** The nonces handed to `round2::sign` while `Respond(s)` runs, in order. */
  function SpentBy(s: Signer): (nonces: seq<Nonce>)
    decreases |s.requests|
  {
    if s.data.None? || s.requests == [] || !HasNonce(s) then []
    else [s.nonces[s.requests[0].0]] + if Attempt(s).None? then SpentBy(Pop(s)) else []
  }

  // ----------------------------------------------------------- coordinator

  datatype Session = Session(commitments: Commitments, shares: map<Id, Share>) {
    function OnShare(peer: Id, share: Share): (s: Session) {
      if peer in commitments then this.(shares := shares[peer := share]) else this
    }
    predicate IsComplete() {
      |commitments| == |shares|
    }
  }

  datatype Coordinator = Coordinator(threshold: nat, sessionId: nat, commitments: Commitments,
                                     sessions: map<nat, Session>, committed: set<Id>)

  function NewCoordinator(threshold: nat): (c: Coordinator) {
    Coordinator(threshold, 0, map[], map[], {})
  }

  function OnCommit(c: Coordinator, peer: Id, commitment: Commitment): (c': Coordinator) {
    if peer in c.committed then c
    else c.(commitments := c.commitments[peer := commitment], committed := c.committed + {peer})
  }

  function OnResponse(c: Coordinator, peer: Id, m: Response): (c': Coordinator) {
    if m.sid !in c.sessions then c
    else c.(commitments := c.commitments[peer := m.commitment],
            sessions := c.sessions[m.sid := c.sessions[m.sid].OnShare(peer, m.share)])
  }

  function Restrict(m: Commitments, keys: set<Id>): (r: Commitments)
    ensures r.Keys == m.Keys * keys
    ensures forall k :: k in r ==> r[k] == m[k]
  {
    map k | k in m && k in keys :: m[k]
  }

  /** Moves the `threshold` smallest waiting peers into a new session. */
  ghost function StartSession(c: Coordinator): (r: (Coordinator, Option<Request>)) {
    if |c.commitments| < c.threshold then (c, None)
    else
      var low := Lowest(c.commitments.Keys, c.threshold);
      var chosen := Restrict(c.commitments, low);
      (c.(sessionId := (c.sessionId + 1) % SESSION_IDS,
          commitments := c.commitments - low,
          sessions := c.sessions[c.sessionId := Session(chosen, map[])]),
       Some(Request(c.sessionId, chosen)))
  }

  ghost function CompleteIds(c: Coordinator): (ids: set<nat>) {
    set sid | sid in c.sessions && c.sessions[sid].IsComplete()
  }

  /** Removes the complete session with the least id, if there is one. */
  ghost function TakeComplete(c: Coordinator): (r: (Coordinator, Option<Session>)) {
    if CompleteIds(c) == {} then (c, None)
    else
      var sid := Min(CompleteIds(c));
      (c.(sessions := c.sessions - {sid}), Some(c.sessions[sid]))
  }

  // ----------------------------------------------------------------- roast

  datatype Roast = Roast(signer: Signer, coordinator: Option<Coordinator>, coordinators: set<Id>)

  function NewRoast(id: Id, threshold: nat, coordinators: set<Id>): (r: Roast) {
    Roast(Signer(id, threshold, None, map[], [], 0),
          if id in coordinators then Some(NewCoordinator(threshold)) else None,
          coordinators)
  }

  function SetData(r: Roast, data: Data): (r': Roast) {
    r.(signer := r.signer.(data := Some(data)))
  }

  function OnMessage(r: Roast, peer: Id, msg: Message): (r': Roast) {
    match msg
    case Commit(commitment) =>
      if r.coordinator.None? then r
      else r.(coordinator := Some(OnCommit(r.coordinator.value, peer, commitment)))
    case Sign(request) =>
      r.(signer := r.signer.(requests := r.signer.requests + [(peer, request)]))
    case Signature(response) =>
      if r.coordinator.None? then r
      else r.(coordinator := Some(OnResponse(r.coordinator.value, peer, response)))
  }

  /** What the signer half does once the coordinator half has nothing to do. */
  ghost function SignerAction(r: Roast): (o: (Roast, Action)) {
    if r.coordinators != {} then
      var coordinator := Max(r.coordinators);
      var (signer, commitment) := DrawNonce(r.signer, coordinator);
      (r.(signer := signer, coordinators := r.coordinators - {coordinator}),
       Send(coordinator, Commit(commitment)))
    else
      var (signer, reply) := Respond(r.signer);
      (r.(signer := signer),
       match reply
       case Nothing => Idle
       case Answer(to, response) => Send(to, Message.Signature(response))
       case Crash => Panic)
  }

  ghost function NextAction(r: Roast): (o: (Roast, Action)) {
    if r.coordinator.None? then SignerAction(r)
    else
      var c := r.coordinator.value;
      var (c1, done) := if r.signer.data.Some? then TakeComplete(c) else (c, None);
      var signature := if done.None? then None
                       else Aggregate(Package(done.value.commitments, r.signer.data.value), done.value.shares);
      if signature.Some? then (r.(coordinator := None), Complete(signature.value))
      else
        var (c2, request) := StartSession(c1);
        var r2 := r.(coordinator := Some(c2));
        if request.Some? then (r2, SendMany(request.value.commitments.Keys, Sign(request.value)))
        else SignerAction(r2)
  }

  /** The nonces handed to `round2::sign` by `NextAction(r)`. */
  ghost function SpentByAction(r: Roast): (nonces: seq<Nonce>) {
    var o := NextAction(r);
    if o.1.Complete? || o.1.SendMany? || r.coordinators != {} then [] else SpentBy(r.signer)
  }

  /** The coordinators picked by `Tss::new`: the n - t + 1 smallest identifiers. */
  ghost function Coordinators(members: set<Id>, threshold: nat): (c: set<Id>)
    requires 1 <= threshold <= |members|
    ensures IsLowest(members, |members| - threshold + 1, c)
  {
    Lowest(members, |members| - threshold + 1)
  }
}
