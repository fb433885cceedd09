/**
  What one `Roast` guarantees whatever its peers send: any number of messages from any sender with
  any content, interleaved with `set_data` and `next_action` in any order.
 */
module RoastSafety {
  import opened Options
  import opened Frost
  import opened RoastSpec
  import opened FiniteSets
  import opened Sequences

  datatype Input = Receive(peer: Id, msg: Message) | Provide(data: Data) | Poll

  ghost function Apply(r: Roast, input: Input): (r': Roast) {
    match input
    case Receive(peer, msg) => OnMessage(r, peer, msg)
    case Provide(data) => SetData(r, data)
    case Poll => NextAction(r).0
  }

  ghost function After(r: Roast, inputs: seq<Input>): (r': Roast) {
    if inputs == [] then r else Apply(After(r, inputs[..|inputs| - 1]), inputs[|inputs| - 1])
  }

  /** The actions returned by `next_action`, in order. */
  ghost function Actions(r: Roast, inputs: seq<Input>): (actions: seq<Action>) {
    if inputs == [] then []
    else
      var before := inputs[..|inputs| - 1];
      Actions(r, before)
      + if inputs[|inputs| - 1].Poll? then [NextAction(After(r, before)).1] else []
  }

  /** The nonces handed to `round2::sign`, in order. */
  ghost function Spent(r: Roast, inputs: seq<Input>): (nonces: seq<Nonce>) {
    if inputs == [] then []
    else
      var before := inputs[..|inputs| - 1];
      Spent(r, before)
      + if inputs[|inputs| - 1].Poll? then SpentByAction(After(r, before)) else []
  }

  // ------------------------------------------------------- nonces are used once

  ghost predicate Drawn(s: Signer, nonce: Nonce) {
    nonce.owner == s.id && nonce.serial < s.drawn
  }

  /** Stored nonces are distinct, and none of them has been spent. */
  ghost predicate NoncesUnspent(s: Signer, spent: seq<Nonce>) {
    && NoDuplicates(spent)
    && (forall n :: n in spent ==> Drawn(s, n))
    && (forall c :: c in s.nonces ==> Drawn(s, s.nonces[c]) && s.nonces[c] !in spent)
    && (forall c, d :: c in s.nonces && d in s.nonces && c != d ==> s.nonces[c] != s.nonces[d])
  }

  lemma DrawKeepsUnspent(s: Signer, coordinator: Id, spent: seq<Nonce>)
    requires NoncesUnspent(s, spent)
    ensures NoncesUnspent(DrawNonce(s, coordinator).0, spent)
  {}

  lemma PopSpends(s: Signer, spent: seq<Nonce>)
    requires NoncesUnspent(s, spent) && s.requests != [] && HasNonce(s)
    ensures NoncesUnspent(Pop(s), spent + [s.nonces[s.requests[0].0]])
  {
    AppendNoDuplicates(spent, [s.nonces[s.requests[0].0]]);
  }

  lemma PopKeepsUnspent(s: Signer, spent: seq<Nonce>)
    requires NoncesUnspent(s, spent) && s.requests != []
    ensures NoncesUnspent(Pop(s), spent)
  {}

  lemma {:induction false} RespondSpends(s: Signer, spent: seq<Nonce>)
    requires NoncesUnspent(s, spent)
    ensures NoncesUnspent(Respond(s).0, spent + SpentBy(s))
    decreases |s.requests|
  {
    hide NoncesUnspent, Attempt, DrawNonce;
    if s.data.None? || s.requests == [] {
      assert spent + [] == spent;
    } else if !HasNonce(s) {
      PopKeepsUnspent(s, spent);
      assert spent + [] == spent;
    } else {
      var nonce := s.nonces[s.requests[0].0];
      PopSpends(s, spent);
      if Attempt(s).None? {
        RespondSpends(Pop(s), spent + [nonce]);
        assert spent + ([nonce] + SpentBy(Pop(s))) == spent + [nonce] + SpentBy(Pop(s));
      } else {
        DrawKeepsUnspent(Pop(s), s.requests[0].0, spent + [nonce]);
        assert spent + ([nonce] + []) == spent + [nonce];
      }
    }
  }

  lemma SignerActionSpends(r: Roast, spent: seq<Nonce>)
    requires NoncesUnspent(r.signer, spent)
    ensures NoncesUnspent(SignerAction(r).0.signer,
                          spent + if r.coordinators != {} then [] else SpentBy(r.signer))
  {
    hide NoncesUnspent, Respond, SpentBy, DrawNonce;
    if r.coordinators != {} {
      DrawKeepsUnspent(r.signer, Max(r.coordinators), spent);
      assert spent + [] == spent;
    } else {
      RespondSpends(r.signer, spent);
    }
  }

  /** Either the coordinator half acts and the signer is untouched, or the signer half acts. */
  lemma ActionShape(r: Roast) returns (k: Option<Coordinator>)
    ensures var o := NextAction(r);
            if o.1.Complete? || o.1.SendMany? then o.0.signer == r.signer else o == SignerAction(r.(coordinator := k))
  {
    k := r.coordinator;
    if k.Some? {
      var c1 := if r.signer.data.Some? then TakeComplete(k.value).0 else k.value;
      k := Some(StartSession(c1).0);
    }
  }

  lemma ActionSpends(r: Roast, spent: seq<Nonce>)
    requires NoncesUnspent(r.signer, spent)
    ensures NoncesUnspent(NextAction(r).0.signer, spent + SpentByAction(r))
  {
    hide NoncesUnspent, NextAction;
    assert spent + [] == spent;
    var k := ActionShape(r);
    SignerActionSpends(r.(coordinator := k), spent);
  }

  lemma MessageKeepsUnspent(r: Roast, peer: Id, msg: Message, spent: seq<Nonce>)
    requires NoncesUnspent(r.signer, spent)
    ensures NoncesUnspent(OnMessage(r, peer, msg).signer, spent)
  {
    hide NoDuplicates;
  }

  lemma InputSpends(r: Roast, input: Input, spent: seq<Nonce>)
    requires NoncesUnspent(r.signer, spent)
    ensures NoncesUnspent(Apply(r, input).signer, spent + if input.Poll? then SpentByAction(r) else [])
  {
    assert spent + [] == spent;
    match input
    case Receive(peer, msg) =>
      hide NoncesUnspent, OnMessage;
      MessageKeepsUnspent(r, peer, msg, spent);
    case Provide(data) =>
      hide NoDuplicates;
    case Poll =>
      hide NoncesUnspent, NextAction;
      ActionSpends(r, spent);
  }

  lemma {:induction false} NoncesStayUnspent(id: Id, threshold: nat, coordinators: set<Id>, inputs: seq<Input>)
    ensures NoncesUnspent(After(NewRoast(id, threshold, coordinators), inputs).signer,
                          Spent(NewRoast(id, threshold, coordinators), inputs))
  {
    var r := NewRoast(id, threshold, coordinators);
    if inputs != [] {
      hide NoncesUnspent, Apply, NewRoast;
      var before := inputs[..|inputs| - 1];
      NoncesStayUnspent(id, threshold, coordinators, before);
      InputSpends(After(r, before), inputs[|inputs| - 1], Spent(r, before));
    }
  }

  /** No nonce is ever used by two sign calls, as section 5.2 of RFC 9591 demands. */
  lemma NonceUsedOnce(id: Id, threshold: nat, coordinators: set<Id>, inputs: seq<Input>)
    ensures NoDuplicates(Spent(NewRoast(id, threshold, coordinators), inputs))
  {
    NoncesStayUnspent(id, threshold, coordinators, inputs);
  }

  // ----------------------------------------------------------- sessions are sound

  ghost predicate SessionSound(threshold: nat, s: Session) {
    |s.commitments| == threshold && s.shares.Keys <= s.commitments.Keys
  }

  ghost predicate Sound(r: Roast, threshold: nat) {
    && r.signer.threshold == threshold
    && (r.coordinator.Some? ==>
          r.coordinator.value.threshold == threshold && CoordinatorSound(r.coordinator.value))
  }

  /** `start_session` splits the waiting peers into the t smallest and the rest, losing none. */
  lemma StartSessionSplits(c: Coordinator)
    requires c.threshold <= |c.commitments|
    ensures var (c', request) := StartSession(c);
            && request.Some?
            && IsLowest(c.commitments.Keys, c.threshold, request.value.commitments.Keys)
            && c'.commitments.Keys !! request.value.commitments.Keys
            && c'.commitments + request.value.commitments == c.commitments
            && c'.sessions == c.sessions[c.sessionId := Session(request.value.commitments, map[])]
  {
    var low := Lowest(c.commitments.Keys, c.threshold);
    var chosen := Restrict(c.commitments, low);
    assert chosen.Keys == low;
    assert (c.commitments - low) + chosen == c.commitments;
  }

  lemma RespondKeepsThreshold(s: Signer)
    ensures Respond(s).0.threshold == s.threshold && Respond(s).0.id == s.id && Respond(s).0.data == s.data
    decreases |s.requests|
  {}

  ghost predicate CoordinatorSound(c: Coordinator) {
    forall sid :: sid in c.sessions ==> SessionSound(c.threshold, c.sessions[sid])
  }

  lemma StartSessionSound(c: Coordinator)
    requires CoordinatorSound(c)
    ensures CoordinatorSound(StartSession(c).0) && StartSession(c).0.threshold == c.threshold
  {
    if c.threshold <= |c.commitments| {
      StartSessionSplits(c);
      var (c', request) := StartSession(c);
      assert SessionSound(c.threshold, Session(request.value.commitments, map[]));
    }
  }

  lemma OnMessageSound(r: Roast, peer: Id, msg: Message, threshold: nat)
    requires Sound(r, threshold)
    ensures Sound(OnMessage(r, peer, msg), threshold)
  {}

  lemma SignerActionSound(r: Roast, threshold: nat)
    requires Sound(r, threshold)
    ensures Sound(SignerAction(r).0, threshold)
  {
    RespondKeepsThreshold(r.signer);
  }

  lemma NextActionSound(r: Roast, threshold: nat)
    requires Sound(r, threshold)
    ensures Sound(NextAction(r).0, threshold)
  {
    if r.coordinator.None? {
      SignerActionSound(r, threshold);
    } else {
      var c := r.coordinator.value;
      var c1 := if r.signer.data.Some? then TakeComplete(c).0 else c;
      assert CoordinatorSound(c1);
      StartSessionSound(c1);
      SignerActionSound(r.(coordinator := Some(StartSession(c1).0)), threshold);
    }
  }

  lemma ApplySound(r: Roast, input: Input, threshold: nat)
    requires Sound(r, threshold)
    ensures Sound(Apply(r, input), threshold)
  {
    match input
    case Receive(peer, msg) => OnMessageSound(r, peer, msg, threshold);
    case Provide(_) =>
    case Poll => NextActionSound(r, threshold);
  }

  /** For any message sequence, every open session has t participants and only their shares. */
  lemma {:induction false} AlwaysSound(id: Id, threshold: nat, coordinators: set<Id>, inputs: seq<Input>)
    ensures Sound(After(NewRoast(id, threshold, coordinators), inputs), threshold)
  {
    if inputs != [] {
      var before := inputs[..|inputs| - 1];
      AlwaysSound(id, threshold, coordinators, before);
      ApplySound(After(NewRoast(id, threshold, coordinators), before), inputs[|inputs| - 1], threshold);
    }
  }

  /** The session behind a signature: one valid share from each of exactly t participants. */
  ghost predicate Backed(r: Roast, s: Session) {
    && |s.commitments| == r.signer.threshold
    && s.shares.Keys == s.commitments.Keys
    && r.signer.data.Some?
    && AllValid(Package(s.commitments, r.signer.data.value), s.shares)
  }

  lemma CompleteIsBacked(id: Id, threshold: nat, coordinators: set<Id>, inputs: seq<Input>)
    ensures var r := After(NewRoast(id, threshold, coordinators), inputs);
            NextAction(r).1.Complete? ==>
              && r.coordinator.Some?
              && (exists sid :: sid in r.coordinator.value.sessions && Backed(r, r.coordinator.value.sessions[sid]))
              && NextAction(r).1.signature.data == r.signer.data.value
  {
    AlwaysSound(id, threshold, coordinators, inputs);
    var r := After(NewRoast(id, threshold, coordinators), inputs);
    if NextAction(r).1.Complete? {
      var c := r.coordinator.value;
      var sid := Min(CompleteIds(c));
      SubsetSize(c.sessions[sid].shares.Keys, c.sessions[sid].commitments.Keys);
      assert Backed(r, c.sessions[sid]);
    }
  }

  // ------------------------------------------------------- one signature at most

  lemma {:induction false} CompletedHasNoCoordinator(r: Roast, inputs: seq<Input>, i: nat)
    requires i < |Actions(r, inputs)| && Actions(r, inputs)[i].Complete?
    ensures After(r, inputs).coordinator.None?
  {
    var before := inputs[..|inputs| - 1];
    if i < |Actions(r, before)| {
      CompletedHasNoCoordinator(r, before, i);
    }
  }

  /** A `Roast` returns `Complete` at most once. */
  lemma {:induction false} CompletesOnce(r: Roast, inputs: seq<Input>, i: nat, j: nat)
    requires i < j < |Actions(r, inputs)|
    requires Actions(r, inputs)[i].Complete?
    ensures !Actions(r, inputs)[j].Complete?
  {
    var before := inputs[..|inputs| - 1];
    if j < |Actions(r, before)| {
      CompletesOnce(r, before, i, j);
    } else {
      CompletedHasNoCoordinator(r, before, i);
    }
  }

  // ------------------------------------------------------ what a signer answers

  /** The reply to request k: a share for its whole package, made with the nonce kept for its sender. */
  ghost predicate Answers(s: Signer, k: nat, to: Id, response: Response) {
    && k < |s.requests| && s.data.Some? && to == s.requests[k].0
    && var request := s.requests[k].1;
       && response.sid == request.sid && |request.commitments| >= s.threshold
       && s.id in request.commitments && to in s.nonces && request.commitments[s.id] == Commitment(s.nonces[to])
       && response.share == Share(s.id, Package(request.commitments, s.data.value))
  }

  lemma PoppedAnswers(s: Signer, k: nat, to: Id, response: Response)
    requires s.requests != [] && Answers(Pop(s), k, to, response)
    ensures Answers(s, k + 1, to, response)
  {
    assert s.requests[1..][k] == s.requests[k + 1];
  }

  /** A signer signs only packages of at least t commitments that hold its own nonce for their sender. */
  lemma {:induction false} OnlyFullPackages(s: Signer) returns (k: nat)
    ensures var (s', reply) := Respond(s);
            reply.Answer? ==>
              && Answers(s, k, reply.to, reply.response)
              && reply.to in s'.nonces && reply.response.commitment == Commitment(s'.nonces[reply.to])
              && s'.nonces[reply.to] == Nonce(s.id, s.drawn)
    decreases |s.requests|
  {
    k := 0;
    if s.data.Some? && s.requests != [] && HasNonce(s) && Attempt(s).None? {
      hide Answers;
      var i := OnlyFullPackages(Pop(s));
      k := i + 1;
      if Respond(s).1.Answer? {
        PoppedAnswers(s, i, Respond(s).1.to, Respond(s).1.response);
      }
    }
  }

  // ------------------------------------------------------------- one commitment each

  /** The coordinator is gone, or has counted the commitment of the peer. */
  ghost predicate Counted(r: Roast, peer: Id) {
    r.coordinator.None? || peer in r.coordinator.value.committed
  }

  lemma SignerKeepsCoordinator(r: Roast)
    ensures SignerAction(r).0.coordinator == r.coordinator && SignerAction(r).0.signer.data == r.signer.data
  {
    RespondKeepsThreshold(r.signer);
  }

  lemma StartKeepsCommitted(c: Coordinator)
    ensures StartSession(c).0.committed == c.committed && TakeComplete(c).0.committed == c.committed
  {}

  lemma CountedStays(r: Roast, input: Input, peer: Id)
    requires Counted(r, peer) || (input.Receive? && input.peer == peer && input.msg.Commit?)
    ensures Counted(Apply(r, input), peer)
  {
    if input.Poll? {
      SignerKeepsCoordinator(r);
      if r.coordinator.Some? {
        var c := r.coordinator.value;
        var c1 := if r.signer.data.Some? then TakeComplete(c).0 else c;
        StartKeepsCommitted(c);
        StartKeepsCommitted(c1);
        SignerKeepsCoordinator(r.(coordinator := Some(StartSession(c1).0)));
        hide StartSession, TakeComplete, SignerAction;
      }
    }
  }

  lemma {:induction false} CountedAfter(r: Roast, inputs: seq<Input>, i: nat, peer: Id)
    requires i < |inputs| && inputs[i].Receive? && inputs[i].peer == peer && inputs[i].msg.Commit?
    ensures Counted(After(r, inputs), peer)
  {
    hide Apply, Counted;
    var n := |inputs| - 1;
    if i < n {
      CountedAfter(r, inputs[..n], i, peer);
    }
    CountedStays(After(r, inputs[..n]), inputs[n], peer);
  }

  /** Only the first commitment a peer announces counts, whatever happens in between. */
  lemma SecondCommitIgnored(r: Roast, inputs: seq<Input>, i: nat, peer: Id, again: Commitment)
    requires i < |inputs| && inputs[i].Receive? && inputs[i].peer == peer && inputs[i].msg.Commit?
    ensures OnMessage(After(r, inputs), peer, Message.Commit(again)) == After(r, inputs)
  {
    CountedAfter(r, inputs, i, peer);
  }

  // ---------------------------------------------------- bad sessions block no good one

  /** Session sid has a valid share from each of its participants. */
  ghost predicate Ripe(r: Roast, sid: nat) {
    && r.signer.data.Some? && r.coordinator.Some? && sid in r.coordinator.value.sessions
    && var s := r.coordinator.value.sessions[sid]; AllValid(Package(s.commitments, r.signer.data.value), s.shares)
  }

  ghost function UpTo(c: Coordinator, sid: nat): (s: set<nat>) {
    set x | x in CompleteIds(c) && x <= sid
  }

  /** Session numbers are used up in order, and k more do not wrap around. */
  ghost predicate Unwrapped(c: Coordinator, k: nat) {
    c.sessionId + k < SESSION_IDS && forall sid :: sid in c.sessions ==> sid < c.sessionId
  }

  ghost predicate SignsWithin(r: Roast, polls: nat)
    decreases polls
  {
    polls > 0 && (NextAction(r).1.Complete? || SignsWithin(NextAction(r).0, polls - 1))
  }

  lemma TakenIsLeast(c: Coordinator, sid: nat)
    requires sid in CompleteIds(c)
    ensures var (c1, done) := TakeComplete(c);
            var least := Min(CompleteIds(c));
            && least <= sid && least in c.sessions && done == Some(c.sessions[least])
            && c1 == c.(sessions := c.sessions - {least})
            && UpTo(c1, sid) == UpTo(c, sid) - {least} && least in UpTo(c, sid)
  {}

  lemma StartedLater(c: Coordinator, sid: nat, k: nat)
    requires Unwrapped(c, k) && k > 0 && sid in c.sessions
    ensures var c' := StartSession(c).0;
            && Unwrapped(c', k - 1) && sid in c'.sessions && c'.sessions[sid] == c.sessions[sid]
            && UpTo(c', sid) == UpTo(c, sid)
  {
    if c.threshold <= |c.commitments| {
      StartSessionSplits(c);
      var c' := StartSession(c).0;
      assert c'.sessionId == c.sessionId + 1;
      hide StartSession;
      forall x ensures x in UpTo(c', sid) <==> x in UpTo(c, sid) {}
    }
  }

  lemma RipeIsComplete(r: Roast, sid: nat)
    requires Ripe(r, sid)
    ensures sid in CompleteIds(r.coordinator.value) && |UpTo(r.coordinator.value, sid)| > 0
  {
    assert sid in UpTo(r.coordinator.value, sid);
  }

  lemma PollTakes(r: Roast, sid: nat)
    requires Ripe(r, sid) && Unwrapped(r.coordinator.value, |UpTo(r.coordinator.value, sid)|)
    ensures var r' := NextAction(r).0;
            || NextAction(r).1.Complete?
            || (Ripe(r', sid) && Unwrapped(r'.coordinator.value, |UpTo(r'.coordinator.value, sid)|)
                && |UpTo(r'.coordinator.value, sid)| == |UpTo(r.coordinator.value, sid)| - 1)
  {
    var c := r.coordinator.value;
    RipeIsComplete(r, sid);
    TakenIsLeast(c, sid);
    var (c1, done) := TakeComplete(c);
    hide TakeComplete, UpTo, CompleteIds, StartSession, SignerAction, Min;
    if Aggregate(Package(done.value.commitments, r.signer.data.value), done.value.shares).None? {
      StartedLater(c1, sid, |UpTo(c, sid)|);
      SignerKeepsCoordinator(r.(coordinator := Some(StartSession(c1).0)));
    }
  }

  /** With k complete sessions numbered up to a ripe one, the signature is out after at most k polls. */
  lemma {:induction false} BadSessionsDoNotBlock(r: Roast, sid: nat)
    requires Ripe(r, sid) && Unwrapped(r.coordinator.value, |UpTo(r.coordinator.value, sid)|)
    ensures SignsWithin(r, |UpTo(r.coordinator.value, sid)|)
    decreases |UpTo(r.coordinator.value, sid)|
  {
    hide NextAction, UpTo, CompleteIds, AllValid, Unwrapped;
    RipeIsComplete(r, sid);
    PollTakes(r, sid);
    if !NextAction(r).1.Complete? {
      BadSessionsDoNotBlock(NextAction(r).0, sid);
    }
  }
}
