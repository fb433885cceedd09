/** The state machines of tss/src/roast.rs, updated in place as the source updates them. */
module RoastMachine {
  import opened Options
  import opened Frost
  import opened RoastSpec
  import opened FiniteSets

  class RoastSigner {
    const id: Id
    const threshold: nat
    var data: Option<Data>
    var nonces: map<Id, Nonce>
    var requests: seq<(Id, Request)>
    var drawn: nat  // how many nonces the random source has produced

    ghost function Value(): (s: Signer)
      reads this
    {
      Signer(id, threshold, data, nonces, requests, drawn)
    }

    constructor (id: Id, threshold: nat)
      ensures Value() == Signer(id, threshold, None, map[], [], 0)
    {
      this.id, this.threshold := id, threshold;
      data, nonces, requests, drawn := None, map[], [], 0;
    }

    method SetData(bytes: Data)
      modifies this
      ensures Value() == old(Value()).(data := Some(bytes))
    {
      data := Some(bytes);
    }

    method Commit(coordinator: Id) returns (commitment: Commitment)
      modifies this
      ensures (Value(), commitment) == DrawNonce(old(Value()), coordinator)
    {
      var nonce := Nonce(id, drawn);
      drawn := drawn + 1;
      nonces := nonces[coordinator := nonce];
      commitment := Commitment(nonce);
    }

    method Enqueue(coordinator: Id, request: Request)
      modifies this
      ensures Value() == old(Value()).(requests := old(requests) + [(coordinator, request)])
    {
      requests := requests + [(coordinator, request)];
    }

    method NextReply() returns (reply: Reply)
      modifies this
      ensures (Value(), reply) == Respond(old(Value()))
    {
      if data.None? {
        return Nothing;
      }
      while true
        invariant data == old(data)
        invariant Respond(Value()) == Respond(old(Value()))
        decreases |requests|
      {
        if requests == [] {
          return Nothing;
        }
        var (coordinator, request) := requests[0];
        requests := requests[1..];
        if coordinator !in nonces {
          assert Value().nonces == Value().nonces - {coordinator};
          return Crash;
        }
        var nonce := nonces[coordinator];
        nonces := nonces - {coordinator};
        var share := Frost.Sign(threshold, id, nonce, Package(request.commitments, data.value));
        if share.Some? {
          var commitment := Commit(coordinator);
          return Answer(coordinator, Response(request.sid, share.value, commitment));
        }
      }
    }
  }

  /** Pops the largest peers off `waiting` until `threshold` are left; the popped ones are `rest`. */
  method PopLargest(waiting: Commitments, threshold: nat) returns (chosen: Commitments, rest: Commitments)
    requires threshold <= |waiting|
    ensures IsLowest(waiting.Keys, threshold, chosen.Keys)
    ensures chosen == Restrict(waiting, Lowest(waiting.Keys, threshold))
    ensures rest == waiting - Lowest(waiting.Keys, threshold)
  {
    chosen, rest := waiting, map[];
    while |chosen| > threshold
      invariant threshold <= |chosen| && chosen.Keys <= waiting.Keys
      invariant forall k :: k in chosen ==> chosen[k] == waiting[k]
      invariant rest == waiting - chosen.Keys
      invariant forall a, b :: a in chosen.Keys && b in waiting.Keys && b !in chosen.Keys ==> a < b
      decreases |chosen|
    {
      var peer := FindMax(chosen.Keys);
      assert |chosen.Keys - {peer}| == |chosen.Keys| - 1;
      rest, chosen := rest[peer := chosen[peer]], chosen - {peer};
    }
    LowestUnique(waiting.Keys, threshold, chosen.Keys, Lowest(waiting.Keys, threshold));
  }

  class RoastCoordinator {
    const threshold: nat
    var sessionId: nat
    var commitments: Commitments
    var sessions: map<nat, Session>
    var committed: set<Id>

    ghost function Value(): (c: Coordinator)
      reads this
    {
      Coordinator(threshold, sessionId, commitments, sessions, committed)
    }

    constructor (threshold: nat)
      ensures Value() == NewCoordinator(threshold)
    {
      this.threshold := threshold;
      sessionId, commitments, sessions, committed := 0, map[], map[], {};
    }

    method HandleCommit(peer: Id, commitment: Commitment)
      modifies this
      ensures Value() == OnCommit(old(Value()), peer, commitment)
    {
      if peer !in committed {
        commitments := commitments[peer := commitment];
        committed := committed + {peer};
      }
    }

    method HandleResponse(peer: Id, message: Response)
      modifies this
      ensures Value() == OnResponse(old(Value()), peer, message)
    {
      if message.sid in sessions {
        commitments := commitments[peer := message.commitment];
        sessions := sessions[message.sid := sessions[message.sid].OnShare(peer, message.share)];
      }
    }

    method OpenSession() returns (request: Option<Request>)
      modifies this
      ensures Value() == StartSession(old(Value())).0
      ensures request == StartSession(old(Value())).1
    {
      if |commitments| < threshold {
        return None;
      }
      ghost var spec := StartSession(Value());
      var sid := sessionId;
      sessionId := (sid + 1) % SESSION_IDS;
      var chosen, rest := PopLargest(commitments, threshold);
      assert spec.1 == Some(Request(sid, chosen)) && spec.0.commitments == rest;
      commitments := rest;
      sessions := sessions[sid := Session(chosen, map[])];
      return Some(Request(sid, chosen));
    }

    method TakeCompleted() returns (session: Option<Session>)
      modifies this
      ensures (Value(), session) == TakeComplete(old(Value()))
    {
      var complete := set sid | sid in sessions && sessions[sid].IsComplete();
      assert complete == CompleteIds(Value());
      if complete == {} {
        return None;
      }
      var sid := FindMin(complete);
      session := Some(sessions[sid]);
      sessions := sessions - {sid};
    }
  }

  class RoastProcess {
    const signer: RoastSigner
    var coordinator: RoastCoordinator?
    var coordinators: set<Id>

    ghost function Value(): (r: Roast)
      reads this, signer, coordinator
    {
      Roast(signer.Value(),
            if coordinator == null then None else Some(coordinator.Value()),
            coordinators)
    }

    constructor (id: Id, threshold: nat, coordinators: set<Id>)
      ensures Value() == NewRoast(id, threshold, coordinators)
      ensures fresh(signer) && (coordinator != null ==> fresh(coordinator))
    {
      signer := new RoastSigner(id, threshold);
      if id in coordinators {
        coordinator := new RoastCoordinator(threshold);
      } else {
        coordinator := null;
      }
      this.coordinators := coordinators;
    }

    method SetData(data: Data)
      modifies signer
      ensures Value() == RoastSpec.SetData(old(Value()), data)
    {
      signer.SetData(data);
    }

    method HandleMessage(peer: Id, msg: Message)
      modifies signer, coordinator
      ensures Value() == OnMessage(old(Value()), peer, msg)
    {
      match msg
      case Commit(commitment) =>
        if coordinator != null {
          coordinator.HandleCommit(peer, commitment);
        }
      case Sign(request) =>
        signer.Enqueue(peer, request);
      case Signature(response) =>
        if coordinator != null {
          coordinator.HandleResponse(peer, response);
        }
    }

    method PollCoordinator() returns (action: Action)
      requires coordinator != null
      modifies this, coordinator
      ensures action.Idle? || action.Complete? || action.SendMany?
      ensures action.Idle? ==>
                coordinator == old(coordinator) && NextAction(old(Value())) == SignerAction(Value())
      ensures !action.Idle? ==> (Value(), action) == NextAction(old(Value()))
      ensures coordinator == null || coordinator == old(coordinator)
    {
      if signer.data.Some? {
        var session := coordinator.TakeCompleted();
        if session.Some? {
          var signature := Aggregate(Package(session.value.commitments, signer.data.value), session.value.shares);
          if signature.Some? {
            coordinator := null;
            return Complete(signature.value);
          }
        }
      }
      var request := coordinator.OpenSession();
      if request.Some? {
        return SendMany(request.value.commitments.Keys, Sign(request.value));
      }
      return Idle;
    }

    /** `Roast::next_action`: coordinate first, then commit, then answer. */
    method Poll() returns (action: Action)
      modifies this, signer, coordinator
      ensures (Value(), action) == NextAction(old(Value()))
      ensures coordinator == null || coordinator == old(coordinator)
    {
      if coordinator != null {
        action := PollCoordinator();
        if !action.Idle? {
          return;
        }
      }
      if coordinators != {} {
        var last := FindMax(coordinators);
        coordinators := coordinators - {last};
        var commitment := signer.Commit(last);
        return Send(last, Commit(commitment));
      }
      var reply := signer.NextReply();
      match reply
      case Nothing => return Idle;
      case Answer(to, response) => return Send(to, Message.Signature(response));
      case Crash => return Panic;
    }
  }
}
