/**
  `Tss::next_action` for one signing id: it acts until there is something for other peers, handing the
  node its own messages on the way. Runs made of such calls are runs of the ROAST protocol.
 */
module TssSpec {
  import opened Options
  import opened Frost
  import opened FiniteSets
  import opened RoastSpec
  import opened RoastWorld
  import opened RoastInvariant
  import opened RoastRobustness

  datatype Outcome = NoAction | ToPeers(peers: set<Id>, msg: Message) | Signed(signature: Frost.Signature) | Crashed

  /** The smallest threshold for which the FROST crate generates keys. */
  ghost predicate AtLeastTwo(r: Roast) {
    r.coordinator.Some? ==> r.coordinator.value.threshold >= 2
  }

  lemma RespondPops(s: Signer)
    ensures Respond(s).1.Answer? ==> |Respond(s).0.requests| < |s.requests|
    ensures Respond(s).0.id == s.id
    decreases |s.requests|
  {
    if s.data.Some? && s.requests != [] && HasNonce(s) && Attempt(s).None? {
      RespondPops(Pop(s));
    }
  }

  /** A message of the signer half uses up a coordinator or a request. */
  lemma SignerShrinks(r: Roast)
    ensures var (r1, action) := SignerAction(r);
            && r1.signer.id == r.signer.id && r1.coordinator == r.coordinator
            && !action.SendMany? && !action.Complete?
            && (action.Send? ==>
                  && |r1.coordinators| + |r1.signer.requests| < |r.coordinators| + |r.signer.requests|
                  && !action.msg.Sign?)
  {
    if r.coordinators == {} {
      RespondPops(r.signer);
    } else {
      var c := Max(r.coordinators);
      assert |r.coordinators - {c}| == |r.coordinators| - 1;
    }
  }

  lemma StartsWithThreshold(c: Coordinator)
    ensures var (c', request) := StartSession(c);
            c'.threshold == c.threshold && (request.Some? ==> |request.value.commitments.Keys| == c.threshold)
  {
    if c.threshold <= |c.commitments| {
      assert Restrict(c.commitments, Lowest(c.commitments.Keys, c.threshold)).Keys
          == Lowest(c.commitments.Keys, c.threshold);
    }
  }

  /** So every message to oneself brings the loop closer to its end. */
  lemma ActionShrinks(r: Roast)
    requires AtLeastTwo(r)
    ensures var (r1, action) := NextAction(r);
            && r1.signer.id == r.signer.id && AtLeastTwo(r1)
            && (action.Send? ==>
                  && |r1.coordinators| + |r1.signer.requests| < |r.coordinators| + |r.signer.requests|
                  && !action.msg.Sign?)
            && (action.SendMany? ==> |action.peers| >= 2)
  {
    hide SignerAction, StartSession, TakeComplete;
    if r.coordinator.None? {
      SignerShrinks(r);
    } else {
      var c := r.coordinator.value;
      var c1 := if r.signer.data.Some? then TakeComplete(c).0 else c;
      TakeKeepsThreshold(c);
      StartsWithThreshold(c1);
      SignerShrinks(r.(coordinator := Some(StartSession(c1).0)));
    }
  }

  lemma TakeKeepsThreshold(c: Coordinator)
    ensures TakeComplete(c).0.threshold == c.threshold
  {}

  lemma DeliveryKeeps(r: Roast, peer: Id, msg: Message)
    requires AtLeastTwo(r)
    ensures AtLeastTwo(OnMessage(r, peer, msg)) && OnMessage(r, peer, msg).signer.id == r.signer.id
    ensures OnMessage(r, peer, msg).coordinators == r.coordinators
    ensures !msg.Sign? ==> OnMessage(r, peer, msg).signer.requests == r.signer.requests
  {}

  /** The inner loop of `Tss::next_action`. */
  ghost function Drive(r: Roast): (o: (Roast, Outcome))
    requires AtLeastTwo(r)
    decreases |r.coordinators| + |r.signer.requests|
  {
    ActionShrinks(r);
    var (r1, action) := NextAction(r);
    match action
    case Idle => (r1, NoAction)
    case Complete(signature) => (r1, Signed(signature))
    case Panic => (r1, Crashed)
    case Send(to, msg) =>
      if to != r.signer.id then (r1, ToPeers({to}, msg))
      else
        DeliveryKeeps(r1, to, msg);
        Drive(OnMessage(r1, to, msg))
    case SendMany(peers, msg) =>
      (if r.signer.id in peers then OnMessage(r1, r.signer.id, msg) else r1, ToPeers(peers - {r.signer.id}, msg))
  }

  /** What a call returns for peers is for at least one of them and never for the node itself. */
  lemma {:induction false} DriveSendsOut(r: Roast)
    requires AtLeastTwo(r)
    ensures var (r', o) := Drive(r); o.ToPeers? ==> o.peers != {} && r.signer.id !in o.peers
    decreases |r.coordinators| + |r.signer.requests|
  {
    ActionShrinks(r);
    var (r1, action) := NextAction(r);
    if action.Send? && action.to == r.signer.id {
      DeliveryKeeps(r1, action.to, action.msg);
      DriveSendsOut(OnMessage(r1, action.to, action.msg));
    } else if action.SendMany? {
      assert |action.peers - {r.signer.id}| >= 1;
    }
  }

  // --------------------------------------------------------------------- whole runs

  datatype TssEvent = Poll(node: Id) | Take(packet: Packet) | Quit(node: Id) | Sign(node: Id)

  ghost predicate Allowed(su: Setup, w: World, e: TssEvent)
    requires su.Valid()
  {
    match e
    case Poll(i) => i in w.nodes && i in w.signatures && i !in w.silent && w.nodes[i].signer.id == i
        && AtLeastTwo(w.nodes[i])
    case Take(p) => RoastWorld.Enabled(su, w, Deliver(p))
    case Quit(i) => RoastWorld.Enabled(su, w, FallSilent(i))
    case Sign(i) => RoastWorld.Enabled(su, w, Inform(i))
  }

  ghost function OutPackets(from: Id, o: Outcome): (packets: multiset<Packet>) {
    if o.ToPeers? then multiset(set peer | peer in o.peers :: Packet(from, peer, o.msg)) else multiset{}
  }

  /** One call of `Tss::next_action` at node i. */
  ghost function Polled(w: World, i: Id): (w': World)
    requires i in w.nodes && i in w.signatures && AtLeastTwo(w.nodes[i])
  {
    var (r, o) := Drive(w.nodes[i]);
    w.(nodes := w.nodes[i := r],
       net := w.net + OutPackets(i, o),
       signatures := if o.Signed? then w.signatures[i := w.signatures[i] + [o.signature]] else w.signatures,
       panicked := if o.Crashed? then w.panicked + {i} else w.panicked)
  }

  ghost function TssNext(su: Setup, w: World, e: TssEvent): (w': World)
    requires su.Valid() && Allowed(su, w, e)
  {
    match e
    case Poll(i) => Polled(w, i)
    case Take(p) => Next(su, w, Deliver(p))
    case Quit(i) => Next(su, w, FallSilent(i))
    case Sign(i) => Next(su, w, Inform(i))
  }

  ghost function TssAfter(su: Setup, events: seq<TssEvent>): (w: Option<World>)
    requires su.Valid()
  {
    if events == [] then Some(Init(su))
    else
      var before := TssAfter(su, events[..|events| - 1]);
      var e := events[|events| - 1];
      if before.None? || !Allowed(su, before.value, e) then None else Some(TssNext(su, before.value, e))
  }

  lemma Step(su: Setup, events: seq<Event>, e: Event)
    requires su.Valid() && After(su, events).Some? && RoastWorld.Enabled(su, After(su, events).value, e)
    ensures After(su, events + [e]) == Some(Next(su, After(su, events).value, e))
  {
    assert (events + [e])[..|events|] == events;
  }

  /** What the call returns when its first action is its last. */
  ghost function Final(id: Id, r1: Roast, action: Action): (o: (Roast, Outcome)) {
    match action
    case Idle => (r1, NoAction)
    case Complete(signature) => (r1, Signed(signature))
    case Panic => (r1, Crashed)
    case Send(to, msg) => (r1, ToPeers({to}, msg))
    case SendMany(peers, msg) => (if id in peers then OnMessage(r1, id, msg) else r1, ToPeers(peers - {id}, msg))
  }

  lemma DriveFinal(r: Roast)
    requires AtLeastTwo(r)
    requires var action := NextAction(r).1; !(action.Send? && action.to == r.signer.id)
    ensures Drive(r) == Final(r.signer.id, NextAction(r).0, NextAction(r).1)
  {
    hide NextAction, OnMessage, AtLeastTwo;
  }

  lemma FinalPackets(net: multiset<Packet>, i: Id, r1: Roast, action: Action)
    requires !(action.Send? && action.to == i)
    ensures var self := ToSelf(i, action);
            var sent := net + Packets(i, action);
            (if self.Some? then sent - multiset{self.value} else sent) == net + OutPackets(i, Final(i, r1, action).1)
  {
    hide OnMessage;
    if action.SendMany? {
      SplitPackets(i, action.peers, action.msg);
    } else if action.Send? {
      assert (set peer | peer in {action.to} :: Packet(i, peer, action.msg)) == {Packet(i, action.to, action.msg)};
    }
  }

  /** One `Act` whose action is the last of the call. */
  lemma LastAct(su: Setup, w: World, i: Id)
    requires su.Valid() && Allowed(su, w, Poll(i)) && RoastWorld.Enabled(su, w, Act(i))
    requires var action := NextAction(w.nodes[i]).1; !(action.Send? && action.to == i)
    ensures Next(su, w, Act(i)) == Polled(w, i)
  {
    hide NextAction, OnMessage, AtLeastTwo, Drive, Packets, OutPackets;
    var (r1, action) := NextAction(w.nodes[i]);
    DriveFinal(w.nodes[i]);
    FinalPackets(w.net, i, r1, action);
    if action.SendMany? {
      Overwrites(w.nodes, i, r1, OnMessage(r1, i, action.msg));
    }
  }

  lemma Overwrites(nodes: map<Id, Roast>, i: Id, a: Roast, b: Roast)
    ensures nodes[i := a][i := b] == nodes[i := b]
  {}

  lemma SplitPackets(i: Id, peers: set<Id>, msg: Message)
    ensures var all := multiset(set peer | peer in peers :: Packet(i, peer, msg));
            var others := multiset(set peer | peer in peers - {i} :: Packet(i, peer, msg));
            all == if i in peers then others + multiset{Packet(i, i, msg)} else others
  {
    var all := set peer | peer in peers :: Packet(i, peer, msg);
    var others := set peer | peer in peers - {i} :: Packet(i, peer, msg);
    if i in peers {
      assert all == others + {Packet(i, i, msg)};
      assert Packet(i, i, msg) !in others;
    } else {
      assert all == others;
    }
  }

  /** One `Act` whose message goes to the node itself. */
  lemma SelfAct(su: Setup, w: World, i: Id)
    requires su.Valid() && Allowed(su, w, Poll(i)) && RoastWorld.Enabled(su, w, Act(i))
    requires var action := NextAction(w.nodes[i]).1; action.Send? && action.to == i
    ensures var (r1, action) := NextAction(w.nodes[i]);
            var w1 := Next(su, w, Act(i));
            w1 == w.(nodes := w.nodes[i := OnMessage(r1, i, action.msg)]) && Allowed(su, w1, Poll(i))
                && Polled(w, i) == Polled(w1, i)
  {
    ActionShrinks(w.nodes[i]);
    var (r1, action) := NextAction(w.nodes[i]);
    DeliveryKeeps(r1, i, action.msg);
    hide NextAction, OnMessage, AtLeastTwo;
    assert w.net + multiset{Packet(i, i, action.msg)} - multiset{Packet(i, i, action.msg)} == w.net;
    Overwrites(w.nodes, i, r1, OnMessage(r1, i, action.msg));
    Overwrites(w.nodes, i, OnMessage(r1, i, action.msg), Drive(OnMessage(r1, i, action.msg)).0);
  }

  lemma IdlePoll(w: World, i: Id)
    requires i in w.nodes && i in w.signatures && AtLeastTwo(w.nodes[i]) && NextAction(w.nodes[i]).1.Idle?
    ensures Polled(w, i) == w.(nodes := w.nodes[i := NextAction(w.nodes[i]).0])
  {
    assert w.net + multiset{} == w.net;
  }

  /** At honest nodes a call that finds nothing to do changes nothing. */
  lemma IdleSame(su: Setup, w: World, l: Ledger, i: Id)
    requires su.Valid() && Agrees(su, w, l) && i in w.nodes && i in w.signatures && NextAction(w.nodes[i]).1.Idle?
    ensures NextAction(w.nodes[i]).0 == w.nodes[i]
  {
    hide Agrees, NodeOk, NextAction, StartSession, Respond;
    var r := w.nodes[i];
    NodeFacts(su, w, l, i, i);
    PollCases(su, i, r, w.signatures[i]);
    if r.signer.requests != [] && r.signer.data.Some? {
      AnswerFirst(su, w, l, i);
    }
    NothingToAnswer(r);
  }

  lemma NothingToAnswer(r: Roast)
    ensures r.coordinators == {} && (r.signer.requests == [] || r.signer.data.None?) ==> SignerAction(r) == (r, Idle)
  {}

  /** One call of `Tss::next_action` is a series of actions of the protocol. */
  lemma {:induction false} PollIsActs(su: Setup, events: seq<Event>, i: Id) returns (acts: seq<Event>)
    requires su.Valid() && After(su, events).Some? && Allowed(su, After(su, events).value, Poll(i))
    ensures After(su, events + acts) == Some(Polled(After(su, events).value, i))
    decreases |After(su, events).value.nodes[i].coordinators| + |After(su, events).value.nodes[i].signer.requests|
  {
    hide After, NextAction, Next, Polled, Agrees, OnMessage, AtLeastTwo;
    var w := After(su, events).value;
    if NextAction(w.nodes[i]).1.Idle? {
      acts := [];
      assert events + [] == events;
      var l := RunAgrees(su, events);
      IdleSame(su, w, l, i);
      IdlePoll(w, i);
      assert w.nodes[i := w.nodes[i]] == w.nodes;
    } else {
      Step(su, events, Act(i));
      if NextAction(w.nodes[i]).1.Send? && NextAction(w.nodes[i]).1.to == i {
        SelfAct(su, w, i);
        Shrinks(w.nodes[i]);
        acts := PollIsActs(su, events + [Act(i)], i);
        assert events + ([Act(i)] + acts) == events + [Act(i)] + acts;
        acts := [Act(i)] + acts;
      } else {
        LastAct(su, w, i);
        acts := [Act(i)];
      }
    }
  }

  lemma Shrinks(r: Roast)
    requires AtLeastTwo(r) && NextAction(r).1.Send?
    ensures var (r1, action) := NextAction(r);
            var r2 := OnMessage(r1, r.signer.id, action.msg);
            |r2.coordinators| + |r2.signer.requests| < |r.coordinators| + |r.signer.requests|
  {
    ActionShrinks(r);
    var (r1, action) := NextAction(r);
    DeliveryKeeps(r1, r.signer.id, action.msg);
    hide NextAction, OnMessage;
  }

  /** Every run of calls, deliveries and members falling silent is a run of the protocol. */
  lemma {:induction false} TssRunIsRun(su: Setup, tss: seq<TssEvent>) returns (events: seq<Event>)
    requires su.Valid() && TssAfter(su, tss).Some?
    ensures After(su, events) == TssAfter(su, tss)
  {
    hide Polled, Next;
    if tss == [] {
      events := [];
    } else {
      var before, e := tss[..|tss| - 1], tss[|tss| - 1];
      events := TssRunIsRun(su, before);
      match e {
        case Poll(i) =>
          var acts := PollIsActs(su, events, i);
          events := events + acts;
        case Take(p) =>
          Step(su, events, Deliver(p));
          events := events + [Deliver(p)];
        case Quit(i) =>
          Step(su, events, FallSilent(i));
          events := events + [FallSilent(i)];
        case Sign(i) =>
          Step(su, events, Inform(i));
          events := events + [Inform(i)];
      }
    }
  }

  /** Robustness of the calls themselves: at rest every live coordinator has signed exactly once. */
  lemma TssRunsSign(su: Setup, tss: seq<TssEvent>)
    requires su.Valid() && TssAfter(su, tss).Some? && Quiescent(su, TssAfter(su, tss).value)
    ensures var w := TssAfter(su, tss).value;
            && w.panicked == {}
            && (forall c :: c in su.Coords() && c !in w.silent ==>
                  c in w.signatures && w.signatures[c] == [Frost.Signature(su.data)])
            && (exists c :: c in su.Coords() && c in su.members && c !in w.silent)
  {
    hide After, TssAfter, Quiescent;
    var events := TssRunIsRun(su, tss);
    QuiescentRunsSigned(su, events);
    RunsAreSafe(su, events);
  }
}

module TssMachine {
  import opened Frost
  import opened RoastSpec
  import opened RoastMachine
  import opened TssSpec

  /** The inner loop of `Tss::next_action` for one signing session. */
  method NextAction(session: RoastProcess, id: Id) returns (outcome: Outcome)
    requires AtLeastTwo(session.Value()) && session.Value().signer.id == id
    modifies session, session.signer, session.coordinator
    ensures (session.Value(), outcome) == Drive(old(session.Value()))
  {
    hide RoastSpec.NextAction, OnMessage, AtLeastTwo;
    while true
      invariant AtLeastTwo(session.Value()) && session.Value().signer.id == id
      invariant Drive(session.Value()) == Drive(old(session.Value()))
      invariant session.coordinator == null || session.coordinator == old(session.coordinator)
      decreases |session.Value().coordinators| + |session.Value().signer.requests|
    {
      ghost var r := session.Value();
      ActionShrinks(r);
      var action := session.Poll();
      match action {
        case Idle => return NoAction;
        case Complete(signature) => return Signed(signature);
        case Panic => return Crashed;
        case Send(to, msg) =>
          if to != id {
            return ToPeers({to}, msg);
          }
          DeliveryKeeps(session.Value(), id, msg);
          session.HandleMessage(id, msg);
        case SendMany(peers, msg) =>
          if id in peers {
            session.HandleMessage(id, msg);
          }
          return ToPeers(peers - {id}, msg);
      }
    }
  }
}
