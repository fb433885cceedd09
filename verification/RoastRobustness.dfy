/**
  ROAST is robust: with at most n - t members silent, every run is finite, no honest node panics, and
  a run with nothing left to deliver or do has one signature at every live coordinator.
 */
module RoastRobustness {
  import opened Options
  import opened Frost
  import opened RoastSpec
  import opened FiniteSets
  import opened RoastWorld
  import opened RoastInvariant

  // ------------------------------------------------------------------ measure

  ghost function Rank(p: Place): (n: nat) {
    match p
    case Unsent => 2
    case Sent(_) => 1
    case Waiting(_) => 0
    case Asked(_, _) => 3
    case Queued(_, _) => 2
    case Answered(_, _, _) => 1
    case Done(_) => 0
  }

  ghost function RankOf(l: Ledger): (f: ((Id, Id)) -> nat) {
    q => if q in l then Rank(l[q]) else 0
  }

  ghost function Ranks(l: Ledger): (n: nat) {
    Sum(l.Keys, RankOf(l))
  }

  /** What the sessions a coordinator may still open are worth. */
  ghost function Credit(su: Setup, k: Option<Coordinator>): (n: nat)
    requires su.Valid()
  {
    if k.Some? && k.value.sessionId <= su.Spare()
    then (su.Spare() - k.value.sessionId) * (3 * su.threshold + 1) + 1
    else 0
  }

  ghost function CreditOf(su: Setup, nodes: map<Id, Roast>): (f: Id -> nat)
    requires su.Valid()
  {
    c => if c in nodes then Credit(su, nodes[c].coordinator) else 0
  }

  ghost function Credits(su: Setup, nodes: map<Id, Roast>): (n: nat)
    requires su.Valid()
  {
    Sum(su.Coords(), CreditOf(su, nodes))
  }

  ghost function Measure(su: Setup, w: World, l: Ledger): (n: int)
    requires su.Valid()
  {
    Ranks(l) + Credits(su, w.nodes) + |su.members| - su.threshold - |w.silent| + |Lacking(w.nodes)|
  }

  /** The nodes that have not been given the data yet. */
  ghost function Lacking(nodes: map<Id, Roast>): (s: set<Id>) {
    set i | i in nodes && nodes[i].signer.data.None?
  }

  lemma LackingSame(nodes: map<Id, Roast>, i: Id, r: Roast)
    requires i in nodes && r.signer.data == nodes[i].signer.data
    ensures Lacking(nodes[i := r]) == Lacking(nodes)
  {}

  lemma {:induction false} RespondKeepsData(s: Signer)
    ensures Respond(s).0.data == s.data
    decreases |s.requests|
  {
    if s.data.Some? && s.requests != [] && HasNonce(s) && Attempt(s).None? {
      RespondKeepsData(Pop(s));
    }
  }

  lemma ActionKeepsData(r: Roast)
    ensures NextAction(r).0.signer.data == r.signer.data
  {
    RespondKeepsData(r.signer);
    hide StartSession, TakeComplete, Respond;
  }

  lemma EmitKeepsData(w: World, i: Id)
    requires i in w.nodes && i in w.signatures
    ensures Lacking(Emit(w, i).nodes) == Lacking(w.nodes)
  {
    hide NextAction, Lacking;
    ActionKeepsData(w.nodes[i]);
    LackingSame(w.nodes, i, NextAction(w.nodes[i]).0);
  }

  lemma ReceiveKeepsData(w: World, p: Packet)
    requires p.to in w.nodes
    ensures Lacking(Receive(w, p).nodes) == Lacking(w.nodes)
  {
    hide Lacking;
    LackingSame(w.nodes, p.to, OnMessage(w.nodes[p.to], p.from, p.msg));
  }

  lemma RankMove(l: Ledger, q: (Id, Id), p: Place)
    requires q in l
    ensures Ranks(l[q := p]) + Rank(l[q]) == Ranks(l) + Rank(p)
  {
    assert l[q := p].Keys == l.Keys;
    SumChange(l.Keys, RankOf(l), RankOf(l[q := p]), q);
  }

  lemma RankRetire(l: Ledger, c: Id)
    ensures Ranks(Retire(l, c)) == Ranks(l)
  {
    SumAgree(l.Keys, RankOf(l), RankOf(Retire(l, c)));
  }

  ghost function Pairs(s: set<Id>, c: Id): (pairs: set<(Id, Id)>) {
    set i | i in s :: (i, c)
  }

  lemma PairsSize(s: set<Id>, c: Id)
    ensures |Pairs(s, c)| == |s|
  {
    if s == {} {
      assert Pairs(s, c) == {};
    } else {
      var x :| x in s;
      PairsSize(s - {x}, c);
      assert Pairs(s, c) == Pairs(s - {x}, c) + {(x, c)};
      assert (x, c) !in Pairs(s - {x}, c);
    }
  }

  lemma RankAsk(l: Ledger, c: Id, sid: nat, pkg: Commitments)
    requires forall s :: s in pkg ==> (s, c) in l && l[(s, c)].Waiting?
    ensures Ranks(Ask(l, c, sid, pkg)) == Ranks(l) + 3 * |pkg|
  {
    hide Sum;
    var l' := Ask(l, c, sid, pkg);
    var part := Pairs(pkg.Keys, c);
    assert part <= l.Keys;
    SumSplit(l.Keys, part, RankOf(l));
    SumSplit(l.Keys, part, RankOf(l'));
    SumConstant(part, RankOf(l), 0);
    SumConstant(part, RankOf(l'), 3);
    PairsSize(pkg.Keys, c);
    SumAgree(l.Keys - part, RankOf(l), RankOf(l'));
  }

  lemma CreditsSame(su: Setup, nodes: map<Id, Roast>, nodes': map<Id, Roast>)
    requires su.Valid() && nodes.Keys == nodes'.Keys
    requires forall c :: c in nodes && c in su.Coords() ==>
                           Credit(su, nodes'[c].coordinator) == Credit(su, nodes[c].coordinator)
    ensures Credits(su, nodes') == Credits(su, nodes)
  {
    SumAgree(su.Coords(), CreditOf(su, nodes), CreditOf(su, nodes'));
  }

  lemma CreditsDrop(su: Setup, nodes: map<Id, Roast>, c: Id, r: Roast)
    requires su.Valid() && c in su.Coords() && c in nodes
    ensures Credits(su, nodes[c := r]) + Credit(su, nodes[c].coordinator)
            == Credits(su, nodes) + Credit(su, r.coordinator)
  {
    SumChange(su.Coords(), CreditOf(su, nodes), CreditOf(su, nodes[c := r]), c);
  }

  // -------------------------------------------------------------- one step

  lemma ReceiveStep(su: Setup, w: World, l: Ledger, p: Packet) returns (l': Ledger)
    requires su.Valid() && Agrees(su, w, l) && p in w.net
    ensures p.to in w.nodes && Agrees(su, Receive(w, p), l')
    ensures Measure(su, Receive(w, p), l') < Measure(su, w, l)
  {
    hide Agrees, Ranks, Credits, Lacking;
    if p.msg.Sign? {
      l' := DeliverSign(su, w, l, p);
    } else {
      l' := DeliverToCoordinator(su, w, l, p);
    }
    DeliveredIsExpected(su, w, l, p);
    RankMove(l, Route(p), PlaceAfter(w, l, p));
    CreditsSame(su, w.nodes, Receive(w, p).nodes);
    ReceiveKeepsData(w, p);
  }

  /** Act without the hand-over of the node's own message. */
  lemma EmitStep(su: Setup, w: World, l: Ledger, i: Id) returns (l': Ledger)
    requires su.Valid() && Agrees(su, w, l) && i in w.nodes && i in w.signatures
    requires !NextAction(w.nodes[i]).1.Idle?
    ensures Agrees(su, Emit(w, i), l') && !NextAction(w.nodes[i]).1.Panic?
    ensures su.CoordinatorsInformed() ==> Measure(su, Emit(w, i), l') < Measure(su, w, l)
  {
    hide Agrees, NodeOk, CoordinatorOk, NextAction, StartSession, Ranks, Credits, Emit;
    var r := w.nodes[i];
    NodeFacts(su, w, l, i, i);
    PollCases(su, i, r, w.signatures[i]);
    if r.coordinator.Some? {
      NodeCoordinator(su, i, r, w.signatures[i]);
    }
    if MayComplete(r) {
      l' := CompleteStep(su, w, l, i);
    } else if MayStart(r, su.threshold) {
      l' := RequestStep(su, w, l, i);
    } else {
      l' := SignerStep(su, w, l, i);
    }
  }

  lemma CreditPositive(su: Setup, k: Coordinator)
    requires su.Valid() && CoordinatorOk(su, k, true)
    ensures Credit(su, Some(k)) >= 1
  {
    hide SessionOk;
    CreditNonNegative(su.Spare() - k.sessionId, 3 * su.threshold + 1);
  }

  lemma CreditNonNegative(left: nat, price: nat)
    ensures left * price >= 0
  {}

  lemma CompleteStep(su: Setup, w: World, l: Ledger, c: Id) returns (l': Ledger)
    requires su.Valid() && Agrees(su, w, l) && c in su.Coords() && c in w.nodes && c in w.signatures
    requires w.nodes[c].coordinator.Some? && CoordinatorOk(su, w.nodes[c].coordinator.value, c in su.informed)
    requires NextAction(w.nodes[c]) == (w.nodes[c].(coordinator := None), Complete(Frost.Signature(su.data)))
    ensures Agrees(su, Emit(w, c), l')
    ensures su.CoordinatorsInformed() ==> Measure(su, Emit(w, c), l') < Measure(su, w, l)
  {
    hide Agrees, NextAction, Ranks, Credits, CoordinatorOk;
    EmitKeepsData(w, c);
    if su.CoordinatorsInformed() {
      CreditPositive(su, w.nodes[c].coordinator.value);
    }
    EmitComplete(su, w, l, c);
    l' := Retire(l, c);
    RankRetire(l, c);
    CreditsDrop(su, w.nodes, c, Emit(w, c).nodes[c]);
  }

  lemma RequestStep(su: Setup, w: World, l: Ledger, c: Id) returns (l': Ledger)
    requires su.Valid() && Agrees(su, w, l) && c in su.Coords() && c in w.nodes && c in w.signatures
    requires MayStart(w.nodes[c], su.threshold)
    ensures Agrees(su, Emit(w, c), l')
    ensures su.CoordinatorsInformed() ==> Measure(su, Emit(w, c), l') < Measure(su, w, l)
  {
    hide Agrees, NextAction, Ranks, Credits, MayComplete, Lacking;
    var sid, pkg := w.nodes[c].coordinator.value.sessionId, map[];
    pkg, l' := EmitRequests(su, w, l, c);
    EmitKeepsData(w, c);
    RankAsk(l, c, sid, pkg);
    CreditsDrop(su, w.nodes, c, Emit(w, c).nodes[c]);
    if su.CoordinatorsInformed() {
      CreditStep(su.Spare() - sid, 3 * su.threshold + 1);
    }
  }

  lemma CreditStep(left: nat, price: nat)
    requires left >= 1
    ensures left * price == (left - 1) * price + price
  {}

  lemma SignerStep(su: Setup, w: World, l: Ledger, i: Id) returns (l': Ledger)
    requires su.Valid() && Agrees(su, w, l) && i in w.nodes && i in w.signatures
    requires NextAction(w.nodes[i]) == SignerAction(w.nodes[i]) && !NextAction(w.nodes[i]).1.Idle?
    ensures Agrees(su, Emit(w, i), l') && !NextAction(w.nodes[i]).1.Panic?
    ensures Measure(su, Emit(w, i), l') < Measure(su, w, l)
  {
    hide Agrees, NodeOk, NextAction, Ranks, Credits;
    var r, w' := w.nodes[i], Emit(w, i);
    var c;
    EmitKeepsData(w, i);
    if r.coordinators != {} {
      c, l' := EmitCommit(su, w, l, i);
      RankMove(l, (i, c), l'[(i, c)]);
    } else {
      c, l' := EmitAnswer(su, w, l, i);
      RankMove(l, (i, c), l'[(i, c)]);
      Parts(su, w, l, i, c);
      AnswerFirst(su, w, l, i);
    }
    CreditsSame(su, w.nodes, w'.nodes);
  }

  lemma AnswerFirst(su: Setup, w: World, l: Ledger, s: Id)
    requires su.Valid() && Agrees(su, w, l) && s in w.nodes && s in w.signatures
    requires w.nodes[s].signer.requests != [] && w.nodes[s].signer.data.Some?
    ensures Respond(w.nodes[s].signer).1.Answer?
  {
    hide Agrees, NodeOk, SignerSide, Respond;
    var c := w.nodes[s].signer.requests[0].0;
    NodeFacts(su, w, l, s, c);
    Parts(su, w, l, s, c);
    AnswerOldest(su, w.nodes[s], w.signatures[s], l[(s, c)], s);
  }

  lemma ActStep(su: Setup, w: World, l: Ledger, i: Id) returns (l': Ledger)
    requires su.Valid() && Agrees(su, w, l) && Enabled(su, w, Act(i))
    ensures Agrees(su, Next(su, w, Act(i)), l')
    ensures su.CoordinatorsInformed() ==> Measure(su, Next(su, w, Act(i)), l') < Measure(su, w, l)
  {
    hide Agrees, NextAction, Measure;
    l' := EmitStep(su, w, l, i);
    var self := ToSelf(i, NextAction(w.nodes[i]).1);
    if self.Some? {
      OwnPacket(i, NextAction(w.nodes[i]).1);
      l' := ReceiveStep(su, Emit(w, i), l', self.value);
    }
  }

  lemma OwnPacket(i: Id, action: Action)
    requires ToSelf(i, action).Some?
    ensures ToSelf(i, action).value in Packets(i, action)
  {
    if action.SendMany? {
      assert ToSelf(i, action).value in set peer | peer in action.peers :: Packet(i, peer, action.msg);
    }
  }

  lemma SilenceStep(su: Setup, w: World, l: Ledger, i: Id)
    requires su.Valid() && Agrees(su, w, l) && Enabled(su, w, FallSilent(i))
    ensures Agrees(su, Next(su, w, FallSilent(i)), l)
    ensures Measure(su, Next(su, w, FallSilent(i)), l) < Measure(su, w, l)
  {
    hide NodeOk, QueueOk, SignerSide, CoordSide, NetOk, Ranks, Credits, Lacking;
  }

  lemma StepKeeps(su: Setup, w: World, l: Ledger, e: Event) returns (l': Ledger)
    requires su.Valid() && Agrees(su, w, l) && Enabled(su, w, e)
    ensures Agrees(su, Next(su, w, e), l')
    ensures su.CoordinatorsInformed() ==> Measure(su, Next(su, w, e), l') < Measure(su, w, l)
  {
    hide Agrees, NextAction, Measure, Emit;
    match e
    case Act(i) => l' := ActStep(su, w, l, i);
    case Deliver(p) => l' := ReceiveStep(su, w, l, p);
    case FallSilent(i) => SilenceStep(su, w, l, i); l' := l;
    case Inform(i) => InformStep(su, w, l, i); l' := l;
  }

  lemma InformStep(su: Setup, w: World, l: Ledger, i: Id)
    requires su.Valid() && Agrees(su, w, l) && Enabled(su, w, Inform(i))
    ensures Agrees(su, Next(su, w, Inform(i)), l)
    ensures Measure(su, Next(su, w, Inform(i)), l) < Measure(su, w, l)
  {
    hide Agrees, Ranks, Credits;
    var w' := Next(su, w, Inform(i));
    Whole(su, w, l);
    InformKeeps(su, w, l, i);
    CreditsSame(su, w.nodes, w'.nodes);
    assert Lacking(w.nodes) == Lacking(w'.nodes) + {i};
  }

  // ------------------------------------------------------------------- runs

  ghost function FullLedger(su: Setup): (l: Ledger)
    requires su.Valid()
    ensures forall s, c :: (s, c) in l <==> s in su.members && c in su.Coords()
    ensures forall q :: q in l ==> l[q].Unsent?
  {
    map s, c | s in su.members && c in su.Coords() :: (s, c) := Unsent
  }

  lemma InitNodeOk(su: Setup, i: Id)
    requires su.Valid() && i in su.members
    ensures NodeOk(su, i, InitNode(su, i), []) && QueueOk(su, InitNode(su, i).signer.requests)
  {
    assert su.Coords() - su.Coords() == {};
  }

  lemma InitAgrees(su: Setup)
    requires su.Valid()
    ensures Agrees(su, Init(su), FullLedger(su))
  {
    hide NodeOk, QueueOk;
    var w, l := Init(su), FullLedger(su);
    forall i | i in w.nodes
      ensures NodeOk(su, i, w.nodes[i], w.signatures[i]) && QueueOk(su, w.nodes[i].signer.requests)
    {
      InitNodeOk(su, i);
    }
  }

  /** A run of n members with threshold t has at most this many steps. */
  ghost function Bound(su: Setup): (n: int)
    requires su.Valid()
  {
    2 * (|su.members| * su.Spare())
    + (su.Spare() * (3 * su.threshold + 1) + 1) * su.Spare()
    + |su.members| - su.threshold + |su.members - su.informed|
  }

  lemma ProductSize(a: set<Id>, b: set<Id>, pairs: set<(Id, Id)>)
    requires forall s, c :: (s, c) in pairs <==> s in a && c in b
    ensures |pairs| == |a| * |b|
    decreases |b|
  {
    if b == {} {
      forall q: (Id, Id) ensures q !in pairs {
        var (s, c) := q;
      }
    } else {
      var c :| c in b;
      var rest := pairs - Pairs(a, c);
      assert |b - {c}| == |b| - 1;
      ProductSize(a, b - {c}, rest);
      PairsSize(a, c);
      assert pairs == rest + Pairs(a, c);
      assert |a| * (|b| - 1) + |a| == |a| * |b|;
    }
  }

  lemma InitRanks(su: Setup)
    requires su.Valid()
    ensures Ranks(FullLedger(su)) == 2 * (|su.members| * su.Spare())
  {
    hide Sum;
    var l := FullLedger(su);
    ProductSize(su.members, su.Coords(), l.Keys);
    SumConstant(l.Keys, RankOf(l), 2);
  }

  lemma InitCredits(su: Setup)
    requires su.Valid()
    ensures Credits(su, Init(su).nodes) == (su.Spare() * (3 * su.threshold + 1) + 1) * su.Spare()
  {
    hide Sum;
    SumConstant(su.Coords(), CreditOf(su, Init(su).nodes), su.Spare() * (3 * su.threshold + 1) + 1);
  }

  lemma InitLacking(su: Setup)
    requires su.Valid()
    ensures Lacking(Init(su).nodes) == su.members - su.informed
  {}

  lemma InitMeasure(su: Setup)
    requires su.Valid()
    ensures Measure(su, Init(su), FullLedger(su)) == Bound(su)
  {
    hide Ranks, Credits, Lacking, FullLedger;
    InitRanks(su);
    InitCredits(su);
    InitLacking(su);
  }

  lemma {:induction false} RunAgrees(su: Setup, events: seq<Event>) returns (l: Ledger)
    requires su.Valid() && After(su, events).Some?
    ensures Agrees(su, After(su, events).value, l)
    ensures su.CoordinatorsInformed() ==> |events| + Measure(su, After(su, events).value, l) <= Bound(su)
  {
    hide Agrees, Measure, Bound, Enabled, Next, Init;
    if events == [] {
      InitAgrees(su);
      InitMeasure(su);
      l := FullLedger(su);
    } else {
      var before := events[..|events| - 1];
      l := RunAgrees(su, before);
      l := StepKeeps(su, After(su, before).value, l, events[|events| - 1]);
    }
  }

  lemma MeasureNonNegative(su: Setup, w: World, l: Ledger)
    requires su.Valid() && Domains(su, w, l)
    ensures Measure(su, w, l) >= 0
  {}

  /** Every run in which the coordinators have the data from the start is finite. */
  lemma RunsAreFinite(su: Setup, events: seq<Event>)
    requires su.Valid() && After(su, events).Some? && su.CoordinatorsInformed()
    ensures |events| <= Bound(su)
  {
    hide Agrees, Measure, Bound, After;
    var l := RunAgrees(su, events);
    Whole(su, After(su, events).value, l);
    MeasureNonNegative(su, After(su, events).value, l);
  }

  // -------------------------------------------------------------- progress

  /** All live nodes have the data and nothing to do, and nothing is in flight between them. */
  ghost predicate Quiescent(su: Setup, w: World) {
    && (forall i :: i in w.nodes && i !in w.silent ==> w.nodes[i].signer.data.Some? && NextAction(w.nodes[i]).1.Idle?)
    && (forall p :: p in w.net ==> p.from in w.silent || p.to in w.silent)
  }

  lemma IdleNode(su: Setup, w: World, l: Ledger, s: Id, c: Id)
    requires su.Valid() && Agrees(su, w, l) && (s, c) in l && s in w.nodes && s in w.signatures
    requires NextAction(w.nodes[s]).1.Idle? && w.nodes[s].signer.data.Some?
    ensures !l[(s, c)].Unsent? && !l[(s, c)].Queued?
    ensures w.nodes[s].coordinator.Some? ==> |w.nodes[s].coordinator.value.commitments| < su.threshold
  {
    hide Agrees, NodeOk, NextAction, StartSession, Respond;
    var r := w.nodes[s];
    Parts(su, w, l, s, c);
    PollCases(su, s, r, w.signatures[s]);
    if r.signer.requests != [] {
      AnswerFirst(su, w, l, s);
    }
  }

  lemma QuietPair(su: Setup, w: World, l: Ledger, s: Id, c: Id)
    requires su.Valid() && Agrees(su, w, l) && Quiescent(su, w) && (s, c) in l
    requires s in w.nodes && s in w.signatures && c in w.nodes && s !in w.silent && c !in w.silent
             && w.nodes[c].coordinator.Some?
    ensures s in w.nodes[c].coordinator.value.commitments
  {
    hide Agrees, NodeOk, NextAction, SignerSide;
    Parts(su, w, l, s, c);
    IdleNode(su, w, l, s, c);
    var o := InFlight(su.data, (s, c), l[(s, c)]);
    if o.Some? {
      assert w.net[o.value] == 1;
    }
  }

  lemma QuietCoordinator(su: Setup, w: World, l: Ledger, c: Id)
    requires su.Valid() && Agrees(su, w, l) && Quiescent(su, w) && c in su.Coords() && c in w.nodes && c !in w.silent
    ensures w.nodes[c].coordinator.None?
  {
    hide Agrees, Quiescent, NextAction;
    Whole(su, w, l);
    if w.nodes[c].coordinator.Some? {
      var live := su.members - w.silent;
      var k := w.nodes[c].coordinator.value;
      forall s | s in live ensures s in k.commitments {
        QuietPair(su, w, l, s, c);
      }
      SubsetSize(live, k.commitments.Keys);
      QuietIdle(su, w, c);
      IdleNode(su, w, l, c, c);
    }
  }

  lemma QuietIdle(su: Setup, w: World, c: Id)
    requires Quiescent(su, w) && c in w.nodes && c !in w.silent
    ensures NextAction(w.nodes[c]).1.Idle? && w.nodes[c].signer.data.Some?
  {}

  /** Any t members include a coordinator. */
  lemma SomeCoordinatorLives(su: Setup, silent: set<Id>)
    requires su.Valid() && silent <= su.members && |silent| <= |su.members| - su.threshold
    ensures exists c :: c in su.Coords() && c in su.members && c !in silent
  {
    Overlap(su.members, su.Coords(), su.members - silent);
    assert forall c :: c in su.members - silent ==> c !in silent;
  }

  /**
    Robustness: a quiescent run, whenever its nodes were given the data, has produced exactly one signature
    at every live coordinator.
   */
  lemma QuiescentRunsSigned(su: Setup, events: seq<Event>)
    requires su.Valid() && After(su, events).Some? && Quiescent(su, After(su, events).value)
    ensures var w := After(su, events).value;
            && (forall c :: c in su.Coords() && c !in w.silent ==>
                  c in w.signatures && w.signatures[c] == [Frost.Signature(su.data)])
            && (exists c :: c in su.Coords() && c in su.members && c !in w.silent)
  {
    hide Agrees, Quiescent, After;
    var w := After(su, events).value;
    var l := RunAgrees(su, events);
    Whole(su, w, l);
    SomeCoordinatorLives(su, w.silent);
    forall c | c in su.Coords() && c !in w.silent
      ensures c in w.signatures && w.signatures[c] == [Frost.Signature(su.data)]
    {
      Parts(su, w, l, c, c);
      QuietCoordinator(su, w, l, c);
    }
  }

  /** In every reachable world nobody has panicked and signatures are genuine and unrepeated. */
  lemma RunsAreSafe(su: Setup, events: seq<Event>)
    requires su.Valid() && After(su, events).Some?
    ensures var w := After(su, events).value;
            && w.panicked == {} && w.signatures.Keys == su.members
            && (forall i :: i in su.members ==> w.signatures[i] == [] || w.signatures[i] == [Frost.Signature(su.data)])
            && (forall i :: i in su.members && i !in su.Coords() ==> w.signatures[i] == [])
  {
    hide Agrees, After;
    var w := After(su, events).value;
    var l := RunAgrees(su, events);
    Whole(su, w, l);
    forall i | i in su.members
      ensures w.signatures[i] == [] || w.signatures[i] == [Frost.Signature(su.data)]
      ensures i !in su.Coords() ==> w.signatures[i] == []
    {
      NodeFacts(su, w, l, i, i);
    }
  }

  // ---------------------------------------------------- session bound and tokens

  /**
    A coordinator that always had the data numbers its sessions 0, 1, ... without gaps and opens at most
    n - t + 1 of them.
   */
  lemma SessionsAreBounded(su: Setup, events: seq<Event>, c: Id)
    requires su.Valid() && After(su, events).Some?
    requires c in After(su, events).value.nodes && After(su, events).value.nodes[c].coordinator.Some?
             && c in su.informed
    ensures var k := After(su, events).value.nodes[c].coordinator.value;
            && k.sessionId <= |su.members| - su.threshold + 1 < SESSION_IDS
            && (forall sid :: sid in k.sessions <==> 0 <= sid < k.sessionId)
  {
    hide Agrees, After, SessionOk;
    var w := After(su, events).value;
    var l := RunAgrees(su, events);
    Whole(su, w, l);
    NodeFacts(su, w, l, c, c);
  }

  /** Session sid of the coordinator still waits for the share of s. */
  ghost predicate PendingAt(k: Coordinator, sid: nat, s: Id) {
    sid in k.sessions && s in k.sessions[sid].commitments && s !in k.sessions[sid].shares
  }

  /** Nobody is pending in two sessions, or pending and waiting for the next one. */
  lemma PendingOnce(su: Setup, events: seq<Event>, c: Id, sid: nat, s: Id)
    requires su.Valid() && After(su, events).Some?
    requires c in After(su, events).value.nodes && After(su, events).value.nodes[c].coordinator.Some?
    requires PendingAt(After(su, events).value.nodes[c].coordinator.value, sid, s)
    ensures var k := After(su, events).value.nodes[c].coordinator.value;
            s !in k.commitments && forall other :: PendingAt(k, other, s) ==> other == sid
  {
    hide Agrees, After;
    var w := After(su, events).value;
    var l := RunAgrees(su, events);
    Whole(su, w, l);
    NodeFacts(su, w, l, c, c);
    assert SessionOk(su, w.nodes[c].coordinator.value.sessions[sid]);
    Parts(su, w, l, s, c);
  }

  ghost predicate InQueue(w: World, s: Id, c: Id)
    requires s in w.nodes
  {
    exists k :: 0 <= k < |w.nodes[s].signer.requests| && w.nodes[s].signer.requests[k].0 == c
  }

  ghost predicate OnTheWire(w: World, s: Id, c: Id) {
    exists p :: p in w.net && Route(p) == (s, c)
  }

  ghost predicate WaitsAt(w: World, s: Id, c: Id)
    requires c in w.nodes
  {
    w.nodes[c].coordinator.Some? && s in w.nodes[c].coordinator.value.commitments
  }

  ghost function Count(b: bool): (n: nat) {
    if b then 1 else 0
  }

  /** What a packet between s and c carries of the commitment of s. */
  ghost predicate PacketHolds(p: Packet, s: Id, nonce: Nonce) {
    match p.msg
    case Commit(commitment) => commitment == Commitment(nonce)
    case Sign(request) => s in request.commitments && request.commitments[s] == Commitment(nonce)
    case Signature(response) => response.commitment == Commitment(nonce)
  }

  /** Wherever the live commitment of s towards c is, it is the one of the nonce s keeps for c. */
  ghost predicate Matches(w: World, s: Id, c: Id)
    requires s in w.nodes && c in w.nodes
  {
    && (forall p :: p in w.net && Route(p) == (s, c) ==>
          c in w.nodes[s].signer.nonces && PacketHolds(p, s, w.nodes[s].signer.nonces[c]))
    && (forall k :: 0 <= k < |w.nodes[s].signer.requests| && w.nodes[s].signer.requests[k].0 == c ==>
          && c in w.nodes[s].signer.nonces && s in w.nodes[s].signer.requests[k].1.commitments
          && w.nodes[s].signer.requests[k].1.commitments[s] == Commitment(w.nodes[s].signer.nonces[c]))
    && (WaitsAt(w, s, c) ==>
          && c in w.nodes[s].signer.nonces
          && w.nodes[c].coordinator.value.commitments[s] == Commitment(w.nodes[s].signer.nonces[c]))
  }

  /**
    A signer has exactly one live commitment towards a coordinator that is still at work: not yet
    sent, in one packet, waiting, or in one queued request; what it holds is the nonce kept for it.
   */
  lemma OneLiveCommitment(su: Setup, events: seq<Event>, s: Id, c: Id)
    requires su.Valid() && After(su, events).Some? && s in su.members && c in su.Coords()
    ensures var w := After(su, events).value;
            && s in w.nodes && c in w.nodes
            && (w.nodes[c].coordinator.Some? ==>
                  Count(c in w.nodes[s].coordinators) + Count(OnTheWire(w, s, c)) + Count(WaitsAt(w, s, c))
                      + Count(InQueue(w, s, c)) == 1)
            && (forall p, q :: p in w.net && q in w.net && Route(p) == Route(q) ==> p == q && w.net[p] == 1)
            && Matches(w, s, c)
  {
    hide Agrees, After, NodeOk;
    var w := After(su, events).value;
    var l := RunAgrees(su, events);
    Whole(su, w, l);
    Parts(su, w, l, s, c);
    WireOfPlace(su, w, l, s, c);
    UniquePackets(su, w.net, l);
    forall p | p in w.net && Route(p) == (s, c)
      ensures c in w.nodes[s].signer.nonces && PacketHolds(p, s, w.nodes[s].signer.nonces[c])
    {
      assert w.net[p] > 0;
    }
  }

  lemma WireOfPlace(su: Setup, w: World, l: Ledger, s: Id, c: Id)
    requires NetOk(su, w.net, l) && (s, c) in l
    ensures OnTheWire(w, s, c) <==> InFlight(su.data, (s, c), l[(s, c)]).Some?
  {
    var o := InFlight(su.data, (s, c), l[(s, c)]);
    if o.Some? {
      assert w.net[o.value] == 1;
    }
    if OnTheWire(w, s, c) {
      var p :| p in w.net && Route(p) == (s, c);
      assert w.net[p] > 0;
    }
  }

  lemma UniquePackets(su: Setup, net: multiset<Packet>, l: Ledger)
    requires NetOk(su, net, l)
    ensures forall p, q :: p in net && q in net && Route(p) == Route(q) ==> p == q && net[p] == 1
  {
    forall p, q | p in net && q in net && Route(p) == Route(q) ensures p == q && net[p] == 1 {
      assert net[p] > 0 && net[q] > 0;
    }
  }
}
