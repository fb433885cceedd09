/** How a shard's status moves over a run, and why key generation always ends in time. */
module LifecycleHistory {
  import opened Sequences
  import opened LifecycleSpec
  import opened LifecycleInvariant
  import opened LifecycleSteps
  import opened LifecycleElections
  import opened LifecycleRuns

  /** One step of Created, Committed, Online, with Offline reachable from each of them. */
  predicate Moves(a: ShardStatus, b: ShardStatus) {
    a == b || b.Offline? || (a.Created? && b.Committed?) || (a.Committed? && b.Online?)
  }

  function Rank(s: ShardStatus): (r: nat) {
    match s case Created => 0 case Committed => 1 case Online => 2 case Offline => 3
  }

  /** What one event may do to shards: existing ones move on and get no new timer, new ones are Created. */
  ghost predicate Onward(c: Chain, c': Chain) {
    && c.nextShard <= c'.nextShard
    && (forall sh :: 0 <= sh < c.nextShard ==> sh in c.state && sh in c'.state && Moves(c.state[sh], c'.state[sh]))
    && (forall sh :: c.nextShard <= sh < c'.nextShard ==> sh in c'.state && c'.state[sh].Created?)
    && (forall b, sh :: 0 <= sh < c.nextShard && sh in TimeoutsAt(c', b) ==> sh in TimeoutsAt(c, b))
  }

  /** Some shards went offline, some timers are gone, and that is all. */
  ghost predicate Falls(c: Chain, c': Chain) {
    && c'.nextShard == c.nextShard
    && (forall sh :: sh in c.state ==> sh in c'.state && (c'.state[sh] == c.state[sh] || c'.state[sh].Offline?))
    && (forall b :: TimeoutsAt(c', b) <= TimeoutsAt(c, b))
  }

  /** Some shards were created, and that is all. */
  ghost predicate Grows(c: Chain, c': Chain) {
    && c.nextShard <= c'.nextShard && c.state.Keys <= c'.state.Keys
    && (forall sh :: sh in c.state && sh < c.nextShard ==> c'.state[sh] == c.state[sh])
    && (forall sh :: c.nextShard <= sh < c'.nextShard ==> sh in c'.state && c'.state[sh].Created?)
    && (forall b, sh :: 0 <= sh < c.nextShard && sh in TimeoutsAt(c', b) ==> sh in TimeoutsAt(c, b))
  }

  lemma FallsTrans(c: Chain, c1: Chain, c2: Chain)
    requires Falls(c, c1) && Falls(c1, c2)
    ensures Falls(c, c2)
  {
    hide TimeoutsAt;
    forall b ensures TimeoutsAt(c2, b) <= TimeoutsAt(c, b) {
      assert TimeoutsAt(c1, b) <= TimeoutsAt(c, b);
    }
  }

  lemma GrowsTrans(c: Chain, c1: Chain, c2: Chain)
    requires Grows(c, c1) && Grows(c1, c2)
    ensures Grows(c, c2)
  {
    hide TimeoutsAt;
  }

  lemma FallThenGrow(c: Chain, c1: Chain, c2: Chain)
    requires Falls(c, c1) && Grows(c1, c2) && forall sh :: 0 <= sh < c.nextShard ==> sh in c.state
    ensures Onward(c, c2)
  {
    hide TimeoutsAt;
    forall b, sh | 0 <= sh < c.nextShard && sh in TimeoutsAt(c2, b) ensures sh in TimeoutsAt(c, b) {
      assert sh in TimeoutsAt(c1, b);
    }
  }

  lemma FallsFrame(c: Chain, c': Chain)
    requires c'.nextShard == c.nextShard && c'.state == c.state && c'.timeouts == c.timeouts
    ensures Falls(c, c') && Grows(c, c')
  {}

  // ----------------------------------------------------------------------- falling

  lemma RemoveFalls(c: Chain, shards: set<Shard>)
    ensures Falls(c, RemoveShards(c, shards))
  {
    hide Returning, Released, NetworksOf, Gone, SortDescending;
  }

  lemma OfflineFalls(c: Chain, ms: set<Account>, n: Network)
    ensures Falls(c, MembersOffline(c, ms, n))
  {
    hide RemoveShards, Broken, Falls;
    OfflineIsRemoval(c, ms, n);
    FallsFrame(c, Lowered(c, ms, n));
    RemoveFalls(Lowered(c, ms, n), Broken(c, ms));
    FallsTrans(c, Lowered(c, ms, n), MembersOffline(c, ms, n));
  }

  lemma {:induction false} OfflineByNetworkFalls(c: Chain, ms: seq<Account>, network: map<Account, Network>,
                                                 order: seq<Network>)
    ensures Falls(c, OfflineByNetwork(c, ms, network, order))
  {
    hide MembersOffline, Falls;
    if order == [] {
      FallsFrame(c, c);
    } else {
      var n := |order| - 1;
      OfflineByNetworkFalls(c, ms, network, order[..n]);
      var c1 := OfflineByNetwork(c, ms, network, order[..n]);
      OfflineFalls(c1, OnNetwork(ms, network, order[n]), order[n]);
      FallsTrans(c, c1, OfflineByNetwork(c, ms, network, order));
    }
  }

  lemma MembersHookFalls(cfg: Config, c: Chain, due: seq<Network>, beating: seq<Account>)
    requires cfg.Valid()
    ensures Falls(c, MembersHook(cfg, c, due, beating))
  {
    hide OfflineByNetwork, SplitTimedOut, Falls;
    FallsFrame(c, c);
    if c.block % cfg.heartbeatTimeout == 0 {
      var now := SplitTimedOut(c.timedOut, c.network, cfg.maxTimeouts).0;
      var c1 := OfflineByNetwork(c, now, c.network, due);
      var c' := TimeoutHeartbeats(cfg, c, due, beating);
      OfflineByNetworkFalls(c, now, c.network, due);
      FallsFrame(c1, c');
      FallsTrans(c, c1, c');
    }
  }

  lemma TimeoutDkgsFalls(c: Chain, n: Block)
    ensures Falls(c, TimeoutDkgs(c, n))
  {
    RemoveFalls(c, DueDkgs(c, n));
    TimersDropped(RemoveShards(c, DueDkgs(c, n)), TimeoutDkgs(c, n), n);
    hide Falls, RemoveShards, DueDkgs;
    FallsTrans(c, RemoveShards(c, DueDkgs(c, n)), TimeoutDkgs(c, n));
  }

  lemma TimersDropped(c: Chain, c': Chain, n: Block)
    requires c'.nextShard == c.nextShard && c'.state == c.state && c'.timeouts == c.timeouts - {n}
    ensures Falls(c, c')
  {}

  lemma BeforeElectionsFalls(cfg: Config, c: Chain, due: seq<Network>, beating: seq<Account>)
    requires cfg.Valid()
    ensures Falls(c, BeforeElections(cfg, c, due, beating))
  {
    hide MembersHook, TimeoutDkgs, Falls;
    var c0 := Advance(c);
    var c1 := MembersHook(cfg, c0, due, beating);
    FallsFrame(c, c0);
    MembersHookFalls(cfg, c0, due, beating);
    FallsTrans(c, c0, c1);
    TimeoutDkgsFalls(c1, c1.block);
    FallsTrans(c, c1, TimeoutDkgs(c1, c1.block));
  }

  // ----------------------------------------------------------------------- growing

  lemma AddsGrows(cfg: Config, c: Chain, n: Network, ms: seq<Account>, t: nat, c': Chain)
    requires Adds(cfg, c, n, ms, t, c')
    ensures Grows(c, c')
  {}

  lemma {:induction false} CreateShardsGrow(cfg: Config, c: Chain, n: Network, ms: seq<Account>, size: nat, t: nat)
    requires size > 0 && |ms| % size == 0
    ensures Grows(c, CreateShards(cfg, c, n, ms, size, t).0)
    decreases |ms|
  {
    hide CreateShard, Grows, Adds;
    FallsFrame(c, c);
    if ms != [] {
      ChunkFits(|ms|, size);
      var r := CreateShard(cfg, c, n, ms[..size], t);
      if r.Some? {
        CreateAdds(cfg, c, n, ms[..size], t, r.value);
        AddsGrows(cfg, c, n, ms[..size], t, r.value);
        CreateShardsGrow(cfg, r.value, n, ms[size..], size, t);
        GrowsTrans(c, r.value, CreateShards(cfg, r.value, n, ms[size..], size, t).0);
      }
    }
  }

  lemma TryElectGrows(cfg: Config, c: Chain, ns: Networks, n: Network, room: nat)
    requires ns.Size(n) > 0
    ensures Grows(c, TryElect(cfg, c, ns, n, room).0)
  {
    hide CreateShards, Grows, Elected;
    var k := Elected(|Pool(c, n)|, ns.Size(n), room);
    CreateShardsGrow(cfg, c, n, Pool(c, n)[..k], ns.Size(n), ns.Threshold(n));
    var c1 := CreateShards(cfg, c, n, Pool(c, n)[..k], ns.Size(n), ns.Threshold(n)).0;
    FallsFrame(c1, TryElect(cfg, c, ns, n, room).0);
    GrowsTrans(c, c1, TryElect(cfg, c, ns, n, room).0);
  }

  lemma {:induction false} ElectFromGrows(cfg: Config, c: Chain, ns: Networks, start: nat, counter: nat, num: nat)
    requires ns.Valid() && num <= cfg.maxElections && (start < |ns.list| || counter == start)
    ensures Grows(c, ElectFrom(cfg, c, ns, start, counter, num).0)
    decreases ToGo(counter, start, |ns.list|)
  {
    hide TryElect, Grows;
    FallsFrame(c, c);
    if num < cfg.maxElections && counter < |ns.list| {
      var n := ns.list[counter];
      var (c1, k) := TryElect(cfg, c, ns, n, cfg.maxElections - num);
      TryElectGrows(cfg, c, ns, n, cfg.maxElections - num);
      ElectedWithin(cfg, c, ns, n, cfg.maxElections - num);
      var next := if counter + 1 == |ns.list| then 0 else counter + 1;
      if next != start {
        ElectFromGrows(cfg, c1, ns, start, next, num + k);
        GrowsTrans(c, c1, ElectFrom(cfg, c, ns, start, counter, num).0);
      }
    }
  }

  lemma ElectionsHookGrows(cfg: Config, c: Chain, ns: Networks)
    requires ns.Valid()
    ensures Grows(c, ElectionsHook(cfg, c, ns))
  {
    hide ElectFrom, Grows;
    ElectFromGrows(cfg, c, ns, c.netCounter, c.netCounter, 0);
    var c1 := ElectFrom(cfg, c, ns, c.netCounter, c.netCounter, 0).0;
    FallsFrame(c1, ElectionsHook(cfg, c, ns));
    GrowsTrans(c, c1, ElectionsHook(cfg, c, ns));
  }

  // ------------------------------------------------------------------- single calls

  lemma HeartbeatStates(home: Home, c: Chain, m: Account)
    requires Core(home, c, {}) && Heartbeat(c, m).Some?
    ensures SameShards(c, Heartbeat(c, m).value)
  {
    hide Core, SortDescending, Without;
    if m !in c.online && m in c.memberShard {
      ReturningMemberIsNotInDkg(home, c, m);
    }
  }

  ghost predicate SameShards(c: Chain, c': Chain) {
    c'.nextShard == c.nextShard && c'.state == c.state && c'.timeouts == c.timeouts
  }

  lemma StatesBelow(home: Home, c: Chain)
    requires Core(home, c, {})
    ensures forall sh :: 0 <= sh < c.nextShard ==> sh in c.state
  {}

  lemma CommitOnward(cfg: Config, home: Home, c: Chain, m: Account, sh: Shard, commitment: Polynomials.Commitment,
                     genuine: bool, order: seq<Account>)
    requires Inv(cfg, home, c) && Lists(order, MembersOf(c, sh))
    requires Commit(c, m, sh, commitment, genuine, order).Some?
    ensures Onward(c, Commit(c, m, sh, commitment, genuine, order).value)
  {
    hide Links, Bases, Lives, Pools, Homes, Timers, Beats, Lists;
    StatesBelow(home, c);
    CoreShard(home, c, sh);
    AddedIsCreated(home, c, sh, m);
  }

  lemma AddedIsCreated(home: Home, c: Chain, sh: Shard, m: Account)
    requires Core(home, c, {}) && sh in c.members && m in c.members[sh] && c.members[sh][m].Added?
    ensures sh in c.state && c.state[sh].Created?
  {
    hide Links, Lives, Pools, Homes;
    assert Base(home, c, sh);
  }

  lemma SubmittedIsNotOnline(home: Home, c: Chain, sh: Shard, m: Account)
    requires Core(home, c, {}) && sh in c.members && m in c.members[sh] && c.members[sh][m].Submitted?
             && sh in c.commitment
    ensures sh in c.state && c.state[sh].Committed?
  {
    hide Links, Lives, Pools, Homes;
    assert Base(home, c, sh);
  }

  lemma ReadyOnward(cfg: Config, home: Home, c: Chain, m: Account, sh: Shard)
    requires Inv(cfg, home, c) && MarkReady(c, m, sh).Some?
    ensures Onward(c, MarkReady(c, m, sh).value)
  {
    hide Links, Bases, Lives, Pools, Homes, Timers, Beats;
    StatesBelow(home, c);
    SubmittedIsNotOnline(home, c, sh, m);
  }

  lemma SameShardsOnward(home: Home, c: Chain, c': Chain)
    requires Core(home, c, {}) && SameShards(c, c')
    ensures Onward(c, c')
  {
    hide Links, Lives, Pools, Homes;
    StatesBelow(home, c);
  }

  lemma RegistrationStates(c: Chain, m: Account, n: Network)
    ensures SameShards(c, Register(c, m, n)) && SameShards(c, Accepted(Unregister(c, m), c))
  {}

  /** Each created shard moves only along the lifecycle, in every step of every run. */
  lemma StepOnward(cfg: Config, home: Home, c: Chain, e: Event)
    requires cfg.Valid() && Inv(cfg, home, c) && Enabled(cfg, c, e)
    ensures Onward(c, Next(cfg, home, c, e))
  {
    hide Core, Beats, Timers, Register, Unregister, Heartbeat, Commit, MarkReady, RemoveShards, ElectionsHook,
         BeforeElections, Lists, Onward, Falls, Grows;
    StatesBelow(home, c);
    SameShardsOnward(home, c, c);
    match e
    case RegisterMember(m) =>
      RegistrationStates(c, m, home(m));
      SameShardsOnward(home, c, Register(c, m, home(m)));
    case UnregisterMember(m) =>
      RegistrationStates(c, m, home(m));
      SameShardsOnward(home, c, Accepted(Unregister(c, m), c));
    case SendHeartbeat(m) =>
      if Heartbeat(c, m).Some? {
        HeartbeatStates(home, c, m);
        SameShardsOnward(home, c, Heartbeat(c, m).value);
      }
    case SubmitCommitment(m, sh, commitment, genuine, order) =>
      if Commit(c, m, sh, commitment, genuine, order).Some? {
        CommitOnward(cfg, home, c, m, sh, commitment, genuine, order);
      }
    case ReportReady(m, sh) =>
      if MarkReady(c, m, sh).Some? { ReadyOnward(cfg, home, c, m, sh); }
    case ForceOffline(sh) =>
      RemoveFalls(c, {sh});
      FallsFrame(RemoveShards(c, {sh}), RemoveShards(c, {sh}));
      FallThenGrow(c, RemoveShards(c, {sh}), RemoveShards(c, {sh}));
    case NewBlock(networks, due, beating) =>
      BeforeElectionsFalls(cfg, c, due, beating);
      ElectionsHookGrows(cfg, BeforeElections(cfg, c, due, beating), networks);
      FallThenGrow(c, BeforeElections(cfg, c, due, beating), Next(cfg, home, c, e));
  }

  // --------------------------------------------------------------------- whole runs

  /** Over any number of steps no created shard moves back, and none gets a new timer. */
  ghost predicate Later(c: Chain, c': Chain) {
    && c.nextShard <= c'.nextShard
    && (forall sh :: 0 <= sh < c.nextShard ==>
          sh in c.state && sh in c'.state && Rank(c.state[sh]) <= Rank(c'.state[sh]))
    && (forall b, sh :: 0 <= sh < c.nextShard && sh in TimeoutsAt(c', b) ==> sh in TimeoutsAt(c, b))
  }

  lemma OnwardThenLater(c: Chain, c1: Chain, c2: Chain)
    requires Onward(c, c1) && Later(c1, c2)
    ensures Later(c, c2)
  {
    hide TimeoutsAt;
    forall b, sh | 0 <= sh < c.nextShard && sh in TimeoutsAt(c2, b) ensures sh in TimeoutsAt(c, b) {
      assert sh in TimeoutsAt(c1, b);
    }
  }

  lemma LaterItself(home: Home, c: Chain)
    requires Core(home, c, {})
    ensures Later(c, c)
  {
    hide Links, Lives, Pools, Homes;
    StatesBelow(home, c);
  }

  lemma {:induction false} RunIsLater(cfg: Config, home: Home, c: Chain, es: seq<Event>)
    requires cfg.Valid() && Inv(cfg, home, c) && Run(cfg, home, c, es)
    ensures Later(c, After(cfg, home, c, es))
    decreases |es|
  {
    hide Core, Beats, Timers, Next, Enabled, Onward, Later;
    if es == [] {
      LaterItself(home, c);
    } else {
      var c1 := Next(cfg, home, c, es[0]);
      StepKeeps(cfg, home, c, es[0]);
      StepOnward(cfg, home, c, es[0]);
      RunIsLater(cfg, home, c1, es[1..]);
      OnwardThenLater(c, c1, After(cfg, home, c1, es[1..]));
    }
  }

  lemma NotInDkgPastTimer(cfg: Config, home: Home, c: Chain, c': Chain, sh: Shard)
    requires Inv(cfg, home, c) && Inv(cfg, home, c') && Later(c, c') && 0 <= sh < c.nextShard
    requires c'.block >= c.block + cfg.dkgTimeout
    ensures sh in c'.state && !InDkg(c'.state[sh])
  {
    hide Links, Lives, Pools, Homes, Beats, Base;
    forall b | b in c'.timeouts ensures sh !in c'.timeouts[b] {
      assert sh in TimeoutsAt(c', b) ==> sh in TimeoutsAt(c, b);
    }
    assert !HasTimer(c', sh);
  }

  /** Key generation ends in time: `dkgTimeout` blocks later a shard is Online or Offline. */
  lemma KeyGenerationEnds(cfg: Config, home: Home, es: seq<Event>, more: seq<Event>, sh: Shard)
    requires cfg.Valid() && Run(cfg, home, Genesis(), es)
    requires var c := After(cfg, home, Genesis(), es); Run(cfg, home, c, more) && sh < c.nextShard
    requires var c := After(cfg, home, Genesis(), es); After(cfg, home, c, more).block >= c.block + cfg.dkgTimeout
    ensures var c' := After(cfg, home, After(cfg, home, Genesis(), es), more);
            sh in c'.state && (c'.state[sh].Online? || c'.state[sh].Offline?)
  {
    hide Inv, Run, After, Later;
    var c := After(cfg, home, Genesis(), es);
    ReachableInv(cfg, home, es);
    RunKeeps(cfg, home, c, more);
    RunIsLater(cfg, home, c, more);
    NotInDkgPastTimer(cfg, home, c, After(cfg, home, c, more), sh);
  }

  /** The status of a created shard is decided by the statuses of its members. */
  ghost predicate StatusByMembers(c: Chain, sh: Shard) {
    && sh in c.state
    && (c.state[sh].Created? <==> sh in c.members && exists m :: m in c.members[sh] && c.members[sh][m].Added?)
    && (c.state[sh].Committed? <==>
          && sh in c.members && (exists m :: m in c.members[sh] && c.members[sh][m].Submitted?)
          && (forall m :: m in c.members[sh] ==> !c.members[sh][m].Added?))
    && (c.state[sh].Online? <==> sh in c.members && AllReady(c.members[sh]))
    && (c.state[sh].Offline? <==> sh !in c.members)
  }

  lemma StatusFollowsMembers(home: Home, c: Chain, sh: Shard)
    requires Core(home, c, {}) && sh < c.nextShard
    ensures StatusByMembers(c, sh)
  {
    hide Links, Lives, Pools, Homes;
    assert sh in c.state;
    if sh in c.members {
      assert Base(home, c, sh);
      ManyMembers(home, c, sh);
    }
  }

  lemma ManyMembers(home: Home, c: Chain, sh: Shard)
    requires Base(home, c, sh)
    ensures exists m :: m in c.members[sh]
  {
    hide StatusOk;
    assert c.members[sh] != map[];
    var m :| m in c.members[sh].Keys;
  }

  /** What the pallets together promise about the shards of every reachable chain. */
  ghost predicate ShardsAreSound(cfg: Config, c: Chain) {
    && (forall sh :: 0 <= sh < c.nextShard ==> StatusByMembers(c, sh))
    && (forall sh :: 0 <= sh < c.nextShard && sh in c.state && !c.state[sh].Offline? ==> Live(c, sh))
    && (forall sh :: 0 <= sh < c.nextShard && sh in c.state && InDkg(c.state[sh]) ==> OneTimer(cfg, c, sh))
    && (forall b :: TimeoutCountAt(c, b) == |TimeoutsAt(c, b)|)
  }

  /** Exactly one pending timeout, in a block still to come and at most `dkgTimeout` away. */
  ghost predicate OneTimer(cfg: Config, c: Chain, sh: Shard) {
    exists b :: b in c.timeouts && sh in c.timeouts[b] && c.block < b <= c.block + cfg.dkgTimeout
                && forall d :: d in c.timeouts && sh in c.timeouts[d] ==> d == b
  }

  lemma HasOneTimer(cfg: Config, home: Home, c: Chain, sh: Shard)
    requires Inv(cfg, home, c) && sh in c.shardNetwork && sh in c.state && InDkg(c.state[sh])
    ensures OneTimer(cfg, c, sh)
  {
    hide Core, Beats;
    assert HasTimer(c, sh);
    var b :| b in c.timeouts && sh in c.timeouts[b];
    assert c.block < b <= c.block + cfg.dkgTimeout;
  }

  lemma LiveShard(cfg: Config, home: Home, c: Chain, sh: Shard)
    requires Inv(cfg, home, c) && sh in c.state && !c.state[sh].Offline?
    ensures sh in c.shardNetwork && Live(c, sh)
  {
    hide Links, Pools, Homes, Beats, Timers, Base, Live;
  }

  lemma CountsTimers(cfg: Config, home: Home, c: Chain, b: Block)
    requires Inv(cfg, home, c)
    ensures TimeoutCountAt(c, b) == |TimeoutsAt(c, b)|
  {
    hide Core, Beats, HasTimer;
  }

  lemma ShardsSound(cfg: Config, home: Home, c: Chain)
    requires Inv(cfg, home, c)
    ensures ShardsAreSound(cfg, c)
  {
    hide Core, Beats, Timers, Live, OneTimer, StatusByMembers, TimeoutCountAt, TimeoutsAt;
    forall sh | 0 <= sh < c.nextShard ensures StatusByMembers(c, sh) {
      StatusFollowsMembers(home, c, sh);
    }
    forall sh | 0 <= sh < c.nextShard && sh in c.state && !c.state[sh].Offline? ensures Live(c, sh) {
      LiveShard(cfg, home, c, sh);
    }
    forall sh | 0 <= sh < c.nextShard && sh in c.state && InDkg(c.state[sh]) ensures OneTimer(cfg, c, sh) {
      LiveShard(cfg, home, c, sh);
      HasOneTimer(cfg, home, c, sh);
    }
    forall b ensures TimeoutCountAt(c, b) == |TimeoutsAt(c, b)| {
      CountsTimers(cfg, home, c, b);
    }
  }

  lemma ReachableShards(cfg: Config, home: Home, es: seq<Event>)
    requires cfg.Valid() && Run(cfg, home, Genesis(), es)
    ensures ShardsAreSound(cfg, After(cfg, home, Genesis(), es))
  {
    hide Inv, Run, After, ShardsAreSound;
    ReachableInv(cfg, home, es);
    ShardsSound(cfg, home, After(cfg, home, Genesis(), es));
  }

  /** What they promise about members. */
  ghost predicate BooksBalance(c: Chain) {
    && NoDuplicates(c.timedOut)
    && c.heartbeat !! Elements(c.timedOut) && c.online == c.heartbeat + Elements(c.timedOut)
    && (forall n :: n in c.unassigned ==> NoDuplicates(c.unassigned[n]))
    && (forall n, k, m :: n in c.unassigned && k in c.unassigned && m in c.unassigned[n] && m in c.unassigned[k] ==>
          n == k)
    && (forall n, m :: n in c.unassigned && m in c.unassigned[n] ==> m in c.online && m !in c.memberShard)
    && (forall sh, m :: m in c.memberShard && c.memberShard[m] == sh <==> sh in c.members && m in c.members[sh])
  }

  lemma BooksAreBalanced(cfg: Config, home: Home, c: Chain)
    requires Inv(cfg, home, c)
    ensures BooksBalance(c)
  {
    hide Bases, Lives, Homes, Timers;
    forall n | n in c.unassigned ensures Listed(home, c, n, c.unassigned[n]) {}
  }

  lemma ReachableBooks(cfg: Config, home: Home, es: seq<Event>)
    requires cfg.Valid() && Run(cfg, home, Genesis(), es)
    ensures BooksBalance(After(cfg, home, Genesis(), es))
  {
    hide Inv, Run, After, BooksBalance;
    ReachableInv(cfg, home, es);
    BooksAreBalanced(cfg, home, After(cfg, home, Genesis(), es));
  }
}
