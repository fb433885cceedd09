/** No member is lost: whoever is online and stays registered is in a shard or in the pool of its network. */
module LifecycleKeeping {
  import opened Sequences
  import opened LifecycleSpec
  import opened LifecycleInvariant
  import opened LifecycleSteps
  import opened LifecycleElections
  import opened LifecycleRuns
  import opened LifecycleHeartbeats

  ghost predicate Placed(home: Home, c: Chain, m: Account) {
    m in c.memberShard || m in Pool(c, home(m))
  }

  /** The member's shard was taken from it while it was not registered. */
  ghost predicate Dropped(c: Chain, c': Chain, m: Account) {
    m in c.memberShard && m !in c'.memberShard && m !in c.registered
  }

  /** Shards went offline: whoever is still online keeps a place, unless it is dropped. */
  ghost predicate Releases(home: Home, c: Chain, c': Chain, m: Account) {
    && c'.registered == c.registered && (m in c'.online ==> m in c.online)
    && (m in c'.memberShard ==> m in c.memberShard)
    && (m in c'.online ==> (Placed(home, c', m) <==> Placed(home, c, m) && !Dropped(c, c', m)))
  }

  lemma ReleasesTrans(home: Home, c: Chain, c1: Chain, c2: Chain, m: Account)
    requires Releases(home, c, c1, m) && Releases(home, c1, c2, m)
    ensures Releases(home, c, c2, m)
  {}

  lemma ReleasesFrame(home: Home, c: Chain, c': Chain, m: Account)
    requires c'.registered == c.registered && c'.online == c.online && c'.memberShard == c.memberShard
    requires c'.unassigned == c.unassigned
    ensures Releases(home, c, c', m)
  {}

  // -------------------------------------------------------------------- shards offline

  lemma PoolAfterRemoval(c: Chain, shards: set<Shard>, n: Network)
    ensures forall m :: m in Pool(RemoveShards(c, shards), n) <==> m in Pool(c, n) || m in Returning(c, shards, n)
  {
    var list := Pool(c, n) + Listing(Returning(c, shards, n));
    SortCounts(list);
    SameElements(SortDescending(list), list);
    ListingMembers(Returning(c, shards, n));
    hide SortDescending, Listing;
    if n !in NetworksOf(c, shards) {
      NobodyReturns(c, shards, n);
    }
    assert Pool(RemoveShards(c, shards), n) == if n in NetworksOf(c, shards) then SortDescending(list) else Pool(c, n);
    hide Returning, NetworksOf, RemoveShards;
  }

  lemma NobodyReturns(c: Chain, shards: set<Shard>, n: Network)
    requires n !in NetworksOf(c, shards)
    ensures Returning(c, shards, n) == {}
  {}

  lemma RemoveReleases(home: Home, c: Chain, shards: set<Shard>, except: set<Shard>, m: Account)
    requires Core(home, c, except)
    ensures Releases(home, c, RemoveShards(c, shards), m)
  {
    hide Core, RemoveShards, Pool;
    RemovalFields(c, shards);
    PoolAfterRemoval(c, shards, home(m));
    PoolsApart(home, c, except, m);
    if m in c.memberShard {
      ShardIsHome(home, c, except, m);
    }
  }

  lemma RemovalFields(c: Chain, shards: set<Shard>)
    ensures var c' := RemoveShards(c, shards);
            && c'.memberShard == c.memberShard - Released(c, shards) && c'.online == c.online
            && c'.registered == c.registered && c'.network == c.network - (Released(c, shards) - c.registered)
  {
    hide Returning, Released, NetworksOf, Gone, SortDescending;
  }

  lemma ShardIsHome(home: Home, c: Chain, except: set<Shard>, m: Account)
    requires Core(home, c, except) && m in c.memberShard
    ensures c.memberShard[m] in c.shardNetwork && c.shardNetwork[c.memberShard[m]] == home(m)
  {
    hide Homes, Pools, Lives, StatusOk;
    assert Base(home, c, c.memberShard[m]);
  }

  lemma PoolsApart(home: Home, c: Chain, except: set<Shard>, m: Account)
    requires Core(home, c, except)
    ensures m in c.memberShard ==> m !in Pool(c, home(m))
    ensures forall n :: m in Pool(c, n) ==> n == home(m)
  {
    hide Homes, Links, Bases, Lives;
    forall n | m in Pool(c, n) ensures n == home(m) && m !in c.memberShard {
      assert Listed(home, c, n, c.unassigned[n]);
    }
  }

  lemma LoweredReleases(home: Home, c: Chain, ms: set<Account>, n: Network, m: Account)
    ensures Releases(home, c, Lowered(c, ms, n), m)
  {
    hide Touched, Hit;
    WithoutKeeps(Pool(c, n), ms);
  }

  lemma OfflineReleases(home: Home, c: Chain, ms: set<Account>, n: Network, m: Account)
    requires Core(home, c, {}) && ms <= c.online && forall x :: x in ms ==> home(x) == n
    ensures Releases(home, c, MembersOffline(c, ms, n), m)
  {
    hide Core, RemoveShards, Broken, Releases, Touched, Hit;
    var c1 := Lowered(c, ms, n);
    OfflineIsRemoval(c, ms, n);
    LoweredCore(home, c, ms, n);
    LoweredReleases(home, c, ms, n, m);
    RemoveReleases(home, c1, Broken(c, ms), Broken(c, ms), m);
    ReleasesTrans(home, c, c1, MembersOffline(c, ms, n), m);
  }

  lemma {:induction false} OfflineByNetworkReleases(home: Home, c: Chain, ms: seq<Account>,
                                                    network: map<Account, Network>, order: seq<Network>, m: Account,
                                                    lo: nat, hi: nat)
    requires Core(home, c, {}) && Timers(c, lo, hi) && NoDuplicates(order)
    requires forall x :: x in ms && x in network ==> x in c.online && network[x] == home(x)
    ensures Releases(home, c, OfflineByNetwork(c, ms, network, order), m)
  {
    hide Core, Timers, MembersOffline, Releases, NoDuplicates;
    if order == [] {
      ReleasesFrame(home, c, c, m);
    } else {
      var n := |order| - 1;
      NotInPrefix(order, n);
      OfflineByNetworkReleases(home, c, ms, network, order[..n], m, lo, hi);
      OfflineByNetworkKeeps(home, c, ms, network, order[..n], lo, hi);
      var c1 := OfflineByNetwork(c, ms, network, order[..n]);
      OfflineReleases(home, c1, OnNetwork(ms, network, order[n]), order[n], m);
      ReleasesTrans(home, c, c1, OfflineByNetwork(c, ms, network, order), m);
    }
  }

  lemma TimeoutReleases(cfg: Config, home: Home, c: Chain, due: seq<Network>, beating: seq<Account>, m: Account,
                        lo: nat, hi: nat)
    requires Core(home, c, {}) && Beats(c) && Timers(c, lo, hi)
    requires ListsNetworks(due, SplitTimedOut(c.timedOut, c.network, cfg.maxTimeouts).0, c.network)
    ensures Releases(home, c, TimeoutHeartbeats(cfg, c, due, beating), m)
  {
    hide Core, Timers, OfflineByNetwork, SplitTimedOut, Releases;
    var now := SplitTimedOut(c.timedOut, c.network, cfg.maxTimeouts).0;
    HomesOf(home, c);
    forall x | x in now ensures x in c.online && x in c.network {
      SplitWithin(c.timedOut, c.network, cfg.maxTimeouts, x);
    }
    var c1 := OfflineByNetwork(c, now, c.network, due);
    OfflineByNetworkReleases(home, c, now, c.network, due, m, lo, hi);
    ReleasesFrame(home, c1, TimeoutHeartbeats(cfg, c, due, beating), m);
    ReleasesTrans(home, c, c1, TimeoutHeartbeats(cfg, c, due, beating), m);
  }

  lemma DkgReleases(home: Home, c: Chain, b: Block, m: Account)
    requires Core(home, c, {})
    ensures Releases(home, c, TimeoutDkgs(c, b), m)
  {
    hide Core, RemoveShards, DueDkgs, Releases;
    var c1 := RemoveShards(c, DueDkgs(c, b));
    RemoveReleases(home, c, DueDkgs(c, b), {}, m);
    ReleasesFrame(home, c1, TimeoutDkgs(c, b), m);
    ReleasesTrans(home, c, c1, TimeoutDkgs(c, b), m);
  }

  lemma BeforeElectionsReleases(cfg: Config, home: Home, c: Chain, e: Event, m: Account)
    requires cfg.Valid() && Inv(cfg, home, c) && Enabled(cfg, c, e) && e.NewBlock?
    ensures Releases(home, c, BeforeElections(cfg, c, e.due, e.beating), m)
  {
    hide Core, Beats, Timers, TimeoutDkgs, TimeoutHeartbeats, SplitTimedOut, ListsNetworks, Releases;
    var c0, hi := Advance(c), c.block + cfg.dkgTimeout;
    CoreFrame(home, c, c0);
    BeatsFrame(c, c0);
    TimersFrame(c, c0, c.block + 1, hi);
    ReleasesFrame(home, c, c0, m);
    MembersHookKeeps(cfg, home, c0, e.due, e.beating, c0.block, hi);
    var c1 := MembersHook(cfg, c0, e.due, e.beating);
    if c0.block % cfg.heartbeatTimeout == 0 {
      TimeoutReleases(cfg, home, c0, e.due, e.beating, m, c0.block, hi);
      ReleasesTrans(home, c, c0, c1, m);
    }
    DkgReleases(home, c1, c1.block, m);
    ReleasesTrans(home, c, c1, TimeoutDkgs(c1, c1.block), m);
  }

  // -------------------------------------------------------------------------- elections

  /** Elections move members from pools to shards: nobody gains or loses a place, or leaves a shard. */
  ghost predicate Elects(home: Home, c: Chain, c': Chain, m: Account) {
    && c'.registered == c.registered && c'.online == c.online
    && (m in c.memberShard ==> m in c'.memberShard) && (Placed(home, c', m) <==> Placed(home, c, m))
  }

  lemma ElectsTrans(home: Home, c: Chain, c1: Chain, c2: Chain, m: Account)
    requires Elects(home, c, c1, m) && Elects(home, c1, c2, m)
    ensures Elects(home, c, c2, m)
  {
    hide Placed;
  }

  /** Everybody in the list gets a shard or comes back, and nobody else gets one. */
  lemma {:induction false} CreateShardsSplit(cfg: Config, c: Chain, n: Network, ms: seq<Account>, size: nat, t: nat)
    requires size > 0 && |ms| % size == 0
    ensures var (c', left, k) := CreateShards(cfg, c, n, ms, size, t);
            && (forall m :: m in c'.memberShard || m in left <==> m in c.memberShard || m in ms)
            && (forall m :: m in c.memberShard ==> m in c'.memberShard) && (forall m :: m in left ==> m in ms)
            && c'.registered == c.registered && c'.online == c.online
    decreases |ms|
  {
    hide CreateShard, Adds;
    if ms != [] {
      ChunkFits(|ms|, size);
      var r := CreateShard(cfg, c, n, ms[..size], t);
      if r.Some? {
        CreateAdds(cfg, c, n, ms[..size], t, r.value);
        AddsMembers(cfg, c, n, ms[..size], t, r.value);
        CreateShardsSplit(cfg, r.value, n, ms[size..], size, t);
        assert ms == ms[..size] + ms[size..];
        assert forall m :: m in ms <==> m in ms[..size] || m in ms[size..];
      }
    }
  }

  lemma AddsMembers(cfg: Config, c: Chain, n: Network, ms: seq<Account>, t: nat, c': Chain)
    requires Adds(cfg, c, n, ms, t, c')
    ensures forall m :: m in c'.memberShard <==> m in c.memberShard || m in ms
    ensures c'.registered == c.registered && c'.online == c.online
  {
    hide TimeoutsAt, TimeoutCountAt, MembersOf, AllAdded;
  }

  /** Part of the pool of network n went to shards, and what did not came back. */
  lemma PartPlaces(home: Home, c: Chain, c': Chain, n: Network, k: nat, back: seq<Account>, m: Account)
    requires k <= |Pool(c, n)| && c'.registered == c.registered && c'.online == c.online
    requires c'.unassigned == c.unassigned[n := Pool(c, n)[k..] + back]
    requires m in c'.memberShard || m in back <==> m in c.memberShard || m in Pool(c, n)[..k]
    requires (m in c.memberShard ==> m in c'.memberShard) && (m in back ==> m in Pool(c, n)[..k])
    requires forall x :: m in Pool(c, x) ==> x == home(m)
    ensures Elects(home, c, c', m)
  {
    assert Pool(c, n) == Pool(c, n)[..k] + Pool(c, n)[k..];
  }

  lemma TryElectPlaces(cfg: Config, home: Home, c: Chain, ns: Networks, n: Network, room: nat, m: Account)
    requires ns.Size(n) > 0 && Core(home, c, {})
    ensures Elects(home, c, TryElect(cfg, c, ns, n, room).0, m)
  {
    hide Core, CreateShards, Elected, Elects;
    PoolsApart(home, c, {}, m);
    var pool, k := Pool(c, n), Elected(|Pool(c, n)|, ns.Size(n), room);
    CreateShardsSplit(cfg, c, n, pool[..k], ns.Size(n), ns.Threshold(n));
    CreateShardsIgnorePools(cfg, c, c.unassigned, n, pool[..k], ns.Size(n), ns.Threshold(n));
    var back := CreateShards(cfg, c, n, pool[..k], ns.Size(n), ns.Threshold(n)).1;
    assert c.(unassigned := c.unassigned) == c;
    PartPlaces(home, c, TryElect(cfg, c, ns, n, room).0, n, k, back, m);
  }

  lemma {:induction false} ElectFromPlaces(cfg: Config, home: Home, c: Chain, ns: Networks, start: nat, counter: nat,
                                           num: nat, lo: nat, hi: nat, m: Account)
    requires ns.Valid() && num <= cfg.maxElections && (start < |ns.list| || counter == start)
    requires Core(home, c, {}) && Timers(c, lo, hi) && lo <= c.block + cfg.dkgTimeout <= hi
    ensures Elects(home, c, ElectFrom(cfg, c, ns, start, counter, num).0, m)
    decreases ToGo(counter, start, |ns.list|)
  {
    hide Core, Timers, TryElect, Placed;
    if num < cfg.maxElections && counter < |ns.list| {
      var n := ns.list[counter];
      TryElectPlaces(cfg, home, c, ns, n, cfg.maxElections - num, m);
      TryElectKeeps(cfg, home, c, ns, n, cfg.maxElections - num, lo, hi);
      ElectedWithin(cfg, c, ns, n, cfg.maxElections - num);
      var next := if counter + 1 == |ns.list| then 0 else counter + 1;
      if next != start {
        var (c1, k) := TryElect(cfg, c, ns, n, cfg.maxElections - num);
        ElectFromPlaces(cfg, home, c1, ns, start, next, num + k, lo, hi, m);
        ElectsTrans(home, c, c1, ElectFrom(cfg, c, ns, start, counter, num).0, m);
      }
    }
  }

  lemma HookPlaces(cfg: Config, home: Home, c: Chain, ns: Networks, lo: nat, hi: nat, m: Account)
    requires ns.Valid() && Core(home, c, {}) && Timers(c, lo, hi) && lo <= c.block + cfg.dkgTimeout <= hi
    ensures Elects(home, c, ElectionsHook(cfg, c, ns), m)
  {
    hide Core, Timers, ElectFrom;
    ElectFromPlaces(cfg, home, c, ns, c.netCounter, c.netCounter, 0, lo, hi, m);
  }

  // --------------------------------------------------------------------------- one step

  /** What a step does to the place of a member that is online after it. */
  ghost predicate KeepsPlace(home: Home, c: Chain, c': Chain, m: Account) {
    m in c'.online ==> (Placed(home, c', m) <==> (m !in c.online || Placed(home, c, m)) && !Dropped(c, c', m))
  }

  lemma NewBlockPlaces(cfg: Config, home: Home, c: Chain, e: Event, m: Account)
    requires cfg.Valid() && Inv(cfg, home, c) && Enabled(cfg, c, e) && e.NewBlock?
    ensures KeepsPlace(home, c, Next(cfg, home, c, e), m)
  {
    hide Core, Beats, Timers, BeforeElections, ElectionsHook, TimeoutCountAt, ListsNetworks, SplitTimedOut;
    BeforeElectionsReleases(cfg, home, c, e, m);
    BeforeElectionsKeeps(cfg, home, c, e);
    var c1 := BeforeElections(cfg, c, e.due, e.beating);
    HookPlaces(cfg, home, c1, e.networks, c1.block + 1, c1.block + cfg.dkgTimeout, m);
    hide Pool;
  }

  lemma ShardOnlinePlaces(c: Chain, x: Account)
    ensures var c' := ShardMemberOnline(c, x);
            c'.memberShard == c.memberShard && c'.unassigned == c.unassigned && c'.online == c.online
  {}

  lemma OnlinePlaces(home: Home, c: Chain, x: Account, n: Network, m: Account)
    requires x !in c.online && n == home(x)
    ensures KeepsPlace(home, c, MemberOnline(c, x, n), m)
  {
    hide ShardMemberOnline;
    var c1 := c.(online := c.online + {x});
    var list := Pool(c1, n) + [x];
    var c2 := if x in c1.memberShard then c1 else c1.(unassigned := c1.unassigned[n := SortDescending(list)]);
    SortCounts(list);
    SameElements(SortDescending(list), list);
    hide SortDescending;
    ShardOnlinePlaces(c2, x);
  }

  lemma SamePlaces(home: Home, c: Chain, c': Chain, m: Account)
    requires c'.memberShard == c.memberShard && c'.unassigned == c.unassigned && c'.online == c.online
    ensures KeepsPlace(home, c, c', m)
  {}

  lemma HeartbeatPlaces(cfg: Config, home: Home, c: Chain, x: Account, m: Account)
    requires Inv(cfg, home, c) && Heartbeat(c, x).Some?
    ensures KeepsPlace(home, c, Heartbeat(c, x).value, m)
  {
    hide Core, Beats, Timers, MemberOnline, Without, KeepsPlace;
    var c' := Heartbeat(c, x).value;
    HomesOf(home, c);
    if x in c.online {
      SamePlaces(home, c, c', m);
    } else {
      OnlinePlaces(home, c, x, c.network[x], m);
      PlacesFrame(home, c, MemberOnline(c, x, c.network[x]), c', m);
    }
  }

  lemma PlacesFrame(home: Home, c: Chain, c1: Chain, c2: Chain, m: Account)
    requires KeepsPlace(home, c, c1, m)
    requires c2.memberShard == c1.memberShard && c2.unassigned == c1.unassigned && c2.online == c1.online
    ensures KeepsPlace(home, c, c2, m)
  {}

  lemma ReleasesKeeps(home: Home, c: Chain, c': Chain, m: Account)
    requires Releases(home, c, c', m)
    ensures KeepsPlace(home, c, c', m)
  {
    hide Pool;
  }

  lemma CallsPlaces(home: Home, c: Chain, x: Account, n: Network, sh: Shard, m: Account)
    ensures KeepsPlace(home, c, Register(c, x, n), m)
    ensures KeepsPlace(home, c, Accepted(Unregister(c, x), c), m)
    ensures KeepsPlace(home, c, Accepted(MarkReady(c, x, sh), c), m)
  {
    hide KeepsPlace, MarkReady, Unregister;
    UnregisterFields(c, x);
    ReadyFields(c, x, sh);
    SamePlaces(home, c, Register(c, x, n), m);
    SamePlaces(home, c, Accepted(Unregister(c, x), c), m);
    SamePlaces(home, c, Accepted(MarkReady(c, x, sh), c), m);
  }

  lemma UnregisterFields(c: Chain, x: Account)
    ensures var c' := Accepted(Unregister(c, x), c);
            c'.memberShard == c.memberShard && c'.unassigned == c.unassigned && c'.online == c.online
  {}

  lemma ReadyFields(c: Chain, x: Account, sh: Shard)
    ensures var c' := Accepted(MarkReady(c, x, sh), c);
            && c'.memberShard == c.memberShard && c'.unassigned == c.unassigned && c'.online == c.online
            && c'.registered == c.registered && c'.network == c.network
  {}

  lemma CommitPlaces(home: Home, c: Chain, x: Account, sh: Shard, commitment: Polynomials.Commitment, genuine: bool,
                     order: seq<Account>, m: Account)
    requires Lists(order, MembersOf(c, sh))
    ensures KeepsPlace(home, c, Accepted(Commit(c, x, sh, commitment, genuine, order), c), m)
  {
    hide KeepsPlace;
    SamePlaces(home, c, Accepted(Commit(c, x, sh, commitment, genuine, order), c), m);
  }

  /** In every step a member that is online keeps its place, or gets one, exactly unless it is dropped. */
  lemma StepPlaces(cfg: Config, home: Home, c: Chain, e: Event, m: Account)
    requires cfg.Valid() && Inv(cfg, home, c) && Enabled(cfg, c, e)
    ensures KeepsPlace(home, c, Next(cfg, home, c, e), m)
  {
    hide Core, Beats, Timers, Register, Unregister, Heartbeat, Commit, MarkReady, RemoveShards, ElectionsHook;
    hide BeforeElections, Lists, KeepsPlace, ListsNetworks, SplitTimedOut, Releases;
    match e
    case RegisterMember(x) => CallsPlaces(home, c, x, home(x), 0, m);
    case UnregisterMember(x) => CallsPlaces(home, c, x, home(x), 0, m);
    case SendHeartbeat(x) =>
      SamePlaces(home, c, c, m);
      if Heartbeat(c, x).Some? { HeartbeatPlaces(cfg, home, c, x, m); }
    case SubmitCommitment(x, sh, commitment, genuine, order) =>
      CommitPlaces(home, c, x, sh, commitment, genuine, order, m);
    case ReportReady(x, sh) => CallsPlaces(home, c, x, home(x), sh, m);
    case ForceOffline(sh) =>
      RemoveReleases(home, c, {sh}, {}, m);
      ReleasesKeeps(home, c, RemoveShards(c, {sh}), m);
    case NewBlock(_, _, _) => NewBlockPlaces(cfg, home, c, e, m);
  }

  // -------------------------------------------------------------------- the network books

  /** Registered members have a network, and only they and shard members have one. */
  ghost predicate NetworkBooks(c: Chain) {
    c.registered <= c.network.Keys && forall m :: m in c.network ==> m in c.registered || m in c.memberShard
  }

  /** Members leave shards, and those that are not registered then lose their network, and nobody else does. */
  ghost predicate Forgets(c: Chain, c': Chain) {
    && c'.registered == c.registered && (forall m :: m in c'.memberShard ==> m in c.memberShard)
    && (forall m :: m in c'.network <==>
          m in c.network && (m in c.registered || m !in c.memberShard || m in c'.memberShard))
  }

  lemma ForgetsBooks(c: Chain, c': Chain)
    requires NetworkBooks(c) && Forgets(c, c')
    ensures NetworkBooks(c')
  {}

  lemma ForgetsTrans(c: Chain, c1: Chain, c2: Chain)
    requires Forgets(c, c1) && Forgets(c1, c2)
    ensures Forgets(c, c2)
  {}

  lemma ForgetsFrame(c: Chain, c': Chain)
    requires c'.registered == c.registered && c'.memberShard == c.memberShard && c'.network == c.network
    ensures Forgets(c, c')
  {}

  lemma RemoveForgets(c: Chain, shards: set<Shard>)
    ensures Forgets(c, RemoveShards(c, shards))
  {
    RemovalFields(c, shards);
    hide RemoveShards, Gone;
  }

  lemma OfflineForgets(c: Chain, ms: set<Account>, n: Network)
    ensures Forgets(c, MembersOffline(c, ms, n))
  {
    hide RemoveShards, Broken, Forgets, Touched, Hit;
    OfflineIsRemoval(c, ms, n);
    ForgetsFrame(c, Lowered(c, ms, n));
    RemoveForgets(Lowered(c, ms, n), Broken(c, ms));
    ForgetsTrans(c, Lowered(c, ms, n), MembersOffline(c, ms, n));
  }

  lemma {:induction false} OfflineByNetworkForgets(c: Chain, ms: seq<Account>, network: map<Account, Network>,
                                                   order: seq<Network>)
    ensures Forgets(c, OfflineByNetwork(c, ms, network, order))
  {
    hide MembersOffline, Forgets;
    if order == [] {
      ForgetsFrame(c, c);
    } else {
      var n := |order| - 1;
      OfflineByNetworkForgets(c, ms, network, order[..n]);
      var c1 := OfflineByNetwork(c, ms, network, order[..n]);
      OfflineForgets(c1, OnNetwork(ms, network, order[n]), order[n]);
      ForgetsTrans(c, c1, OfflineByNetwork(c, ms, network, order));
    }
  }

  lemma BeforeElectionsForgets(cfg: Config, c: Chain, due: seq<Network>, beating: seq<Account>)
    requires cfg.Valid()
    ensures Forgets(c, BeforeElections(cfg, c, due, beating))
  {
    hide OfflineByNetwork, SplitTimedOut, RemoveShards, DueDkgs, Forgets;
    var c0 := Advance(c);
    var c1 := MembersHook(cfg, c0, due, beating);
    ForgetsFrame(c, c0);
    ForgetsFrame(c0, c0);
    if c0.block % cfg.heartbeatTimeout == 0 {
      var now := SplitTimedOut(c0.timedOut, c0.network, cfg.maxTimeouts).0;
      OfflineByNetworkForgets(c0, now, c0.network, due);
      ForgetsFrame(OfflineByNetwork(c0, now, c0.network, due), c1);
      ForgetsTrans(c0, OfflineByNetwork(c0, now, c0.network, due), c1);
    }
    ForgetsTrans(c, c0, c1);
    var c2 := RemoveShards(c1, DueDkgs(c1, c1.block));
    RemoveForgets(c1, DueDkgs(c1, c1.block));
    ForgetsTrans(c, c1, c2);
    ForgetsFrame(c2, TimeoutDkgs(c1, c1.block));
    ForgetsTrans(c, c2, TimeoutDkgs(c1, c1.block));
  }

  lemma HookBooks(cfg: Config, home: Home, c: Chain, ns: Networks, lo: nat, hi: nat)
    requires ns.Valid() && Core(home, c, {}) && Timers(c, lo, hi) && lo <= c.block + cfg.dkgTimeout <= hi
    requires TimeoutCountAt(c, c.block + cfg.dkgTimeout) == 0 && NetworkBooks(c)
    ensures NetworkBooks(ElectionsHook(cfg, c, ns))
  {
    hide Core, Timers, ElectFrom, TimeoutCountAt, Placed;
    ElectFromKeeps(cfg, home, c, ns, c.netCounter, c.netCounter, 0, lo, hi);
    forall m | m in c.memberShard ensures m in ElectionsHook(cfg, c, ns).memberShard {
      HookPlaces(cfg, home, c, ns, lo, hi, m);
    }
  }

  lemma NewBlockBooks(cfg: Config, home: Home, c: Chain, e: Event)
    requires cfg.Valid() && Inv(cfg, home, c) && Enabled(cfg, c, e) && e.NewBlock? && NetworkBooks(c)
    ensures NetworkBooks(Next(cfg, home, c, e))
  {
    hide Core, Beats, Timers, BeforeElections, ElectionsHook, TimeoutCountAt, ListsNetworks, SplitTimedOut;
    hide NetworkBooks, Forgets;
    var c1 := BeforeElections(cfg, c, e.due, e.beating);
    BeforeElectionsForgets(cfg, c, e.due, e.beating);
    ForgetsBooks(c, c1);
    BeforeElectionsKeeps(cfg, home, c, e);
    HookBooks(cfg, home, c1, e.networks, c1.block + 1, c1.block + cfg.dkgTimeout);
  }

  lemma HeartbeatBooks(c: Chain, m: Account)
    requires Heartbeat(c, m).Some?
    ensures Forgets(c, Heartbeat(c, m).value)
  {
    hide MemberOnline, Without, Forgets;
    OnlineFields(c, m, c.network[m]);
    ForgetsFrame(c, Heartbeat(c, m).value);
  }

  lemma OnlineFields(c: Chain, m: Account, n: Network)
    ensures var c' := MemberOnline(c, m, n);
            c'.registered == c.registered && c'.memberShard == c.memberShard && c'.network == c.network
  {
    hide SortDescending;
    var c1 := c.(online := c.online + {m});
    ShardOnlineFields(c1, m);
    ShardOnlineFields(c1.(unassigned := c1.unassigned[n := SortDescending(Pool(c1, n) + [m])]), m);
    hide ShardMemberOnline;
  }

  lemma ShardOnlineFields(c: Chain, m: Account)
    ensures var c' := ShardMemberOnline(c, m);
            c'.registered == c.registered && c'.memberShard == c.memberShard && c'.network == c.network
  {}

  lemma RegistrationBooks(c: Chain, m: Account, n: Network)
    requires NetworkBooks(c)
    ensures NetworkBooks(Register(c, m, n)) && NetworkBooks(Accepted(Unregister(c, m), c))
  {
    RegisterBooks(c, m, n);
    UnregisterBooks(c, m);
  }

  lemma RegisterBooks(c: Chain, m: Account, n: Network)
    requires NetworkBooks(c)
    ensures NetworkBooks(Register(c, m, n))
  {}

  lemma UnregisterBooks(c: Chain, m: Account)
    requires NetworkBooks(c)
    ensures NetworkBooks(Accepted(Unregister(c, m), c))
  {}

  lemma CommitBooks(c: Chain, m: Account, sh: Shard, commitment: Polynomials.Commitment, genuine: bool,
                    order: seq<Account>)
    requires Lists(order, MembersOf(c, sh))
    ensures Forgets(c, Accepted(Commit(c, m, sh, commitment, genuine, order), c))
  {
    hide Forgets;
    ForgetsFrame(c, Accepted(Commit(c, m, sh, commitment, genuine, order), c));
  }

  lemma StepBooks(cfg: Config, home: Home, c: Chain, e: Event)
    requires cfg.Valid() && Inv(cfg, home, c) && Enabled(cfg, c, e) && NetworkBooks(c)
    ensures NetworkBooks(Next(cfg, home, c, e))
  {
    hide Core, Beats, Timers, Register, Unregister, Heartbeat, Commit, MarkReady, RemoveShards, ElectionsHook;
    hide BeforeElections, Lists, NetworkBooks, ListsNetworks, SplitTimedOut, Forgets;
    match e
    case RegisterMember(m) => RegistrationBooks(c, m, home(m));
    case UnregisterMember(m) => RegistrationBooks(c, m, home(m));
    case SendHeartbeat(m) =>
      if Heartbeat(c, m).Some? {
        HeartbeatBooks(c, m);
        ForgetsBooks(c, Heartbeat(c, m).value);
      }
    case SubmitCommitment(m, sh, commitment, genuine, order) =>
      CommitBooks(c, m, sh, commitment, genuine, order);
      ForgetsBooks(c, Next(cfg, home, c, e));
    case ReportReady(m, sh) =>
      ReadyFields(c, m, sh);
      ForgetsFrame(c, Next(cfg, home, c, e));
      ForgetsBooks(c, Next(cfg, home, c, e));
    case ForceOffline(sh) =>
      RemoveForgets(c, {sh});
      ForgetsBooks(c, RemoveShards(c, {sh}));
    case NewBlock(_, _, _) => NewBlockBooks(cfg, home, c, e);
  }

  /** A shard member loses its network exactly if it is not registered and its shard is taken from it. */
  ghost predicate NetworkStays(c: Chain, c': Chain, m: Account) {
    m in c.network && m in c.memberShard ==> (m in c'.network <==> m in c.registered || m in c'.memberShard)
  }

  lemma ForgetsStays(c: Chain, c': Chain, m: Account)
    requires Forgets(c, c')
    ensures NetworkStays(c, c', m)
  {}

  lemma RegistrationStays(c: Chain, x: Account, n: Network, m: Account)
    ensures NetworkStays(c, Register(c, x, n), m) && NetworkStays(c, Accepted(Unregister(c, x), c), m)
  {
    hide Unregister;
    UnregisterNetwork(c, x);
  }

  lemma UnregisterNetwork(c: Chain, x: Account)
    ensures var c' := Accepted(Unregister(c, x), c);
            && c'.memberShard == c.memberShard
            && (forall m :: m in c'.network <==> m in c.network && (m != x || x in c.memberShard || x !in c.registered))
  {
    if Unregister(c, x).Some? {
      UnregisteredIs(c, x);
      hide Unregister;
    }
  }

  lemma UnregisteredIs(c: Chain, x: Account)
    requires Unregister(c, x).Some?
    ensures var c' := Unregister(c, x).value;
            && x in c.registered && c'.memberShard == c.memberShard
            && c'.network == (if x in c.memberShard then c.network else c.network - {x})
  {}

  lemma OnlyOnlinePooled(home: Home, c: Chain, m: Account)
    requires Core(home, c, {}) && m !in c.online && m !in c.memberShard
    ensures !Placed(home, c, m)
  {
    hide Homes, Links, Bases, Lives;
  }

  lemma HookStays(cfg: Config, home: Home, c: Chain, c1: Chain, ns: Networks, lo: nat, hi: nat, m: Account)
    requires ns.Valid() && Core(home, c1, {}) && Timers(c1, lo, hi) && lo <= c1.block + cfg.dkgTimeout <= hi
    requires TimeoutCountAt(c1, c1.block + cfg.dkgTimeout) == 0
    requires Forgets(c, c1) && Releases(home, c, c1, m)
    ensures NetworkStays(c, ElectionsHook(cfg, c1, ns), m)
  {
    hide Core, Timers, ElectFrom, TimeoutCountAt, Pool;
    ElectFromKeeps(cfg, home, c1, ns, c1.netCounter, c1.netCounter, 0, lo, hi);
    HookPlaces(cfg, home, c1, ns, lo, hi, m);
    if m !in c1.online && m !in c1.memberShard {
      OnlyOnlinePooled(home, c1, m);
    }
  }

  lemma NewBlockStays(cfg: Config, home: Home, c: Chain, e: Event, m: Account)
    requires cfg.Valid() && Inv(cfg, home, c) && Enabled(cfg, c, e) && e.NewBlock?
    ensures NetworkStays(c, Next(cfg, home, c, e), m)
  {
    hide Core, Beats, Timers, BeforeElections, ElectionsHook, TimeoutCountAt, ListsNetworks, SplitTimedOut;
    hide Forgets, Releases, NetworkStays;
    var c1 := BeforeElections(cfg, c, e.due, e.beating);
    BeforeElectionsForgets(cfg, c, e.due, e.beating);
    BeforeElectionsReleases(cfg, home, c, e, m);
    BeforeElectionsKeeps(cfg, home, c, e);
    HookStays(cfg, home, c, c1, e.networks, c1.block + 1, c1.block + cfg.dkgTimeout, m);
  }

  lemma StepNetworks(cfg: Config, home: Home, c: Chain, e: Event, m: Account)
    requires cfg.Valid() && Inv(cfg, home, c) && Enabled(cfg, c, e)
    ensures NetworkStays(c, Next(cfg, home, c, e), m)
  {
    hide Core, Beats, Timers, Register, Unregister, Heartbeat, Commit, MarkReady, RemoveShards, ElectionsHook;
    hide BeforeElections, Lists, NetworkStays, ListsNetworks, SplitTimedOut, Forgets;
    var c' := Next(cfg, home, c, e);
    ForgetsFrame(c, c);
    ForgetsStays(c, c, m);
    match e
    case RegisterMember(x) => RegistrationStays(c, x, home(x), m);
    case UnregisterMember(x) => RegistrationStays(c, x, home(x), m);
    case SendHeartbeat(x) =>
      if Heartbeat(c, x).Some? {
        HeartbeatBooks(c, x);
        ForgetsStays(c, c', m);
      }
    case SubmitCommitment(x, sh, commitment, genuine, order) =>
      CommitBooks(c, x, sh, commitment, genuine, order);
      ForgetsStays(c, c', m);
    case ReportReady(x, sh) =>
      ReadyFields(c, x, sh);
      ForgetsFrame(c, c');
      ForgetsStays(c, c', m);
    case ForceOffline(sh) =>
      RemoveForgets(c, {sh});
      ForgetsStays(c, c', m);
    case NewBlock(_, _, _) => NewBlockStays(cfg, home, c, e, m);
  }

  lemma {:induction false} RunBooks(cfg: Config, home: Home, c: Chain, es: seq<Event>)
    requires cfg.Valid() && Inv(cfg, home, c) && Run(cfg, home, c, es) && NetworkBooks(c)
    ensures NetworkBooks(After(cfg, home, c, es))
    decreases |es|
  {
    hide Inv, Next, Enabled, NetworkBooks;
    if es != [] {
      StepKeeps(cfg, home, c, es[0]);
      StepBooks(cfg, home, c, es[0]);
      RunBooks(cfg, home, Next(cfg, home, c, es[0]), es[1..]);
    }
  }

  /** In every reachable chain registered members have a network, and only they and shard members have one. */
  lemma ReachableNetworks(cfg: Config, home: Home, es: seq<Event>)
    requires cfg.Valid() && Run(cfg, home, Genesis(), es)
    ensures NetworkBooks(After(cfg, home, Genesis(), es))
  {
    assert NetworkBooks(Genesis());
    hide Inv, Run, After, NetworkBooks;
    GenesisInv(cfg, home);
    RunBooks(cfg, home, Genesis(), es);
  }

  // ------------------------------------------------------------------------ whole runs

  /** An online member has a place and, like every member with a network, is registered. */
  ghost predicate Cared(home: Home, c: Chain, m: Account) {
    (m in c.online ==> Placed(home, c, m)) && (m in c.online || m in c.network ==> m in c.registered)
  }

  /** Nobody is unregistered, and nobody gets a network. */
  ghost predicate KeepsNames(c: Chain, c': Chain, m: Account) {
    (m in c.registered ==> m in c'.registered) && (m in c'.network ==> m in c.network)
  }

  lemma ForgetsNames(c: Chain, c': Chain, m: Account)
    requires Forgets(c, c')
    ensures KeepsNames(c, c', m)
  {}

  lemma UnregisterNames(c: Chain, x: Account, m: Account)
    requires x != m
    ensures KeepsNames(c, Accepted(Unregister(c, x), c), m)
  {}

  lemma NewBlockNames(cfg: Config, home: Home, c: Chain, e: Event, m: Account)
    requires cfg.Valid() && Inv(cfg, home, c) && Enabled(cfg, c, e) && e.NewBlock?
    ensures KeepsNames(c, Next(cfg, home, c, e), m)
  {
    hide Core, Beats, Timers, BeforeElections, ElectFrom, TimeoutCountAt, ListsNetworks, SplitTimedOut, Forgets;
    var c1 := BeforeElections(cfg, c, e.due, e.beating);
    BeforeElectionsForgets(cfg, c, e.due, e.beating);
    ForgetsNames(c, c1, m);
    BeforeElectionsKeeps(cfg, home, c, e);
    ElectFromKeeps(cfg, home, c1, e.networks, c1.netCounter, c1.netCounter, 0, c1.block + 1, c1.block + cfg.dkgTimeout);
  }

  lemma StaysRegistered(cfg: Config, home: Home, c: Chain, e: Event, m: Account)
    requires cfg.Valid() && Inv(cfg, home, c) && Enabled(cfg, c, e) && e != UnregisterMember(m)
    ensures KeepsNames(c, Next(cfg, home, c, e), m) || m in Next(cfg, home, c, e).registered
  {
    hide Core, Beats, Timers, Heartbeat, Commit, MarkReady, RemoveShards, ElectionsHook, BeforeElections, Lists;
    hide ListsNetworks, SplitTimedOut, Unregister, Forgets;
    match e
    case RegisterMember(x) =>
    case UnregisterMember(x) => UnregisterNames(c, x, m);
    case SendHeartbeat(x) =>
      if Heartbeat(c, x).Some? {
        HeartbeatBooks(c, x);
        ForgetsNames(c, Heartbeat(c, x).value, m);
      }
    case SubmitCommitment(x, sh, commitment, genuine, order) =>
      CommitBooks(c, x, sh, commitment, genuine, order);
      ForgetsNames(c, Next(cfg, home, c, e), m);
    case ReportReady(x, sh) => ReadyFields(c, x, sh);
    case ForceOffline(sh) =>
      RemoveForgets(c, {sh});
      ForgetsNames(c, RemoveShards(c, {sh}), m);
    case NewBlock(_, _, _) => NewBlockNames(cfg, home, c, e, m);
  }

  lemma StepCared(cfg: Config, home: Home, c: Chain, e: Event, m: Account)
    requires cfg.Valid() && Inv(cfg, home, c) && Enabled(cfg, c, e) && Cared(home, c, m) && e != UnregisterMember(m)
    ensures Cared(home, Next(cfg, home, c, e), m)
  {
    hide Core, Beats, Timers, Next, Enabled, Placed, IsDue, BeatMoves;
    StaysRegistered(cfg, home, c, e, m);
    StepMoves(cfg, home, c, e, m);
    StepPlaces(cfg, home, c, e, m);
  }

  lemma {:induction false} RunCared(cfg: Config, home: Home, c: Chain, es: seq<Event>, m: Account)
    requires cfg.Valid() && Inv(cfg, home, c) && Run(cfg, home, c, es) && Cared(home, c, m)
    requires UnregisterMember(m) !in es
    ensures Cared(home, After(cfg, home, c, es), m)
    decreases |es|
  {
    hide Inv, Next, Enabled, Cared;
    if es != [] {
      StepKeeps(cfg, home, c, es[0]);
      StepCared(cfg, home, c, es[0], m);
      RunCared(cfg, home, Next(cfg, home, c, es[0]), es[1..], m);
    }
  }

  /** A member that is never unregistered is, whenever it is online, in one shard or once in its network's pool. */
  lemma MembersAreKept(cfg: Config, home: Home, es: seq<Event>, m: Account)
    requires cfg.Valid() && Run(cfg, home, Genesis(), es) && UnregisterMember(m) !in es
    ensures var c := After(cfg, home, Genesis(), es);
            m in c.online ==>
              && (m in c.memberShard <==> m !in Pool(c, home(m)))
              && multiset(Pool(c, home(m)))[m] <= 1 && (forall n :: m in Pool(c, n) ==> n == home(m))
  {
    assert Cared(home, Genesis(), m);
    hide Inv, Run, After, Cared;
    GenesisInv(cfg, home);
    RunCared(cfg, home, Genesis(), es, m);
    ReachableInv(cfg, home, es);
    if m in After(cfg, home, Genesis(), es).online {
      CaredOnce(cfg, home, After(cfg, home, Genesis(), es), m);
    }
  }

  lemma CaredOnce(cfg: Config, home: Home, c: Chain, m: Account)
    requires Inv(cfg, home, c) && Cared(home, c, m) && m in c.online
    ensures m in c.memberShard <==> m !in Pool(c, home(m))
    ensures multiset(Pool(c, home(m)))[m] <= 1 && forall n :: m in Pool(c, n) ==> n == home(m)
  {
    hide Homes, Links, Bases, Lives, Beats, Timers;
    PoolsApart(home, c, {}, m);
    if home(m) in c.unassigned {
      assert Listed(home, c, home(m), c.unassigned[home(m)]);
    }
  }
}
