/** Exactly when a shard goes offline. */
module LifecycleFalls {
  import opened FiniteSets
  import opened Sequences
  import opened LifecycleSpec
  import opened LifecycleInvariant
  import opened LifecycleSteps
  import opened LifecycleRuns
  import opened LifecycleHeartbeats
  import opened LifecycleHistory

  /** The hook of the next block takes the member offline. */
  ghost predicate Leaves(cfg: Config, c: Chain, m: Account)
    requires cfg.Valid()
  {
    (c.block + 1) % cfg.heartbeatTimeout == 0 && IsDue(cfg, c, m)
  }

  ghost function Remaining(cfg: Config, c: Chain, sh: Shard): (s: set<Account>)
    requires cfg.Valid() && sh in c.members
  {
    set m | m in c.members[sh] && m in c.online && !Leaves(cfg, c, m)
  }

  /** A member of a shard in key generation leaves, or fewer than the threshold of an Online one remain. */
  ghost predicate LosesMembers(cfg: Config, c: Chain, sh: Shard)
    requires cfg.Valid() && sh in c.state && sh in c.members && sh in c.threshold
  {
    if InDkg(c.state[sh]) then exists m :: m in c.members[sh] && Leaves(cfg, c, m)
    else |Remaining(cfg, c, sh)| < c.threshold[sh]
  }

  /**
    A shard is taken offline by force, in key generation when a member leaves or the time is up, and after it
    when fewer members than its threshold remain online.
   */
  ghost predicate MustFall(cfg: Config, c: Chain, e: Event, sh: Shard)
    requires cfg.Valid() && sh in c.state && sh in c.members && sh in c.threshold
  {
    || e == ForceOffline(sh)
    || (e.NewBlock? && (LosesMembers(cfg, c, sh) || (InDkg(c.state[sh]) && sh in TimeoutsAt(c, c.block + 1))))
  }

  // ---------------------------------------------------------------------- heartbeats

  /** The shard is there, with the same members, threshold and state. */
  ghost predicate Stands(c: Chain, c': Chain, sh: Shard) {
    && sh in c.state && sh in c.members && sh in c.threshold && sh in c.shardNetwork
    && sh in c'.state && sh in c'.members && sh in c'.threshold && sh in c'.shardNetwork
    && c'.state[sh] == c.state[sh] && c'.members[sh] == c.members[sh] && c'.threshold[sh] == c.threshold[sh]
    && c'.shardNetwork[sh] == c.shardNetwork[sh]
  }

  /** And its online count is the same. */
  ghost predicate Untouched(c: Chain, c': Chain, sh: Shard) {
    Stands(c, c', sh) && CountOf(c', sh) == CountOf(c, sh)
  }

  ghost predicate IsOffline(c: Chain, sh: Shard) {
    sh in c.state && c.state[sh].Offline?
  }

  lemma HitMembers(c: Chain, ms: set<Account>, sh: Shard)
    requires Links(c) && sh in c.members
    ensures Hit(c, ms, sh) == set m | m in ms && m in c.members[sh]
  {}

  lemma BrokenIs(c: Chain, ms: set<Account>, sh: Shard)
    requires Links(c) && sh in c.members && sh in c.state && sh in c.threshold
    ensures var hit := set m | m in ms && m in c.members[sh];
            sh in Broken(c, ms) <==>
              hit != {} && (InDkg(c.state[sh])
                  || (c.state[sh].Online? && Minus(CountOf(c, sh), |hit|) < c.threshold[sh]))
  {
    HitMembers(c, ms, sh);
    HitIsTouch(c, ms, sh);
    hide Touched, Hit;
  }

  lemma LoweredUntouched(c: Chain, ms: set<Account>, n: Network, sh: Shard)
    requires Stands(c, c, sh)
    ensures Stands(c, Lowered(c, ms, n), sh)
    ensures Hit(c, ms, sh) == {} ==> Untouched(c, Lowered(c, ms, n), sh)
  {
    LoweredCount(c, ms, n, sh);
    hide CountOf, Hit, Touched;
  }

  lemma RemovalStates(c: Chain, shards: set<Shard>, sh: Shard)
    ensures var c' := RemoveShards(c, shards);
            && c'.timeouts == c.timeouts
            && (sh in shards || IsOffline(c, sh) ==> IsOffline(c', sh))
            && (sh !in shards && Stands(c, c, sh) ==> Untouched(c, c', sh))
  {
    hide Returning, Released, NetworksOf, SortDescending;
  }

  lemma StandsTrans(a: Chain, b: Chain, c: Chain, sh: Shard)
    requires Stands(a, b, sh) && Stands(b, c, sh)
    ensures Stands(a, c, sh)
    ensures Untouched(a, b, sh) && Untouched(b, c, sh) ==> Untouched(a, c, sh)
  {
    hide CountOf;
  }

  lemma StandsItself(c: Chain, c': Chain, sh: Shard)
    requires Stands(c, c', sh)
    ensures Stands(c', c', sh)
  {}

  /** Taking members offline takes down exactly the broken shards; those without such members it leaves alone. */
  lemma OfflineStates(c: Chain, ms: set<Account>, n: Network, sh: Shard)
    ensures var c' := MembersOffline(c, ms, n);
            && c'.timeouts == c.timeouts
            && (sh in Broken(c, ms) || IsOffline(c, sh) ==> IsOffline(c', sh))
            && (sh !in Broken(c, ms) && Stands(c, c, sh) ==> Stands(c, c', sh))
            && (sh !in Broken(c, ms) && Stands(c, c, sh) && Hit(c, ms, sh) == {} ==> Untouched(c, c', sh))
  {
    hide RemoveShards, Broken, Touched, Hit, Stands, CountOf;
    OfflineIsRemoval(c, ms, n);
    var c1 := Lowered(c, ms, n);
    RemovalStates(c1, Broken(c, ms), sh);
    if Stands(c, c, sh) {
      LoweredUntouched(c, ms, n, sh);
      StandsItself(c, c1, sh);
      if sh !in Broken(c, ms) {
        StandsTrans(c, c1, MembersOffline(c, ms, n), sh);
      }
    }
  }

  /** A shard with the same members and count is broken if it was. */
  lemma SameBroken(c: Chain, c1: Chain, ms: set<Account>, sh: Shard)
    requires Links(c) && Links(c1) && Untouched(c, c1, sh)
    ensures sh in Broken(c1, ms) <==> sh in Broken(c, ms)
  {
    BrokenIs(c, ms, sh);
    BrokenIs(c1, ms, sh);
    hide Broken, CountOf;
  }

  /** Members of another network are not in the shard. */
  lemma ForeignMembers(home: Home, c: Chain, ms: set<Account>, n: Network, sh: Shard)
    requires Core(home, c, {}) && sh in c.shardNetwork && c.shardNetwork[sh] != n
             && forall m :: m in ms ==> home(m) == n
    ensures Hit(c, ms, sh) == {} && sh !in Broken(c, ms)
  {
    hide Homes, Pools, Lives, StatusOk;
    assert Base(home, c, sh);
    HitMembers(c, ms, sh);
    HitIsTouch(c, ms, sh);
    assert Hit(c, ms, sh) == {};
  }

  /** What the networks done so far did to a shard of network n. */
  ghost predicate FallenIf(c: Chain, c': Chain, sh: Shard, ms: seq<Account>, network: map<Account, Network>, n: Network,
                           order: seq<Network>) {
    && c'.timeouts == c.timeouts && c'.nextShard == c.nextShard && c'.block == c.block
    && if n !in order then Untouched(c, c', sh)
       else if sh in Broken(c, OnNetwork(ms, network, n)) then IsOffline(c', sh)
       else Stands(c, c', sh)
  }

  lemma LinksOf(home: Home, c: Chain)
    requires Core(home, c, {})
    ensures Links(c)
  {}

  lemma OfflineNumbers(c: Chain, ms: set<Account>, n: Network)
    ensures var c' := MembersOffline(c, ms, n);
            c'.timeouts == c.timeouts && c'.nextShard == c.nextShard && c'.block == c.block
  {
    hide Returning, Released, NetworksOf, SortDescending, Broken, Touched, Hit;
  }

  /** One more network. */
  lemma FallenMore(home: Home, c: Chain, c1: Chain, sh: Shard, ms: seq<Account>, network: map<Account, Network>,
                   n: Network, order: seq<Network>, k: nat)
    requires k == |order| - 1 && order[k] !in order[..k]
    requires Core(home, c, {}) && Core(home, c1, {}) && FallenIf(c, c1, sh, ms, network, n, order[..k])
    requires sh in c.shardNetwork && c.shardNetwork[sh] == n && Stands(c, c, sh)
    requires forall m :: m in ms && m in network ==> network[m] == home(m)
    ensures FallenIf(c, MembersOffline(c1, OnNetwork(ms, network, order[k]), order[k]), sh, ms, network, n, order)
  {
    hide Core, Broken, MembersOffline, Hit, CountOf;
    var set1 := OnNetwork(ms, network, order[k]);
    assert order == order[..k] + [order[k]];
    OfflineStates(c1, set1, order[k], sh);
    OfflineNumbers(c1, set1, order[k]);
    LinksOf(home, c);
    LinksOf(home, c1);
    hide Links;
    var c2 := MembersOffline(c1, set1, order[k]);
    if !IsOffline(c1, sh) || Stands(c, c1, sh) {
      StandsItself(c, c1, sh);
      if order[k] == n {
        SameBroken(c, c1, set1, sh);
      } else {
        ForeignMembers(home, c1, set1, order[k], sh);
      }
      if sh !in Broken(c1, set1) {
        StandsTrans(c, c1, c2, sh);
      }
    }
  }

  lemma {:induction false} NetworksFall(home: Home, c: Chain, ms: seq<Account>, network: map<Account, Network>,
                                                 order: seq<Network>, sh: Shard, lo: nat, hi: nat)
    requires Core(home, c, {}) && Timers(c, lo, hi) && NoDuplicates(order)
    requires forall m :: m in ms && m in network ==> m in c.online && network[m] == home(m)
    requires sh in c.shardNetwork && Stands(c, c, sh)
    ensures FallenIf(c, OfflineByNetwork(c, ms, network, order), sh, ms, network, c.shardNetwork[sh], order)
  {
    hide Core, Timers, MembersOffline, NoDuplicates, Broken;
    if order != [] {
      hide FallenIf, Stands;
      var k := |order| - 1;
      NotInPrefix(order, k);
      NetworksFall(home, c, ms, network, order[..k], sh, lo, hi);
      OfflineByNetworkKeeps(home, c, ms, network, order[..k], lo, hi);
      FallenMore(home, c, OfflineByNetwork(c, ms, network, order[..k]), sh, ms, network, c.shardNetwork[sh], order, k);
    }
  }

  // -------------------------------------------------------------------------- one block

  /** These are the members of the shard that leave. */
  ghost predicate AreLeaving(cfg: Config, c: Chain, sh: Shard, ms: set<Account>)
    requires cfg.Valid() && sh in c.members
  {
    ms <= c.online && forall m :: m in c.members[sh] ==> (m in ms <==> Leaves(cfg, c, m))
  }

  lemma LosingCount(cfg: Config, c: Chain, sh: Shard, ms: set<Account>)
    requires cfg.Valid() && Links(c) && Live(c, sh) && AreLeaving(cfg, c, sh, ms)
    ensures |Hit(c, ms, sh)| <= CountOf(c, sh) && |Remaining(cfg, c, sh)| == CountOf(c, sh) - |Hit(c, ms, sh)|
  {
    hide Leaves, Hit, Links;
    HitMembers(c, ms, sh);
    assert Remaining(cfg, c, sh) == OnlineMembers(c, sh) - Hit(c, ms, sh);
    HitOnline(c, ms, sh);
    hide Remaining, OnlineMembers, CountOf;
    assert |OnlineMembers(c, sh) - Hit(c, ms, sh)| == |OnlineMembers(c, sh)| - |Hit(c, ms, sh)|;
  }

  lemma HitOnline(c: Chain, ms: set<Account>, sh: Shard)
    requires Links(c) && sh in c.members && ms <= c.online
    ensures Hit(c, ms, sh) <= OnlineMembers(c, sh) && |Hit(c, ms, sh)| <= |OnlineMembers(c, sh)|
  {
    SubsetSize(Hit(c, ms, sh), OnlineMembers(c, sh));
  }

  lemma SomebodyLeaves(cfg: Config, c: Chain, sh: Shard, ms: set<Account>)
    requires cfg.Valid() && Links(c) && sh in c.members && AreLeaving(cfg, c, sh, ms)
    ensures Hit(c, ms, sh) != {} <==> exists m :: m in c.members[sh] && Leaves(cfg, c, m)
  {
    HitMembers(c, ms, sh);
    hide Leaves, Hit, Links;
    if m :| m in c.members[sh] && Leaves(cfg, c, m) {
      assert m in Hit(c, ms, sh);
    }
    if Hit(c, ms, sh) != {} {
      var m :| m in Hit(c, ms, sh);
      assert Leaves(cfg, c, m);
    }
  }

  lemma LiveOf(home: Home, c: Chain, sh: Shard)
    requires Core(home, c, {}) && sh in c.shardNetwork
    ensures Links(c) && Live(c, sh)
  {
    hide Homes, Pools, Bases;
  }

  /** With exactly these members leaving, the shard is broken if and only if it loses too many. */
  lemma BrokenIfLosing(cfg: Config, home: Home, c: Chain, sh: Shard, ms: set<Account>)
    requires cfg.Valid() && Core(home, c, {}) && Stands(c, c, sh) && !c.state[sh].Offline?
    requires AreLeaving(cfg, c, sh, ms)
    ensures sh in Broken(c, ms) <==> LosesMembers(cfg, c, sh)
  {
    hide Core, Links, Live, Leaves, Hit, Remaining, AreLeaving, CountOf, Touched;
    LiveOf(home, c, sh);
    HitIsTouch(c, ms, sh);
    LosingCount(cfg, c, sh, ms);
    SomebodyLeaves(cfg, c, sh, ms);
    EnoughOnline(c, sh);
  }

  lemma EnoughOnline(c: Chain, sh: Shard)
    requires Live(c, sh)
    ensures sh in c.state && sh in c.threshold && (c.state[sh].Online? ==> CountOf(c, sh) >= c.threshold[sh])
  {}

  lemma NobodyLeaves(cfg: Config, home: Home, c: Chain, sh: Shard)
    requires cfg.Valid() && Core(home, c, {}) && sh in c.shardNetwork && sh in c.state && sh in c.members
             && sh in c.threshold
    requires !c.state[sh].Offline? && (c.block + 1) % cfg.heartbeatTimeout != 0
    ensures !LosesMembers(cfg, c, sh)
  {
    hide Homes, Pools, Links, Bases, IsDue;
    assert Live(c, sh);
    assert Remaining(cfg, c, sh) == OnlineMembers(c, sh);
  }

  lemma AliveShard(home: Home, c: Chain, sh: Shard)
    requires Core(home, c, {}) && sh in c.state && !c.state[sh].Offline?
    ensures Stands(c, c, sh) && sh < c.nextShard
  {
    hide Homes, Pools, Links, Lives, StatusOk;
    assert Base(home, c, sh);
  }

  /** After the members hook of the next block. */
  ghost predicate HookFalls(cfg: Config, c: Chain, c': Chain, sh: Shard)
    requires cfg.Valid() && sh in c.state && sh in c.members && sh in c.threshold
  {
    && c'.timeouts == c.timeouts && c'.nextShard == c.nextShard && c'.block == c.block + 1
    && if LosesMembers(cfg, c, sh) then IsOffline(c', sh) else Stands(c, c', sh)
  }

  lemma NetworkMembers(cfg: Config, c: Chain, sh: Shard, now: seq<Account>)
    requires cfg.Valid() && sh in c.members && sh in c.shardNetwork
    requires forall m :: m in now ==> m in c.online && m in c.network
    requires forall m :: m in now <==> Leaves(cfg, c, m)
    requires forall m :: m in now && m in c.members[sh] ==> c.network[m] == c.shardNetwork[sh]
    ensures AreLeaving(cfg, c, sh, OnNetwork(now, c.network, c.shardNetwork[sh]))
  {
    hide Leaves;
  }

  lemma PickedOnline(cfg: Config, c: Chain, m: Account)
    requires Beats(c) && m in SplitTimedOut(c.timedOut, c.network, cfg.maxTimeouts).0
    ensures m in c.online && m in c.network
  {
    hide SplitTimedOut;
    SplitWithin(c.timedOut, c.network, cfg.maxTimeouts, m);
  }

  lemma MemberNetwork(home: Home, c: Chain, sh: Shard, m: Account)
    requires Core(home, c, {}) && sh in c.members && m in c.members[sh] && m in c.network
    ensures sh in c.shardNetwork && c.network[m] == c.shardNetwork[sh]
  {
    hide Pools, Links, Lives, StatusOk;
    assert Base(home, c, sh);
  }

  /** The members the hook takes offline, as far as they belong to the shard. */
  lemma PickedMembers(cfg: Config, home: Home, c: Chain, c0: Chain, sh: Shard)
    requires cfg.Valid() && c0 == Advance(c) && Core(home, c0, {}) && Beats(c0) && Stands(c0, c0, sh)
    requires c0.block % cfg.heartbeatTimeout == 0
    ensures var ms := OnNetwork(SplitTimedOut(c0.timedOut, c0.network, cfg.maxTimeouts).0, c0.network,
                                c0.shardNetwork[sh]);
            AreLeaving(cfg, c, sh, ms)
  {
    hide Core, Beats, SplitTimedOut, IsDue, AreLeaving, OnNetwork;
    var now := SplitTimedOut(c0.timedOut, c0.network, cfg.maxTimeouts).0;
    forall m ensures m in now <==> Leaves(cfg, c, m) {
      DueIsPicked(cfg, c0, m);
      DueStays(cfg, c, m);
    }
    forall m | m in now
      ensures m in c.online && m in c.network && (m in c.members[sh] ==> c.network[m] == c.shardNetwork[sh])
    {
      PickedOnline(cfg, c0, m);
      if m in c.members[sh] {
        MemberNetwork(home, c0, sh, m);
      }
    }
    NetworkMembers(cfg, c, sh, now);
  }

  lemma TimeoutFalls(cfg: Config, home: Home, c: Chain, e: Event, sh: Shard)
    requires cfg.Valid() && Inv(cfg, home, c) && Enabled(cfg, c, e) && e.NewBlock?
    requires Stands(c, c, sh) && !c.state[sh].Offline? && (c.block + 1) % cfg.heartbeatTimeout == 0
    ensures HookFalls(cfg, c, MembersHook(cfg, Advance(c), e.due, e.beating), sh)
  {
    hide Core, Beats, Timers, OfflineByNetwork, SplitTimedOut, Broken, LosesMembers, NoDuplicates;
    var c0, hi := Advance(c), c.block + cfg.dkgTimeout;
    CoreFrame(home, c, c0);
    BeatsFrame(c, c0);
    TimersFrame(c, c0, c.block + 1, hi);
    HomesOf(home, c0);
    var now := SplitTimedOut(c0.timedOut, c0.network, cfg.maxTimeouts).0;
    var n := c0.shardNetwork[sh];
    forall m | m in now ensures m in c0.online && m in c0.network {
      SplitWithin(c0.timedOut, c0.network, cfg.maxTimeouts, m);
      ListedOnline(c0, m);
    }
    NetworksFall(home, c0, now, c0.network, e.due, sh, c.block + 1, hi);
    PickedMembers(cfg, home, c, c0, sh);
    SameLosing(cfg, home, c, c0, sh, OnNetwork(now, c0.network, n));
    var c1 := OfflineByNetwork(c0, now, c0.network, e.due);
    if n !in e.due {
      NotDue(c0, now, n, e.due, sh);
    }
    hide Leaves;
    HookFrame(cfg, c, c0, c1, MembersHook(cfg, c0, e.due, e.beating), sh);
  }

  lemma ListedOnline(c: Chain, m: Account)
    requires Beats(c) && m in c.timedOut
    ensures m in c.online
  {}

  /** If the network of the shard is not due, none of its members is. */
  lemma NotDue(c: Chain, now: seq<Account>, n: Network, due: seq<Network>, sh: Shard)
    requires ListsNetworks(due, now, c.network) && n !in due
    ensures OnNetwork(now, c.network, n) == {} && sh !in Broken(c, OnNetwork(now, c.network, n))
  {
    assert OnNetwork(now, c.network, n) == {};
  }

  lemma SameLosing(cfg: Config, home: Home, c: Chain, c0: Chain, sh: Shard, ms: set<Account>)
    requires cfg.Valid() && c0 == Advance(c) && Core(home, c, {}) && Stands(c, c, sh) && !c.state[sh].Offline?
    requires AreLeaving(cfg, c, sh, ms)
    ensures sh in Broken(c0, ms) <==> LosesMembers(cfg, c, sh)
  {
    hide LosesMembers, AreLeaving, Broken, Core, Links;
    BrokenIfLosing(cfg, home, c, sh, ms);
    LinksOf(home, c);
    LinksStay(c, c0);
    SameBroken(c, c0, ms, sh);
  }

  lemma LinksStay(c: Chain, c0: Chain)
    requires Links(c) && c0.memberShard == c.memberShard && c0.members == c.members
    ensures Links(c0)
  {}

  lemma HookFrame(cfg: Config, c: Chain, c0: Chain, c1: Chain, c': Chain, sh: Shard)
    requires cfg.Valid() && c0 == Advance(c) && Stands(c, c, sh)
    requires c1.timeouts == c.timeouts && c1.nextShard == c.nextShard && c1.block == c.block + 1
    requires if LosesMembers(cfg, c, sh) then IsOffline(c1, sh) else Stands(c0, c1, sh)
    requires c' == c1.(timedOut := c'.timedOut, heartbeat := c'.heartbeat)
    ensures HookFalls(cfg, c, c', sh)
  {
    hide LosesMembers;
  }

  lemma MembersHookFallsExactly(cfg: Config, home: Home, c: Chain, e: Event, sh: Shard)
    requires cfg.Valid() && Inv(cfg, home, c) && Enabled(cfg, c, e) && e.NewBlock?
    requires Stands(c, c, sh) && !c.state[sh].Offline?
    ensures HookFalls(cfg, c, MembersHook(cfg, Advance(c), e.due, e.beating), sh)
  {
    hide Core, Beats, Timers, TimeoutHeartbeats, SplitTimedOut, ListsNetworks, LosesMembers;
    if (c.block + 1) % cfg.heartbeatTimeout == 0 {
      TimeoutFalls(cfg, home, c, e, sh);
    } else {
      NobodyLeaves(cfg, home, c, sh);
    }
  }

  lemma BlockFalls(cfg: Config, home: Home, c: Chain, e: Event, sh: Shard)
    requires cfg.Valid() && Inv(cfg, home, c) && Enabled(cfg, c, e) && e.NewBlock?
    requires Stands(c, c, sh) && sh < c.nextShard && !c.state[sh].Offline?
    ensures IsOffline(Next(cfg, home, c, e), sh) <==> MustFall(cfg, c, e, sh)
  {
    hide Core, Beats, Timers, MembersHook, ElectionsHook, Enabled, Leaves;
    MembersHookFallsExactly(cfg, home, c, e, sh);
    var c1 := MembersHook(cfg, Advance(c), e.due, e.beating);
    DkgFalls(c1, sh);
    var c2 := TimeoutDkgs(c1, c1.block);
    hide TimeoutDkgs, RemoveShards;
    EnabledNetworks(cfg, c, e);
    ElectionsHookGrows(cfg, c2, e.networks);
    KnownState(c, c1, sh);
  }

  lemma EnabledNetworks(cfg: Config, c: Chain, e: Event)
    requires Enabled(cfg, c, e) && e.NewBlock?
    ensures e.networks.Valid()
  {}

  lemma KnownState(c: Chain, c': Chain, sh: Shard)
    requires IsOffline(c', sh) || Stands(c, c', sh)
    ensures sh in c'.state
  {}

  /** The key generations whose time is up go offline, and nothing else does. */
  lemma DkgFalls(c: Chain, sh: Shard)
    ensures var c' := TimeoutDkgs(c, c.block);
            && c'.nextShard == c.nextShard
            && (sh in c.state ==>
                  && sh in c'.state
                  && c'.state[sh] == if sh in TimeoutsAt(c, c.block) && InDkg(c.state[sh]) then Offline
                     else c.state[sh])
  {
    hide Returning, Released, NetworksOf, SortDescending, Gone;
  }

  // --------------------------------------------------------------------------- one step

  lemma ForcedFalls(c: Chain, x: Shard, sh: Shard)
    requires sh in c.state && !c.state[sh].Offline?
    ensures IsOffline(RemoveShards(c, {x}), sh) <==> x == sh
  {
    hide Returning, Released, NetworksOf, SortDescending, Gone;
  }

  lemma CommitStates(c: Chain, m: Account, x: Shard, commitment: Polynomials.Commitment, genuine: bool,
                     order: seq<Account>, sh: Shard)
    requires Lists(order, MembersOf(c, x)) && sh in c.state && !c.state[sh].Offline?
    ensures !IsOffline(Accepted(Commit(c, m, x, commitment, genuine, order), c), sh)
  {}

  lemma ReadyStates(c: Chain, m: Account, x: Shard, sh: Shard)
    requires sh in c.state && !c.state[sh].Offline?
    ensures !IsOffline(Accepted(MarkReady(c, m, x), c), sh)
  {}

  lemma RegistrationStays(c: Chain, m: Account, n: Network, sh: Shard)
    requires sh in c.state && !c.state[sh].Offline?
    ensures !IsOffline(Register(c, m, n), sh) && !IsOffline(Accepted(Unregister(c, m), c), sh)
  {
    RegistrationStates(c, m, n);
    hide Register, Unregister;
  }

  lemma BeatStates(home: Home, c: Chain, m: Account, sh: Shard)
    requires Core(home, c, {}) && sh in c.state && !c.state[sh].Offline?
    ensures !IsOffline(Accepted(Heartbeat(c, m), c), sh)
  {
    hide Core, Heartbeat;
    if Heartbeat(c, m).Some? {
      HeartbeatStates(home, c, m);
    }
  }

  /** In every reachable chain a shard goes offline in the next step exactly if it must. */
  lemma ShardsFallExactly(cfg: Config, home: Home, es: seq<Event>, e: Event, sh: Shard)
    requires cfg.Valid() && Run(cfg, home, Genesis(), es) && Enabled(cfg, After(cfg, home, Genesis(), es), e)
    requires var c := After(cfg, home, Genesis(), es); sh in c.state && !c.state[sh].Offline?
    ensures var c := After(cfg, home, Genesis(), es);
            && sh in c.members && sh in c.threshold
            && (IsOffline(Next(cfg, home, c, e), sh) <==> MustFall(cfg, c, e, sh))
  {
    hide Inv, Run, After, Enabled, Next, MustFall;
    ReachableInv(cfg, home, es);
    FallsExactly(cfg, home, After(cfg, home, Genesis(), es), e, sh);
  }

  lemma FallsExactly(cfg: Config, home: Home, c: Chain, e: Event, sh: Shard)
    requires cfg.Valid() && Inv(cfg, home, c) && Enabled(cfg, c, e) && sh in c.state && !c.state[sh].Offline?
    ensures sh in c.members && sh in c.threshold
    ensures IsOffline(Next(cfg, home, c, e), sh) <==> MustFall(cfg, c, e, sh)
  {
    hide Core, Beats, Timers, Register, Unregister, Heartbeat, Commit, MarkReady, RemoveShards, ElectionsHook;
    hide BeforeElections, Lists, ListsNetworks, SplitTimedOut, Leaves, Remaining;
    AliveShard(home, c, sh);
    match e
    case RegisterMember(m) => RegistrationStays(c, m, home(m), sh);
    case UnregisterMember(m) => RegistrationStays(c, m, home(m), sh);
    case SendHeartbeat(m) => BeatStates(home, c, m, sh);
    case SubmitCommitment(m, x, commitment, genuine, order) => CommitStates(c, m, x, commitment, genuine, order, sh);
    case ReportReady(m, x) => ReadyStates(c, m, x, sh);
    case ForceOffline(x) => ForcedFalls(c, x, sh);
    case NewBlock(_, _, _) => BlockFalls(cfg, home, c, e, sh);
  }
}
