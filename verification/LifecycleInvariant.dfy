/** The invariant shared by the members, elections and shards pallets, kept by each of their steps. */
module LifecycleInvariant {
  import opened Sequences
  import opened LifecycleSpec

  /** The network each account is always registered for. */
  type Home = Account -> Network

  ghost predicate Homes(home: Home, c: Chain) {
    forall m :: m in c.network ==> c.network[m] == home(m)
  }

  /** MemberOnline is the disjoint union of Heartbeat and a duplicate-free TimedOut. */
  ghost predicate Beats(c: Chain) {
    && NoDuplicates(c.timedOut)
    && (forall m :: m in c.heartbeat ==> m !in c.timedOut)
    && (forall m :: m in c.online <==> m in c.heartbeat || m in c.timedOut)
  }

  ghost predicate Listed(home: Home, c: Chain, n: Network, list: seq<Account>) {
    && NoDuplicates(list)
    && forall m :: m in list ==> m in c.online && m !in c.memberShard && home(m) == n
  }

  /** Nobody is in the pool twice, in a foreign pool, or in a pool and in a shard. */
  ghost predicate Pools(home: Home, c: Chain) {
    forall n :: n in c.unassigned ==> Listed(home, c, n, c.unassigned[n])
  }

  /** MemberShard and ShardMembers are inverse. */
  ghost predicate Links(c: Chain) {
    && (forall m :: m in c.memberShard ==> c.memberShard[m] in c.members && m in c.members[c.memberShard[m]])
    && (forall sh, m :: sh in c.members && m in c.members[sh] ==> m in c.memberShard && c.memberShard[m] == sh)
  }

  /** The status of a shard is read off its members' statuses. */
  ghost predicate StatusOk(s: ShardStatus, ms: map<Account, MemberStatus>, committed: bool) {
    match s
    case Created => !committed && (exists m :: m in ms && ms[m].Added?) && (forall m :: m in ms ==> !ms[m].Ready?)
    case Committed => committed && (exists m :: m in ms && ms[m].Submitted?) && (forall m :: m in ms ==> !ms[m].Added?)
    case Online => committed && AllReady(ms)
    case Offline => false
  }

  ghost predicate Base(home: Home, c: Chain, sh: Shard) {
    && sh in c.shardNetwork && sh in c.state && sh in c.threshold && sh in c.members && sh < c.nextShard
    && 1 <= c.threshold[sh] <= |c.members[sh]| < 0x1_0000
    && (forall m :: m in c.members[sh] ==> home(m) == c.shardNetwork[sh])
    && StatusOk(c.state[sh], c.members[sh], sh in c.commitment)
  }

  ghost predicate Bases(home: Home, c: Chain) {
    && c.shardNetwork.Keys == c.members.Keys == c.threshold.Keys <= c.state.Keys
    && (forall sh :: sh in c.shardNetwork ==> Base(home, c, sh))
    && (forall sh :: sh in c.state && sh !in c.shardNetwork ==> c.state[sh].Offline?)
    && (forall sh :: 0 <= sh < c.nextShard ==> sh in c.state)
    && (forall sh :: sh in c.commitment ==> sh < c.nextShard)
  }

  ghost function OnlineMembers(c: Chain, sh: Shard): (s: set<Account>)
    requires sh in c.members
  {
    set m | m in c.members[sh] && m in c.online
  }

  /** The cached count is right, and enough members are online for the shard's status. */
  ghost predicate Live(c: Chain, sh: Shard) {
    && sh in c.members && sh in c.state && sh in c.threshold
    && CountOf(c, sh) == |OnlineMembers(c, sh)|
    && (InDkg(c.state[sh]) ==> forall m :: m in c.members[sh] ==> m in c.online)
    && (c.state[sh].Online? ==> CountOf(c, sh) >= c.threshold[sh])
  }

  ghost predicate Lives(c: Chain, except: set<Shard>) {
    forall sh :: sh in c.shardNetwork && sh !in except ==> Live(c, sh)
  }

  ghost predicate HasTimer(c: Chain, sh: Shard) {
    exists b :: b in c.timeouts && sh in c.timeouts[b]
  }

  /** Key generations have one timer each, and the counters count them. */
  ghost predicate Timers(c: Chain, lo: nat, hi: nat) {
    && c.timeouts.Keys == c.timeoutCount.Keys
    && (forall b :: b in c.timeouts ==> lo <= b <= hi && c.timeoutCount[b] == |c.timeouts[b]|)
    && (forall b, sh :: b in c.timeouts && sh in c.timeouts[b] ==> sh < c.nextShard)
    && (forall b, d, sh :: b in c.timeouts && d in c.timeouts && sh in c.timeouts[b] && sh in c.timeouts[d] ==> b == d)
    && (forall sh :: sh in c.shardNetwork && sh in c.state && InDkg(c.state[sh]) ==> HasTimer(c, sh))
  }

  /** Everything but the heartbeat lists and the timers. */
  ghost predicate Core(home: Home, c: Chain, except: set<Shard>) {
    Homes(home, c) && Pools(home, c) && Links(c) && Bases(home, c) && Lives(c, except)
  }

  ghost predicate Inv(cfg: Config, home: Home, c: Chain) {
    Core(home, c, {}) && Beats(c) && Timers(c, c.block + 1, c.block + cfg.dkgTimeout)
  }

  // --------------------------------------------------------- removing shards

  lemma ReturningHome(home: Home, c: Chain, shards: set<Shard>, n: Network, m: Account)
    requires Links(c) && Bases(home, c) && m in Returning(c, shards, n)
    ensures m in c.online && m in c.memberShard && m in Released(c, shards) && home(m) == n
  {
    hide StatusOk;
    assert Base(home, c, c.memberShard[m]);
  }

  lemma RemovePool(home: Home, c: Chain, c': Chain, shards: set<Shard>, n: Network)
    requires Pools(home, c) && Links(c) && Bases(home, c)
    requires c'.online == c.online && c'.memberShard == c.memberShard - Released(c, shards)
    ensures Listed(home, c', n, SortDescending(Pool(c, n) + Listing(Returning(c, shards, n))))
  {
    hide Links, Bases, Released, Returning, SortDescending, Listing;
    var back := Returning(c, shards, n);
    forall m | m in back ensures m in c.online && m in c.memberShard && m in Released(c, shards) && home(m) == n {
      ReturningHome(home, c, shards, n, m);
    }
    assert Listed(home, c, n, Pool(c, n));
    MergeSorted(Pool(c, n), Listing(back), back);
  }

  lemma StayListed(home: Home, c: Chain, c': Chain, n: Network, list: seq<Account>)
    requires Listed(home, c, n, list) && c'.online == c.online && c'.memberShard.Keys <= c.memberShard.Keys
    ensures Listed(home, c', n, list)
  {}

  lemma RemovePools(home: Home, c: Chain, shards: set<Shard>)
    requires Pools(home, c) && Links(c) && Bases(home, c)
    ensures Pools(home, RemoveShards(c, shards))
  {
    hide Bases, Links, Returning, Released, Listed, SortDescending, Listing;
    var c' := RemoveShards(c, shards);
    forall n | n in c'.unassigned ensures Listed(home, c', n, c'.unassigned[n]) {
      if n in NetworksOf(c, shards) {
        RemovePool(home, c, c', shards, n);
      } else {
        StayListed(home, c, c', n, c.unassigned[n]);
      }
    }
  }

  lemma RemoveLinks(c: Chain, shards: set<Shard>)
    requires Links(c) && c.members.Keys == c.shardNetwork.Keys
    ensures Links(RemoveShards(c, shards))
  {}

  lemma RemoveBase(home: Home, c: Chain, c': Chain, sh: Shard)
    requires Base(home, c, sh)
    requires sh in c'.shardNetwork && sh in c'.state && sh in c'.threshold && sh in c'.members
    requires c'.shardNetwork[sh] == c.shardNetwork[sh] && c'.state[sh] == c.state[sh]
    requires c'.threshold[sh] == c.threshold[sh] && c'.members[sh] == c.members[sh]
    requires c'.commitment == c.commitment && c'.nextShard >= c.nextShard
    ensures Base(home, c', sh)
  {
    hide StatusOk;
  }

  lemma RemoveBases(home: Home, c: Chain, shards: set<Shard>)
    requires Bases(home, c)
    ensures Bases(home, RemoveShards(c, shards))
  {
    hide Base, Returning, Released, NetworksOf;
    var c' := RemoveShards(c, shards);
    assert c'.shardNetwork.Keys == c'.members.Keys == c'.threshold.Keys <= c'.state.Keys;
    forall sh | sh in c'.shardNetwork ensures Base(home, c', sh) {
      RemoveBase(home, c, c', sh);
    }
  }

  lemma RemoveLives(c: Chain, shards: set<Shard>)
    requires Lives(c, shards)
    ensures Lives(RemoveShards(c, shards), {})
  {
    hide Returning, Released;
    var c' := RemoveShards(c, shards);
    forall sh | sh in c'.shardNetwork ensures Live(c', sh) {
      assert Live(c, sh);
      assert OnlineMembers(c', sh) == OnlineMembers(c, sh);
    }
  }

  lemma RemoveKeepsCore(home: Home, c: Chain, shards: set<Shard>)
    requires Core(home, c, shards)
    ensures Core(home, RemoveShards(c, shards), {})
  {
    RemoveHomes(home, c, shards);
    hide Homes, Pools, Links, Lives, RemoveShards, Base;
    RemovePools(home, c, shards);
    RemoveLinks(c, shards);
    RemoveBases(home, c, shards);
    RemoveLives(c, shards);
  }

  lemma RemoveHomes(home: Home, c: Chain, shards: set<Shard>)
    requires Homes(home, c)
    ensures Homes(home, RemoveShards(c, shards))
  {}

  lemma RemoveTimers(c: Chain, shards: set<Shard>, lo: nat, hi: nat)
    requires Timers(c, lo, hi)
    ensures Timers(RemoveShards(c, shards), lo, hi)
  {
    hide Returning, Released, NetworksOf;
    var c' := RemoveShards(c, shards);
    forall sh | sh in c'.shardNetwork && sh in c'.state && InDkg(c'.state[sh]) ensures HasTimer(c', sh) {
      assert HasTimer(c, sh);
    }
  }

  // ------------------------------------------------------- members go offline

  lemma OfflinePools(home: Home, c: Chain, ms: set<Account>, n: Network)
    requires Pools(home, c) && forall m :: m in ms ==> home(m) == n
    ensures Pools(home, c.(online := c.online - ms, unassigned := c.unassigned[n := Without(Pool(c, n), ms)]))
  {
    var c' := c.(online := c.online - ms, unassigned := c.unassigned[n := Without(Pool(c, n), ms)]);
    WithoutKeeps(Pool(c, n), ms);
    forall k | k in c'.unassigned ensures Listed(home, c', k, c'.unassigned[k]) {
      if k != n {
        assert Listed(home, c, k, c.unassigned[k]);
      } else {
        assert Listed(home, c, k, Pool(c, k));
      }
    }
  }

  /** The chain after the counts have been lowered, before broken shards are removed. */
  ghost function Lowered(c: Chain, ms: set<Account>, n: Network): (c': Chain) {
    var c1 := c.(online := c.online - ms, unassigned := c.unassigned[n := Without(Pool(c, n), ms)]);
    c1.(onlineCount := c1.onlineCount + LowerCounts(c1, ms))
  }

  lemma HitIsTouch(c: Chain, ms: set<Account>, sh: Shard)
    ensures sh in Touched(c, ms) <==> Hit(c, ms, sh) != {}
  {
    if sh in Touched(c, ms) {
      var m :| m in ms && m in c.memberShard && c.memberShard[m] == sh;
      assert m in Hit(c, ms, sh);
    }
  }

  lemma LoweredCount(c: Chain, ms: set<Account>, n: Network, sh: Shard)
    ensures CountOf(Lowered(c, ms, n), sh) == Minus(CountOf(c, sh), |Hit(c, ms, sh)|)
  {
    var c1 := c.(online := c.online - ms, unassigned := c.unassigned[n := Without(Pool(c, n), ms)]);
    assert Hit(c1, ms, sh) == Hit(c, ms, sh);
    HitIsTouch(c1, ms, sh);
  }

  lemma LoweredOnline(c: Chain, ms: set<Account>, n: Network, sh: Shard)
    requires Links(c) && ms <= c.online && sh in c.members
    ensures Hit(c, ms, sh) <= OnlineMembers(c, sh)
    ensures OnlineMembers(Lowered(c, ms, n), sh) == OnlineMembers(c, sh) - Hit(c, ms, sh)
    ensures |OnlineMembers(Lowered(c, ms, n), sh)| == |OnlineMembers(c, sh)| - |Hit(c, ms, sh)|
  {
    assert Hit(c, ms, sh) <= OnlineMembers(c, sh);
    assert OnlineMembers(Lowered(c, ms, n), sh) == OnlineMembers(c, sh) - Hit(c, ms, sh);
  }

  lemma LoweredLive(c: Chain, ms: set<Account>, n: Network, sh: Shard)
    requires Links(c) && Live(c, sh) && ms <= c.online && sh !in Broken(c, ms)
    ensures Live(Lowered(c, ms, n), sh)
  {
    hide Links, CountOf, OnlineMembers, Touched;
    LoweredCount(c, ms, n, sh);
    LoweredOnline(c, ms, n, sh);
    HitIsTouch(c, ms, sh);
    if InDkg(c.state[sh]) {
      NotHit(c, ms, sh);
    }
  }

  lemma NotHit(c: Chain, ms: set<Account>, sh: Shard)
    requires Links(c) && sh in c.members && Hit(c, ms, sh) == {}
    ensures forall m :: m in c.members[sh] ==> m !in ms
  {
    forall m | m in c.members[sh] ensures m !in ms {
      assert m !in Hit(c, ms, sh);
    }
  }

  lemma LoweredBases(home: Home, c: Chain, ms: set<Account>, n: Network)
    requires Bases(home, c)
    ensures Bases(home, Lowered(c, ms, n))
  {
    hide Base, Touched, Hit;
    var c' := Lowered(c, ms, n);
    forall sh | sh in c'.shardNetwork ensures Base(home, c', sh) {
      RemoveBase(home, c, c', sh);
    }
  }

  lemma LoweredPools(home: Home, c: Chain, ms: set<Account>, n: Network)
    requires Pools(home, c) && forall m :: m in ms ==> home(m) == n
    ensures Pools(home, Lowered(c, ms, n))
  {
    hide Touched, Hit, Without;
    OfflinePools(home, c, ms, n);
  }

  lemma LoweredCore(home: Home, c: Chain, ms: set<Account>, n: Network)
    requires Core(home, c, {}) && ms <= c.online && forall m :: m in ms ==> home(m) == n
    ensures Core(home, Lowered(c, ms, n), Broken(c, ms))
  {
    hide Pools, Bases, Live, Broken, Touched, Hit, Without;
    LoweredPools(home, c, ms, n);
    LoweredBases(home, c, ms, n);
    forall sh | sh in c.shardNetwork && sh !in Broken(c, ms) ensures Live(Lowered(c, ms, n), sh) {
      LoweredLive(c, ms, n, sh);
    }
  }

  lemma OfflineIsRemoval(c: Chain, ms: set<Account>, n: Network)
    ensures MembersOffline(c, ms, n) == RemoveShards(Lowered(c, ms, n), Broken(c, ms))
  {
    var c1 := c.(online := c.online - ms, unassigned := c.unassigned[n := Without(Pool(c, n), ms)]);
    assert forall sh :: Hit(c1, ms, sh) == Hit(c, ms, sh);
    assert Broken(c1, ms) == Broken(c, ms);
  }

  lemma MembersOfflineKeeps(home: Home, c: Chain, ms: set<Account>, n: Network, lo: nat, hi: nat)
    requires Core(home, c, {}) && Timers(c, lo, hi) && ms <= c.online && forall m :: m in ms ==> home(m) == n
    ensures Core(home, MembersOffline(c, ms, n), {}) && Timers(MembersOffline(c, ms, n), lo, hi)
    ensures MembersOffline(c, ms, n).online == c.online - ms
    ensures MembersOffline(c, ms, n).block == c.block && MembersOffline(c, ms, n).heartbeat == c.heartbeat
    ensures MembersOffline(c, ms, n).timedOut == c.timedOut
  {
    hide Core, Broken, Timers, Hit, Touched, Returning, Released;
    OfflineIsRemoval(c, ms, n);
    LoweredCore(home, c, ms, n);
    RemoveKeepsCore(home, Lowered(c, ms, n), Broken(c, ms));
    LoweredTimers(c, ms, n, lo, hi);
    RemoveTimers(Lowered(c, ms, n), Broken(c, ms), lo, hi);
  }

  lemma LoweredTimers(c: Chain, ms: set<Account>, n: Network, lo: nat, hi: nat)
    requires Timers(c, lo, hi)
    ensures Timers(Lowered(c, ms, n), lo, hi)
  {
    hide Touched, Hit;
    var c' := Lowered(c, ms, n);
    forall sh | sh in c'.shardNetwork && sh in c'.state && InDkg(c'.state[sh]) ensures HasTimer(c', sh) {
      assert HasTimer(c, sh);
    }
  }
}
