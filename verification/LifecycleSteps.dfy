/** Each call and hook of the three pallets keeps the shared invariant. */
module LifecycleSteps {
  import opened FiniteSets
  import opened Sequences
  import opened LifecycleSpec
  import opened LifecycleInvariant

  // ---------------------------------------------------------------- heartbeats

  lemma {:induction false} SplitCounts(s: seq<Account>, network: map<Account, Network>, room: nat)
    ensures var (now, later) := SplitTimedOut(s, network, room);
            && multiset(now) + multiset(later) == multiset(s)
            && |now| <= room
            && forall m :: m in now ==> m in network
  {
    if s != [] {
      var room' := if room > 0 && s[0] in network then room - 1 else room;
      SplitCounts(s[1..], network, room');
      var (now, later) := SplitTimedOut(s[1..], network, room');
      Prepended(s, now, later);
      Prepended(s, later, now);
    }
  }

  lemma Prepended(s: seq<Account>, a: seq<Account>, b: seq<Account>)
    requires s != [] && multiset(a) + multiset(b) == multiset(s[1..])
    ensures multiset([s[0]] + a) + multiset(b) == multiset(s)
  {
    assert s == [s[0]] + s[1..];
  }

  /** `order` lists the networks of the members in `ms`, each once. */
  ghost predicate ListsNetworks(order: seq<Network>, ms: seq<Account>, network: map<Account, Network>) {
    && NoDuplicates(order)
    && (forall m :: m in ms && m in network ==> network[m] in order)
    && (forall n :: n in order ==> exists m :: m in ms && m in network && network[m] == n)
  }

  ghost function OnNetworks(ms: seq<Account>, network: map<Account, Network>, order: seq<Network>): (s: set<Account>) {
    set m | m in ms && m in network && network[m] in order
  }

  lemma OnNetworksGrow(ms: seq<Account>, network: map<Account, Network>, order: seq<Network>, n: nat)
    requires n == |order| - 1
    ensures OnNetworks(ms, network, order) == OnNetworks(ms, network, order[..n]) + OnNetwork(ms, network, order[n])
  {
    assert order == order[..n] + [order[n]];
    assert forall x :: x in order <==> x in order[..n] || x == order[n];
  }

  lemma {:induction false} OfflineByNetworkKeeps(home: Home, c: Chain, ms: seq<Account>,
                                                 network: map<Account, Network>, order: seq<Network>, lo: nat, hi: nat)
    requires Core(home, c, {}) && Timers(c, lo, hi) && NoDuplicates(order)
    requires forall m :: m in ms && m in network ==> m in c.online && network[m] == home(m)
    ensures var c' := OfflineByNetwork(c, ms, network, order);
            && Core(home, c', {}) && Timers(c', lo, hi)
            && c'.online == c.online - OnNetworks(ms, network, order)
            && c'.block == c.block && c'.heartbeat == c.heartbeat && c'.timedOut == c.timedOut
  {
    hide Core, Timers, MembersOffline;
    if order == [] {
      assert OnNetworks(ms, network, order) == {};
    } else {
      var n := |order| - 1;
      NotInPrefix(order, n);
      OfflineByNetworkKeeps(home, c, ms, network, order[..n], lo, hi);
      OnNetworksGrow(ms, network, order, n);
      MembersOfflineKeeps(home, OfflineByNetwork(c, ms, network, order[..n]), OnNetwork(ms, network, order[n]),
                          order[n], lo, hi);
    }
  }

  lemma CoreFrame(home: Home, c: Chain, c': Chain)
    requires Core(home, c, {})
    requires c' == c.(timedOut := c'.timedOut, heartbeat := c'.heartbeat, timeouts := c'.timeouts,
                      timeoutCount := c'.timeoutCount, netCounter := c'.netCounter, block := c'.block)
    ensures Core(home, c', {})
  {
    hide Base, Live, Listed;
    forall sh | sh in c'.shardNetwork ensures Base(home, c', sh) && Live(c', sh) {
      RemoveBase(home, c, c', sh);
      LiveFrame(c, c', sh);
    }
    forall n | n in c'.unassigned ensures Listed(home, c', n, c'.unassigned[n]) {
      StayListed(home, c, c', n, c'.unassigned[n]);
    }
  }

  lemma LiveFrame(c: Chain, c': Chain, sh: Shard)
    requires Live(c, sh) && c'.online == c.online
    requires sh in c'.members && sh in c'.state && sh in c'.threshold
    requires c'.members[sh].Keys == c.members[sh].Keys && c'.threshold[sh] == c.threshold[sh]
    requires c'.state[sh] == c.state[sh] && CountOf(c', sh) == CountOf(c, sh)
    ensures Live(c', sh)
  {
    assert OnlineMembers(c', sh) == OnlineMembers(c, sh);
  }

  lemma TimersFrame(c: Chain, c': Chain, lo: nat, hi: nat)
    requires Timers(c, lo, hi)
    requires c'.timeouts == c.timeouts && c'.timeoutCount == c.timeoutCount && c'.nextShard == c.nextShard
    requires forall sh :: sh in c'.shardNetwork && sh in c'.state && InDkg(c'.state[sh]) ==>
                            sh in c.shardNetwork && sh in c.state && InDkg(c.state[sh])
    ensures Timers(c', lo, hi)
  {
    forall sh | sh in c'.shardNetwork && sh in c'.state && InDkg(c'.state[sh]) ensures HasTimer(c', sh) {
      assert HasTimer(c, sh);
    }
  }

  lemma TimeoutBeats(c: Chain, c': Chain, now: seq<Account>, later: seq<Account>, beating: seq<Account>)
    requires Beats(c) && multiset(now) + multiset(later) == multiset(c.timedOut)
    requires multiset(beating) == multiset(c.heartbeat)
    requires c'.timedOut == later + beating && c'.heartbeat == {}
    requires forall m :: m in c'.online <==> m in c.online && m !in now
    ensures Beats(c')
  {
    assert multiset(later + beating) == multiset(later) + multiset(beating);
    forall m
      ensures multiset(later + beating)[m] <= 1
      ensures m in c'.online <==> m in later + beating
    {
      assert m in c.timedOut <==> multiset(c.timedOut)[m] > 0;
      assert m in now <==> multiset(now)[m] > 0;
      assert m in later <==> multiset(later)[m] > 0;
      assert m in beating <==> multiset(beating)[m] > 0;
    }
  }

  /** The hook of the members pallet. */
  lemma TimeoutHeartbeatsKeeps(cfg: Config, home: Home, c: Chain, order: seq<Network>, beating: seq<Account>, lo: nat,
                               hi: nat)
    requires Core(home, c, {}) && Beats(c) && Timers(c, lo, hi)
    requires ListsNetworks(order, SplitTimedOut(c.timedOut, c.network, cfg.maxTimeouts).0, c.network)
    requires multiset(beating) == multiset(c.heartbeat)
    ensures var c' := TimeoutHeartbeats(cfg, c, order, beating);
            Core(home, c', {}) && Beats(c') && Timers(c', lo, hi) && c'.block == c.block
  {
    hide Core, Timers, OfflineByNetwork, SplitTimedOut;
    var (now, later) := SplitTimedOut(c.timedOut, c.network, cfg.maxTimeouts);
    SplitCounts(c.timedOut, c.network, cfg.maxTimeouts);
    HomesOf(home, c);
    forall m | m in now ensures m in c.online {
      assert m in multiset(c.timedOut);
    }
    OfflineByNetworkKeeps(home, c, now, c.network, order, lo, hi);
    var c1 := OfflineByNetwork(c, now, c.network, order);
    var c' := TimeoutHeartbeats(cfg, c, order, beating);
    CoreFrame(home, c1, c');
    TimersFrame(c1, c', lo, hi);
    TimeoutBeats(c, c', now, later, beating);
  }

  lemma HomesOf(home: Home, c: Chain)
    requires Core(home, c, {})
    ensures Homes(home, c)
  {}

  // ------------------------------------------------------------- dkg timeouts

  lemma TimeoutTimers(c: Chain, n: Block, hi: nat)
    requires Timers(c, n, hi)
    ensures Timers(TimeoutDkgs(c, n), n + 1, hi)
  {
    hide Returning, Released, NetworksOf;
    var c' := TimeoutDkgs(c, n);
    forall sh | sh in c'.shardNetwork && sh in c'.state && InDkg(c'.state[sh]) ensures HasTimer(c', sh) {
      assert HasTimer(c, sh);
      var b :| b in c.timeouts && sh in c.timeouts[b];
      assert b != n || sh in DueDkgs(c, n);
      assert sh in c'.timeouts[b];
    }
  }

  lemma TimeoutDkgsKeeps(home: Home, c: Chain, n: Block, hi: nat)
    requires Core(home, c, {}) && Beats(c) && Timers(c, n, hi)
    ensures var c' := TimeoutDkgs(c, n);
            Core(home, c', {}) && Beats(c') && Timers(c', n + 1, hi) && c'.block == c.block
  {
    hide Core, Timers, Returning, Released, NetworksOf, DueDkgs, Gone;
    TimeoutTimers(c, n, hi);
    CoreWeaken(home, c, DueDkgs(c, n));
    RemoveKeepsCore(home, c, DueDkgs(c, n));
    CoreFrame(home, RemoveShards(c, DueDkgs(c, n)), TimeoutDkgs(c, n));
  }

  lemma CoreWeaken(home: Home, c: Chain, except: set<Shard>)
    requires Core(home, c, {})
    ensures Core(home, c, except)
  {
    hide Homes, Pools, Links, Bases, Live;
  }

  // ------------------------------------------------------- single-member calls

  /** The branch of `Shards::member_online` for shards in key generation is never taken. */
  lemma ReturningMemberIsNotInDkg(home: Home, c: Chain, m: Account)
    requires Core(home, c, {}) && m !in c.online && m in c.memberShard
    ensures c.memberShard[m] in c.state && !InDkg(c.state[c.memberShard[m]])
  {
    hide StatusOk;
    assert Live(c, c.memberShard[m]);
  }

  lemma ForcedOfflineKeeps(cfg: Config, home: Home, c: Chain, sh: Shard)
    requires Inv(cfg, home, c)
    ensures Inv(cfg, home, RemoveShards(c, {sh}))
  {
    hide Core, Timers, Returning, Released, NetworksOf, Gone;
    CoreWeaken(home, c, {sh});
    RemoveKeepsCore(home, c, {sh});
    RemoveTimers(c, {sh}, c.block + 1, c.block + cfg.dkgTimeout);
  }

  lemma RegisterKeeps(cfg: Config, home: Home, c: Chain, m: Account)
    requires Inv(cfg, home, c)
    ensures Inv(cfg, home, Register(c, m, home(m)))
  {
    hide Core, Timers, Beats;
    HomesOf(home, c);
    NetworkFrame(home, c, Register(c, m, home(m)));
    TimersFrame(c, Register(c, m, home(m)), c.block + 1, c.block + cfg.dkgTimeout);
    BeatsFrame(c, Register(c, m, home(m)));
  }

  lemma BeatsFrame(c: Chain, c': Chain)
    requires Beats(c) && c'.online == c.online && c'.heartbeat == c.heartbeat && c'.timedOut == c.timedOut
    ensures Beats(c')
  {}

  lemma NetworkFrame(home: Home, c: Chain, c': Chain)
    requires Core(home, c, {}) && Homes(home, c')
    requires c' == c.(network := c'.network, registered := c'.registered)
    ensures Core(home, c', {})
  {
    hide Base, Live, Listed;
    forall sh | sh in c'.shardNetwork ensures Base(home, c', sh) && Live(c', sh) {
      RemoveBase(home, c, c', sh);
      LiveFrame(c, c', sh);
    }
    forall n | n in c'.unassigned ensures Listed(home, c', n, c'.unassigned[n]) {
      StayListed(home, c, c', n, c'.unassigned[n]);
    }
  }

  lemma UnregisterKeeps(cfg: Config, home: Home, c: Chain, m: Account)
    requires Inv(cfg, home, c) && Unregister(c, m).Some?
    ensures Inv(cfg, home, Unregister(c, m).value)
  {
    hide Core, Timers, Beats;
    HomesOf(home, c);
    var c' := Unregister(c, m).value;
    NetworkFrame(home, c, c');
    TimersFrame(c, c', c.block + 1, c.block + cfg.dkgTimeout);
    BeatsFrame(c, c');
  }

  lemma OnlineUnassigned(home: Home, c: Chain, m: Account, n: Network)
    requires Core(home, c, {}) && m !in c.online && m !in c.memberShard && home(m) == n
    ensures MemberOnline(c, m, n)
            == c.(online := c.online + {m}, unassigned := c.unassigned[n := SortDescending(Pool(c, n) + [m])])
    ensures Core(home, MemberOnline(c, m, n), {})
  {
    hide Base, Live, Listed, SortDescending;
    var c' := c.(online := c.online + {m}, unassigned := c.unassigned[n := SortDescending(Pool(c, n) + [m])]);
    assert MemberOnline(c, m, n) == c';
    forall k | k in c'.unassigned ensures Listed(home, c', k, c'.unassigned[k]) {
      OnlineListed(home, c, c', m, n, k);
    }
    forall sh | sh in c'.shardNetwork ensures Live(c', sh) {
      OnlineStranger(c, c', m, sh);
    }
    CoreParts(home, c, c');
  }

  lemma OnlineListed(home: Home, c: Chain, c': Chain, m: Account, n: Network, k: Network)
    requires Pools(home, c) && m !in c.online && m !in c.memberShard && home(m) == n
    requires c' == c.(online := c.online + {m}, unassigned := c.unassigned[n := SortDescending(Pool(c, n) + [m])])
    requires k in c'.unassigned
    ensures Listed(home, c', k, c'.unassigned[k])
  {
    hide SortDescending;
    assert Listed(home, c, k, Pool(c, k));
    if k == n {
      assert multiset([m]) == multiset({m});
      MergeSorted(Pool(c, n), [m], {m});
    }
  }

  lemma OnlineStranger(c: Chain, c': Chain, m: Account, sh: Shard)
    requires Links(c) && Live(c, sh) && m !in c.memberShard
    requires c' == c.(online := c.online + {m}, unassigned := c'.unassigned)
    ensures Live(c', sh)
  {
    assert OnlineMembers(c', sh) == OnlineMembers(c, sh);
  }

  lemma OnlineInShard(home: Home, c: Chain, m: Account, n: Network)
    requires Core(home, c, {}) && m !in c.online && m in c.memberShard
    ensures Core(home, MemberOnline(c, m, n), {})
    ensures MemberOnline(c, m, n) == c.(online := c.online + {m}, onlineCount := MemberOnline(c, m, n).onlineCount)
  {
    hide Core;
    ReturningMemberIsNotInDkg(home, c, m);
    OnlineInShardPools(home, c, m, n);
    OnlineInShardLives(home, c, m, n);
    assert MemberOnline(c, m, n) == c.(online := c.online + {m}, onlineCount := MemberOnline(c, m, n).onlineCount);
    CoreParts(home, c, MemberOnline(c, m, n));
  }

  lemma CoreParts(home: Home, c: Chain, c': Chain)
    requires Core(home, c, {}) && Pools(home, c') && Lives(c', {})
    requires c' == c.(online := c'.online, onlineCount := c'.onlineCount, unassigned := c'.unassigned)
    ensures Core(home, c', {})
  {
    hide Base, Live, Listed;
    forall sh | sh in c'.shardNetwork ensures Base(home, c', sh) {
      RemoveBase(home, c, c', sh);
    }
  }

  lemma OnlineInShardPools(home: Home, c: Chain, m: Account, n: Network)
    requires Core(home, c, {}) && m in c.memberShard
    ensures Pools(home, MemberOnline(c, m, n))
  {
    hide Base, Live, Listed;
    var c' := MemberOnline(c, m, n);
    forall k | k in c'.unassigned ensures Listed(home, c', k, c'.unassigned[k]) {
      GrowListed(home, c, c', k, c'.unassigned[k]);
    }
  }

  lemma OnlineInShardLives(home: Home, c: Chain, m: Account, n: Network)
    requires Core(home, c, {}) && m !in c.online && m in c.memberShard
    requires c.memberShard[m] in c.state && !InDkg(c.state[c.memberShard[m]])
    ensures Lives(MemberOnline(c, m, n), {})
  {
    hide Live, Pools, StatusOk;
    var c' := MemberOnline(c, m, n);
    assert Base(home, c, c.memberShard[m]);
    forall sh | sh in c'.shardNetwork ensures Live(c', sh) {
      OnlineShard(c, c', m, sh);
    }
  }

  lemma GrowListed(home: Home, c: Chain, c': Chain, n: Network, list: seq<Account>)
    requires Listed(home, c, n, list) && c.online <= c'.online && c'.memberShard == c.memberShard
    ensures Listed(home, c', n, list)
  {}

  lemma OnlineShard(c: Chain, c': Chain, m: Account, sh: Shard)
    requires Links(c) && Live(c, sh) && m !in c.online && m in c.memberShard && c.memberShard[m] in c.state
    requires |c.members[c.memberShard[m]]| < 0x1_0000 && !InDkg(c.state[c.memberShard[m]])
    requires c' == ShardMemberOnline(c.(online := c.online + {m}), m)
    ensures Live(c', sh)
  {
    var before := OnlineMembers(c, sh);
    if sh == c.memberShard[m] {
      assert OnlineMembers(c', sh) == before + {m};
      assert before < c.members[sh].Keys;
      SubsetSize(before, c.members[sh].Keys);
    } else {
      assert OnlineMembers(c', sh) == before;
    }
  }

  lemma MemberOnlineKeeps(home: Home, c: Chain, m: Account)
    requires Core(home, c, {}) && m !in c.online
    ensures var c' := MemberOnline(c, m, home(m));
            && Core(home, c', {})
            && c' == c.(online := c.online + {m}, onlineCount := c'.onlineCount, unassigned := c'.unassigned)
  {
    hide Core;
    if m in c.memberShard {
      OnlineInShard(home, c, m, home(m));
    } else {
      OnlineUnassigned(home, c, m, home(m));
    }
  }

  lemma HeartbeatBeats(c: Chain, c': Chain, m: Account)
    requires Beats(c) && m !in c.heartbeat
    requires c'.online == c.online + {m} && c'.heartbeat == c.heartbeat + {m} && c'.timedOut == Without(c.timedOut, {m})
    ensures Beats(c')
  {
    WithoutKeeps(c.timedOut, {m});
  }

  lemma HeartbeatKeeps(cfg: Config, home: Home, c: Chain, m: Account)
    requires Inv(cfg, home, c) && Heartbeat(c, m).Some?
    ensures Inv(cfg, home, Heartbeat(c, m).value)
  {
    hide Core, Timers, Beats, MemberOnline;
    HomesOf(home, c);
    var c' := Heartbeat(c, m).value;
    var c1 := if m in c.online then c else MemberOnline(c, m, c.network[m]);
    if m !in c.online {
      MemberOnlineKeeps(home, c, m);
    }
    CoreFrame(home, c1, c');
    TimersFrame(c, c', c.block + 1, c.block + cfg.dkgTimeout);
    assert c'.online == c.online + {m};
    HeartbeatBeats(c, c', m);
  }

  // ------------------------------------------------------------- commit and ready

  /** Only the statuses within shard sh, and what follows from them, change. */
  ghost predicate OnlyShard(c: Chain, c': Chain, sh: Shard) {
    && sh in c.members && sh in c'.members && sh in c'.state && c'.members[sh].Keys == c.members[sh].Keys
    && c' == c.(members := c'.members, state := c'.state, commitment := c'.commitment)
    && c'.members == c.members[sh := c'.members[sh]]
    && c'.state == c.state[sh := c'.state[sh]]
    && (forall x :: x != sh ==> (x in c'.commitment <==> x in c.commitment))
  }

  lemma OnlyShardLinks(c: Chain, c': Chain, sh: Shard)
    requires Links(c) && OnlyShard(c, c', sh)
    ensures Links(c')
  {}

  lemma OnlyShardBases(home: Home, c: Chain, c': Chain, sh: Shard)
    requires Bases(home, c) && OnlyShard(c, c', sh) && Base(home, c', sh)
    ensures Bases(home, c')
  {
    hide Base, Live;
    var s' := c'.state[sh];
    forall x | x in c'.shardNetwork ensures Base(home, c', x) {
      if x != sh {
        OtherBase(home, c, c', sh, x);
      }
    }
    BaseFacts(home, c', sh);
  }

  lemma BaseFacts(home: Home, c: Chain, sh: Shard)
    requires Base(home, c, sh)
    ensures sh < c.nextShard && sh in c.shardNetwork
  {}

  lemma OnlyShardLives(c: Chain, c': Chain, sh: Shard)
    requires Lives(c, {}) && OnlyShard(c, c', sh) && Live(c', sh)
    ensures Lives(c', {})
  {
    hide Live, OnlyShard;
    forall x | x in c'.shardNetwork ensures Live(c', x) {
      if x != sh {
        OtherLive(c, c', sh, x);
      }
    }
  }

  lemma OtherLive(c: Chain, c': Chain, sh: Shard, x: Shard)
    requires OnlyShard(c, c', sh) && Lives(c, {}) && x != sh && x in c'.shardNetwork
    ensures Live(c', x)
  {
    assert Live(c, x);
    LiveFrame(c, c', x);
  }

  lemma OnlyShardPools(home: Home, c: Chain, c': Chain, sh: Shard)
    requires Pools(home, c) && OnlyShard(c, c', sh)
    ensures Pools(home, c')
  {
    hide Listed;
    forall n | n in c'.unassigned ensures Listed(home, c', n, c'.unassigned[n]) {
      StayListed(home, c, c', n, c'.unassigned[n]);
    }
  }

  lemma MembersFrame(home: Home, c: Chain, c': Chain, sh: Shard)
    requires Core(home, c, {}) && OnlyShard(c, c', sh) && Base(home, c', sh) && Live(c', sh)
    ensures Core(home, c', {})
  {
    OnlyShardHomes(home, c, c', sh);
    hide OnlyShard, Homes, Pools, Links, Bases, Lives, Base, Live;
    OnlyShardLinks(c, c', sh);
    OnlyShardBases(home, c, c', sh);
    OnlyShardLives(c, c', sh);
    OnlyShardPools(home, c, c', sh);
  }

  lemma OnlyShardHomes(home: Home, c: Chain, c': Chain, sh: Shard)
    requires Homes(home, c) && OnlyShard(c, c', sh)
    ensures Homes(home, c')
  {}

  lemma OtherBase(home: Home, c: Chain, c': Chain, sh: Shard, x: Shard)
    requires Base(home, c, x) && x != sh && OnlyShard(c, c', sh)
    ensures Base(home, c', x)
  {
    hide StatusOk;
  }

  lemma CommitStatus(s: ShardStatus, ms: map<Account, MemberStatus>, committed: bool, m: Account,
                     commitment: Polynomials.Commitment)
    requires StatusOk(s, ms, committed) && m in ms && ms[m].Added?
    ensures s.Created? && !committed
    ensures var ms' := ms[m := Submitted(commitment)];
            if AllSubmitted(ms') then StatusOk(ShardStatus.Committed, ms', true) else StatusOk(Created, ms', false)
  {
    var ms' := ms[m := Submitted(commitment)];
    assert ms'[m].Submitted?;
    if !AllSubmitted(ms') {
      var a :| a in ms' && !ms'[a].Submitted?;
      assert ms'[a] == ms[a];
    }
  }

  lemma ReadyStatus(s: ShardStatus, ms: map<Account, MemberStatus>, m: Account)
    requires StatusOk(s, ms, true) && m in ms && ms[m].Submitted?
    ensures s.Committed?
    ensures var ms' := ms[m := Ready];
            StatusOk(if AllReady(ms') then ShardStatus.Online else ShardStatus.Committed, ms', true)
  {
    var ms' := ms[m := Ready];
    assert ms'[m].Ready?;
    if !AllReady(ms') {
      var a :| a in ms' && !ms'[a].Ready?;
      assert ms'[a] == ms[a];
    }
  }

  /** Moving on within key generation keeps a shard live, whose members are all online. */
  lemma DkgLive(home: Home, c: Chain, c': Chain, sh: Shard)
    requires Base(home, c, sh) && Live(c, sh) && InDkg(c.state[sh]) && OnlyShard(c, c', sh) && !c'.state[sh].Offline?
    ensures Live(c', sh)
  {
    hide StatusOk;
    assert OnlineMembers(c', sh) == OnlineMembers(c, sh);
    assert OnlineMembers(c, sh) == c.members[sh].Keys;
  }

  lemma DkgBase(home: Home, c: Chain, c': Chain, sh: Shard)
    requires Base(home, c, sh) && OnlyShard(c, c', sh)
    requires StatusOk(c'.state[sh], c'.members[sh], sh in c'.commitment)
    ensures Base(home, c', sh)
  {
    hide StatusOk;
    assert |c'.members[sh].Keys| == |c.members[sh].Keys|;
  }

  lemma CoreShard(home: Home, c: Chain, sh: Shard)
    requires Core(home, c, {}) && sh in c.members
    ensures Base(home, c, sh) && Live(c, sh) && sh in c.state
            && StatusOk(c.state[sh], c.members[sh], sh in c.commitment)
    ensures sh in c.shardNetwork
  {
    hide StatusOk, Links, Pools;
  }

  lemma DkgTimers(c: Chain, c': Chain, sh: Shard, lo: nat, hi: nat)
    requires Timers(c, lo, hi) && OnlyShard(c, c', sh) && sh in c.shardNetwork && sh in c.state && InDkg(c.state[sh])
    ensures Timers(c', lo, hi)
  {
    TimersFrame(c, c', lo, hi);
  }

  lemma CommitTouches(c: Chain, m: Account, sh: Shard, commitment: Polynomials.Commitment, genuine: bool,
                      order: seq<Account>)
    requires Lists(order, MembersOf(c, sh)) && Commit(c, m, sh, commitment, genuine, order).Some?
    requires sh in c.state && c.state[sh].Created? && sh !in c.commitment
    ensures var c' := Commit(c, m, sh, commitment, genuine, order).value;
            && sh in c.members && m in c.members[sh] && c.members[sh][m].Added?
            && OnlyShard(c, c', sh)
            && c'.members[sh] == c.members[sh][m := Submitted(commitment)]
            && c'.state[sh] == (if AllSubmitted(c'.members[sh]) then ShardStatus.Committed else Created)
            && (sh in c'.commitment <==> AllSubmitted(c'.members[sh]))
  {
    hide Lists, AllSubmitted, DkgSpec.GroupCommitment, Collected;
    var c' := Commit(c, m, sh, commitment, genuine, order).value;
    assert c'.members[sh].Keys == c.members[sh].Keys;
  }

  lemma ReadyTouches(c: Chain, m: Account, sh: Shard)
    requires MarkReady(c, m, sh).Some? && sh in c.state && c.state[sh].Committed?
    ensures var c' := MarkReady(c, m, sh).value;
            && sh in c.members && OnlyShard(c, c', sh)
            && c'.members[sh] == c.members[sh][m := Ready] && c'.commitment == c.commitment
            && c'.state[sh] == (if AllReady(c'.members[sh]) then ShardStatus.Online else ShardStatus.Committed)
  {
    hide AllReady;
    var c' := MarkReady(c, m, sh).value;
    assert c'.members[sh].Keys == c.members[sh].Keys;
  }

  /** A shard in key generation moves on, its statuses again matching its members'. */
  lemma DkgMoves(cfg: Config, home: Home, c: Chain, c': Chain, sh: Shard)
    requires Inv(cfg, home, c) && OnlyShard(c, c', sh) && sh in c.state && InDkg(c.state[sh])
    requires StatusOk(c'.state[sh], c'.members[sh], sh in c'.commitment) && !c'.state[sh].Offline?
    ensures Inv(cfg, home, c')
  {
    hide Core, Timers, Beats, Base, Live, StatusOk, OnlyShard;
    InShard(c, c', sh);
    CoreShard(home, c, sh);
    DkgBase(home, c, c', sh);
    DkgLive(home, c, c', sh);
    MembersFrame(home, c, c', sh);
    DkgTimers(c, c', sh, c.block + 1, c.block + cfg.dkgTimeout);
    BeatsFrame(c, c');
  }

  lemma InShard(c: Chain, c': Chain, sh: Shard)
    requires OnlyShard(c, c', sh)
    ensures sh in c.members && c'.block == c.block && c'.online == c.online
    ensures c'.heartbeat == c.heartbeat && c'.timedOut == c.timedOut
  {}

  lemma CommitKeeps(cfg: Config, home: Home, c: Chain, m: Account, sh: Shard, commitment: Polynomials.Commitment,
                    genuine: bool, order: seq<Account>)
    requires Inv(cfg, home, c) && Lists(order, MembersOf(c, sh))
    requires Commit(c, m, sh, commitment, genuine, order).Some?
    ensures Inv(cfg, home, Commit(c, m, sh, commitment, genuine, order).value)
  {
    hide Core, Timers, Beats, Base, Live, StatusOk, Lists, OnlyShard;
    CoreShard(home, c, sh);
    CommitStatus(c.state[sh], c.members[sh], sh in c.commitment, m, commitment);
    CommitTouches(c, m, sh, commitment, genuine, order);
    DkgMoves(cfg, home, c, Commit(c, m, sh, commitment, genuine, order).value, sh);
  }

  lemma ReadyKeeps(cfg: Config, home: Home, c: Chain, m: Account, sh: Shard)
    requires Inv(cfg, home, c) && MarkReady(c, m, sh).Some?
    ensures Inv(cfg, home, MarkReady(c, m, sh).value)
  {
    hide Core, Timers, Beats, Base, Live, StatusOk, OnlyShard;
    CoreShard(home, c, sh);
    ReadyStatus(c.state[sh], c.members[sh], m);
    ReadyTouches(c, m, sh);
    DkgMoves(cfg, home, c, MarkReady(c, m, sh).value, sh);
  }
}
