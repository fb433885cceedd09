/** Elections: creating shards from the pool keeps the invariant and loses no member. */
module LifecycleElections {
  import opened Options
  import opened Sequences
  import opened LifecycleSpec
  import opened LifecycleInvariant
  import opened LifecycleSteps

  /** Members that may be put into a shard of network n. */
  ghost predicate Candidates(home: Home, c: Chain, n: Network, ms: seq<Account>) {
    && Listed(home, c, n, ms)
    && forall k, m :: k in c.unassigned && m in ms ==> m !in c.unassigned[k]
  }

  /** What creating a shard does, field by field. */
  ghost predicate Adds(cfg: Config, c: Chain, n: Network, ms: seq<Account>, t: nat, c': Chain) {
    var b, sh := c.block + cfg.dkgTimeout, c.nextShard;
    && SameOutside(c, c') && c'.nextShard == sh + 1 && c'.commitment == c.commitment
    && c'.timeoutCount == c.timeoutCount[b := TimeoutCountAt(c, b) + 1]
    && c'.timeouts == c.timeouts[b := TimeoutsAt(c, b) + {sh}]
    && c'.shardNetwork == c.shardNetwork[sh := n]
    && c'.state == c.state[sh := Created]
    && c'.threshold == c.threshold[sh := t]
    && c'.members == c.members[sh := MembersOf(c, sh) + AllAdded(ms)]
    && c'.memberShard == c.memberShard + (map m | m in ms :: sh)
    && c'.onlineCount == c.onlineCount[sh := |ms|]
  }

  ghost function AllAdded(ms: seq<Account>): (m: map<Account, MemberStatus>) {
    map a | a in ms :: Added
  }

  /** What creating shards does not touch. */
  ghost predicate SameOutside(c: Chain, c': Chain) {
    && c'.block == c.block && c'.network == c.network && c'.registered == c.registered && c'.online == c.online
    && c'.heartbeat == c.heartbeat && c'.timedOut == c.timedOut && c'.unassigned == c.unassigned
    && c'.netCounter == c.netCounter
  }

  lemma CreateAdds(cfg: Config, c: Chain, n: Network, ms: seq<Account>, t: nat, c': Chain)
    requires CreateShard(cfg, c, n, ms, t) == Some(c')
    ensures Adds(cfg, c, n, ms, t, c')
  {}

  lemma NextIsFresh(home: Home, c: Chain)
    requires Core(home, c, {})
    ensures c.nextShard !in c.members && c.nextShard !in c.shardNetwork && c.nextShard !in c.commitment
    ensures forall sh :: sh >= c.nextShard ==> sh !in c.members
  {
    hide StatusOk, Links, Pools;
    forall sh | sh in c.shardNetwork ensures sh < c.nextShard {
      assert Base(home, c, sh);
    }
  }

  /** The new shard, seen on its own. */
  ghost predicate NewShard(c': Chain, sh: Shard, n: Network, ms: seq<Account>, t: nat) {
    && sh in c'.shardNetwork && c'.shardNetwork[sh] == n && sh < c'.nextShard && sh !in c'.commitment
    && sh in c'.state && c'.state[sh].Created? && sh in c'.threshold && c'.threshold[sh] == t
    && sh in c'.members && c'.members[sh] == AllAdded(ms) && CountOf(c', sh) == |ms|
  }

  lemma AddsNewShard(cfg: Config, c: Chain, n: Network, ms: seq<Account>, t: nat, c': Chain)
    requires Adds(cfg, c, n, ms, t, c') && c.nextShard !in c.members && c.nextShard !in c.commitment
    ensures NewShard(c', c.nextShard, n, ms, t)
  {
    assert map[] + AllAdded(ms) == AllAdded(ms);
  }

  lemma AllAddedSize(ms: seq<Account>)
    requires NoDuplicates(ms)
    ensures |AllAdded(ms)| == |ms| && AllAdded(ms).Keys == Elements(ms)
  {
    NoDuplicatesSize(ms);
    assert AllAdded(ms).Keys == Elements(ms);
    assert |AllAdded(ms)| == |AllAdded(ms).Keys|;
  }

  lemma NewShardBase(home: Home, c': Chain, sh: Shard, n: Network, ms: seq<Account>, t: nat)
    requires NewShard(c', sh, n, ms, t) && NoDuplicates(ms) && 1 <= t <= |ms| < 0x1_0000
    requires forall m :: m in ms ==> home(m) == n
    ensures Base(home, c', sh)
  {
    hide NoDuplicates;
    AllAddedSize(ms);
    assert ms[0] in c'.members[sh] && c'.members[sh][ms[0]].Added?;
  }

  lemma NewShardLive(c': Chain, sh: Shard, n: Network, ms: seq<Account>, t: nat)
    requires NewShard(c', sh, n, ms, t) && NoDuplicates(ms) && forall m :: m in ms ==> m in c'.online
    ensures Live(c', sh)
  {
    hide NoDuplicates;
    AllAddedSize(ms);
    assert OnlineMembers(c', sh) == AllAdded(ms).Keys;
  }

  lemma AddsBase(cfg: Config, home: Home, c: Chain, n: Network, ms: seq<Account>, t: nat, c': Chain)
    requires Adds(cfg, c, n, ms, t, c') && Candidates(home, c, n, ms)
    requires c.nextShard !in c.members && c.nextShard !in c.commitment && 1 <= t <= |ms| < 0x1_0000
    ensures Base(home, c', c.nextShard) && Live(c', c.nextShard)
  {
    hide NewShard, Base, Live, NoDuplicates;
    AddsNewShard(cfg, c, n, ms, t, c');
    NewShardBase(home, c', c.nextShard, n, ms, t);
    NewShardLive(c', c.nextShard, n, ms, t);
  }

  lemma AddsStates(cfg: Config, home: Home, c: Chain, n: Network, ms: seq<Account>, t: nat, c': Chain)
    requires Bases(home, c) && Adds(cfg, c, n, ms, t, c')
    ensures c'.shardNetwork.Keys == c'.members.Keys == c'.threshold.Keys <= c'.state.Keys
    ensures forall sh :: sh in c'.state && sh !in c'.shardNetwork ==> c'.state[sh].Offline?
    ensures forall sh :: 0 <= sh < c'.nextShard ==> sh in c'.state
    ensures forall sh :: sh in c'.commitment ==> sh < c'.nextShard
  {
    hide Base;
  }

  lemma AddsBases(cfg: Config, home: Home, c: Chain, n: Network, ms: seq<Account>, t: nat, c': Chain)
    requires Bases(home, c) && Adds(cfg, c, n, ms, t, c') && Base(home, c', c.nextShard)
    ensures Bases(home, c')
  {
    hide Base;
    AddsStates(cfg, home, c, n, ms, t, c');
    assert forall x :: x in c'.shardNetwork ==> Base(home, c', x) by {
      forall x | x in c'.shardNetwork ensures Base(home, c', x) {
        if x != c.nextShard {
          RemoveBase(home, c, c', x);
        }
      }
    }
  }

  lemma AddsLives(cfg: Config, home: Home, c: Chain, n: Network, ms: seq<Account>, t: nat, c': Chain)
    requires Lives(c, {}) && Bases(home, c) && Adds(cfg, c, n, ms, t, c') && Live(c', c.nextShard)
    ensures Lives(c', {})
  {
    hide Base, Live;
    forall x | x in c'.shardNetwork ensures Live(c', x) {
      if x != c.nextShard {
        LiveFrame(c, c', x);
      }
    }
  }

  lemma AddsLinks(cfg: Config, c: Chain, n: Network, ms: seq<Account>, t: nat, c': Chain)
    requires Links(c) && Adds(cfg, c, n, ms, t, c') && c.nextShard !in c.members
    requires forall m :: m in ms ==> m !in c.memberShard
    ensures Links(c')
  {}

  lemma AddsPools(cfg: Config, home: Home, c: Chain, n: Network, ms: seq<Account>, t: nat, c': Chain)
    requires Pools(home, c) && Adds(cfg, c, n, ms, t, c') && Candidates(home, c, n, ms)
    ensures Pools(home, c')
  {
    forall k | k in c'.unassigned ensures Listed(home, c', k, c'.unassigned[k]) {
      assert Listed(home, c, k, c.unassigned[k]);
    }
  }

  lemma AddsHomes(cfg: Config, home: Home, c: Chain, n: Network, ms: seq<Account>, t: nat, c': Chain)
    requires Homes(home, c) && Adds(cfg, c, n, ms, t, c')
    ensures Homes(home, c')
  {}

  lemma CandidatesFree(home: Home, c: Chain, n: Network, ms: seq<Account>)
    requires Candidates(home, c, n, ms)
    ensures forall m :: m in ms ==> m !in c.memberShard
  {}

  lemma AddsKeepsCore(cfg: Config, home: Home, c: Chain, n: Network, ms: seq<Account>, t: nat, c': Chain)
    requires Core(home, c, {}) && Adds(cfg, c, n, ms, t, c') && Candidates(home, c, n, ms)
    requires 1 <= t <= |ms| < 0x1_0000
    ensures Core(home, c', {})
  {
    hide Homes, Pools, Links, Bases, Lives, Base, Live, Adds, Candidates;
    CandidatesFree(home, c, n, ms);
    NextIsFresh(home, c);
    AddsHomes(cfg, home, c, n, ms, t, c');
    AddsBase(cfg, home, c, n, ms, t, c');
    AddsBases(cfg, home, c, n, ms, t, c');
    AddsLives(cfg, home, c, n, ms, t, c');
    AddsLinks(cfg, c, n, ms, t, c');
    AddsPools(cfg, home, c, n, ms, t, c');
  }

  lemma AddsTimer(cfg: Config, c: Chain, n: Network, ms: seq<Account>, t: nat, c': Chain, x: Shard)
    requires Adds(cfg, c, n, ms, t, c') && (x == c.nextShard || HasTimer(c, x))
    ensures HasTimer(c', x)
  {
    var b := c.block + cfg.dkgTimeout;
    if x == c.nextShard {
      assert x in c'.timeouts[b];
    } else {
      var d :| d in c.timeouts && x in c.timeouts[d];
      assert x in c'.timeouts[d];
    }
  }

  lemma AddsCounts(cfg: Config, c: Chain, n: Network, ms: seq<Account>, t: nat, c': Chain, lo: nat, hi: nat, b: Block)
    requires Timers(c, lo, hi) && Adds(cfg, c, n, ms, t, c') && lo <= c.block + cfg.dkgTimeout <= hi && b in c'.timeouts
    ensures lo <= b <= hi && b in c'.timeoutCount && c'.timeoutCount[b] == |c'.timeouts[b]|
  {
    hide HasTimer;
    assert c.nextShard !in TimeoutsAt(c, c.block + cfg.dkgTimeout);
  }

  lemma AddsUnique(cfg: Config, c: Chain, n: Network, ms: seq<Account>, t: nat, c': Chain, lo: nat, hi: nat, b: Block,
                   d: Block, sh: Shard)
    requires Timers(c, lo, hi) && Adds(cfg, c, n, ms, t, c')
    requires sh in TimeoutsAt(c', b) && sh in TimeoutsAt(c', d)
    ensures b == d && sh < c'.nextShard
  {
    hide HasTimer;
  }

  lemma AddsTimers(cfg: Config, c: Chain, n: Network, ms: seq<Account>, t: nat, c': Chain, lo: nat, hi: nat)
    requires Timers(c, lo, hi) && Adds(cfg, c, n, ms, t, c') && lo <= c.block + cfg.dkgTimeout <= hi
    ensures Timers(c', lo, hi)
  {
    hide HasTimer;
    forall x | x in c'.shardNetwork && x in c'.state && InDkg(c'.state[x]) ensures HasTimer(c', x) {
      AddsTimer(cfg, c, n, ms, t, c', x);
    }
    AddsTimes(cfg, c, n, ms, t, c', lo, hi);
  }

  lemma AddsTimes(cfg: Config, c: Chain, n: Network, ms: seq<Account>, t: nat, c': Chain, lo: nat, hi: nat)
    requires Timers(c, lo, hi) && Adds(cfg, c, n, ms, t, c') && lo <= c.block + cfg.dkgTimeout <= hi
    ensures c'.timeouts.Keys == c'.timeoutCount.Keys
    ensures forall b :: b in c'.timeouts ==> lo <= b <= hi && c'.timeoutCount[b] == |c'.timeouts[b]|
    ensures forall b, sh :: b in c'.timeouts && sh in c'.timeouts[b] ==> sh < c'.nextShard
    ensures forall b, d, sh :: b in c'.timeouts && d in c'.timeouts && sh in c'.timeouts[b] && sh in c'.timeouts[d] ==>
              b == d
  {
    assert c'.timeouts.Keys == c'.timeoutCount.Keys by {
      assert c.timeouts.Keys == c.timeoutCount.Keys;
    }
    hide HasTimer, Timers, Adds;
    forall b | b in c'.timeouts ensures lo <= b <= hi && c'.timeoutCount[b] == |c'.timeouts[b]| {
      AddsCounts(cfg, c, n, ms, t, c', lo, hi, b);
    }
    forall b, d, sh | b in c'.timeouts && d in c'.timeouts && sh in c'.timeouts[b] && sh in c'.timeouts[d]
        ensures b == d && sh < c'.nextShard {
      AddsUnique(cfg, c, n, ms, t, c', lo, hi, b, d, sh);
    }
  }

  // ------------------------------------------------------------- many shards

  lemma SplitCandidates(home: Home, c: Chain, n: Network, ms: seq<Account>, k: nat)
    requires Candidates(home, c, n, ms) && k <= |ms|
    ensures Candidates(home, c, n, ms[..k]) && Candidates(home, c, n, ms[k..])
    ensures forall m :: m in ms[..k] ==> m !in ms[k..]
  {
    SplitNoDuplicates(ms, k);
  }

  lemma AddsLeaves(cfg: Config, home: Home, c: Chain, n: Network, ms: seq<Account>, t: nat, c': Chain,
                   rest: seq<Account>)
    requires Adds(cfg, c, n, ms, t, c') && Candidates(home, c, n, rest)
    requires forall m :: m in ms ==> m !in rest
    ensures Candidates(home, c', n, rest)
  {}

  lemma AddsCounter(cfg: Config, c: Chain, n: Network, ms: seq<Account>, t: nat, c': Chain)
    requires Adds(cfg, c, n, ms, t, c')
    ensures SameOutside(c, c')
    ensures var b := c.block + cfg.dkgTimeout; TimeoutCountAt(c', b) == TimeoutCountAt(c, b) + 1
  {}

  lemma {:induction false} CreateShardsKeeps(cfg: Config, home: Home, c: Chain, n: Network, ms: seq<Account>,
                                             size: nat, t: nat, lo: nat, hi: nat)
    requires Core(home, c, {}) && Timers(c, lo, hi) && lo <= c.block + cfg.dkgTimeout <= hi
    requires Candidates(home, c, n, ms) && 1 <= t <= size < 0x1_0000 && |ms| % size == 0
    ensures var (c', left, k) := CreateShards(cfg, c, n, ms, size, t);
            && Core(home, c', {}) && Timers(c', lo, hi) && SameOutside(c, c')
            && Candidates(home, c', n, left)
            && TimeoutCountAt(c', c.block + cfg.dkgTimeout) == TimeoutCountAt(c, c.block + cfg.dkgTimeout) + k
    decreases |ms|
  {
    hide Core, Timers, Candidates, CreateShard, TimeoutCountAt, Adds;
    if ms != [] {
      ChunkFits(|ms|, size);
      var r := CreateShard(cfg, c, n, ms[..size], t);
      if r.Some? {
        CreateAdds(cfg, c, n, ms[..size], t, r.value);
        SplitCandidates(home, c, n, ms, size);
        AddsCounter(cfg, c, n, ms[..size], t, r.value);
        AddsKeepsCore(cfg, home, c, n, ms[..size], t, r.value);
        AddsTimers(cfg, c, n, ms[..size], t, r.value, lo, hi);
        AddsLeaves(cfg, home, c, n, ms[..size], t, r.value, ms[size..]);
        CreateShardsKeeps(cfg, home, r.value, n, ms[size..], size, t, lo, hi);
      }
    }
  }

  /** With room for every chunk nothing is left over. */
  lemma {:induction false} CreateShardsFit(cfg: Config, c: Chain, n: Network, ms: seq<Account>, size: nat, t: nat,
                                           chunks: nat)
    requires size > 0 && |ms| == chunks * size && |ms| % size == 0
    requires TimeoutCountAt(c, c.block + cfg.dkgTimeout) + chunks <= cfg.maxElections
    ensures CreateShards(cfg, c, n, ms, size, t).1 == [] && CreateShards(cfg, c, n, ms, size, t).2 == chunks
    decreases |ms|
  {
    if ms == [] {
      NoChunks(chunks, size);
    } else {
      ChunkFits(|ms|, size);
      OneChunkLess(chunks, size);
      var r := CreateShard(cfg, c, n, ms[..size], t);
      CreateShardsFit(cfg, r.value, n, ms[size..], size, t, chunks - 1);
    }
  }

  lemma NoChunks(chunks: nat, size: nat)
    requires size > 0 && chunks * size == 0
    ensures chunks == 0
  {}

  lemma OneChunkLess(chunks: nat, size: nat)
    requires size > 0 && chunks * size > 0
    ensures chunks > 0 && (chunks - 1) * size == chunks * size - size
  {}

  // --------------------------------------------------------------- one network

  lemma CreateIgnoresPools(cfg: Config, c: Chain, pools: map<Network, seq<Account>>, n: Network, ms: seq<Account>,
                           t: nat)
    ensures var r := CreateShard(cfg, c, n, ms, t);
            CreateShard(cfg, c.(unassigned := pools), n, ms, t)
                == if r.None? then None else Some(r.value.(unassigned := pools))
  {}

  /** Creating shards neither reads nor writes the pools. */
  lemma {:induction false} CreateShardsIgnorePools(cfg: Config, c: Chain, pools: map<Network, seq<Account>>,
                                                   n: Network, ms: seq<Account>, size: nat, t: nat)
    requires size > 0 && |ms| % size == 0
    ensures var (c', left, k) := CreateShards(cfg, c, n, ms, size, t);
            CreateShards(cfg, c.(unassigned := pools), n, ms, size, t) == (c'.(unassigned := pools), left, k)
    decreases |ms|
  {
    hide CreateShard;
    if ms != [] {
      ChunkFits(|ms|, size);
      var r := CreateShard(cfg, c, n, ms[..size], t);
      CreateIgnoresPools(cfg, c, pools, n, ms[..size], t);
      if r.Some? {
        CreateShardsIgnorePools(cfg, r.value, pools, n, ms[size..], size, t);
      }
    }
  }

  /** The chain once the first k pool members of network n are out of the pool. */
  ghost function Drained(c: Chain, n: Network, k: nat): (c': Chain)
    requires k <= |Pool(c, n)|
  {
    c.(unassigned := c.unassigned[n := Pool(c, n)[k..]])
  }

  lemma DrainedCore(home: Home, c: Chain, n: Network, k: nat)
    requires Core(home, c, {}) && k <= |Pool(c, n)|
    ensures Core(home, Drained(c, n, k), {}) && Candidates(home, Drained(c, n, k), n, Pool(c, n)[..k])
  {
    hide Base, Live;
    var c', pool := Drained(c, n, k), Pool(c, n);
    assert Listed(home, c, n, pool);
    SplitNoDuplicates(pool, k);
    assert Pools(home, c') && Lives(c', {}) by {
      forall x | x in c'.unassigned ensures Listed(home, c', x, c'.unassigned[x]) {
        if x != n {
          assert Listed(home, c, x, c.unassigned[x]);
        }
      }
      forall sh | sh in c'.shardNetwork ensures Live(c', sh) {
        LiveFrame(c, c', sh);
      }
    }
    CoreParts(home, c, c');
    forall x, m | x in c'.unassigned && m in pool[..k] ensures m !in c'.unassigned[x] {
      if x != n {
        assert Listed(home, c, x, c.unassigned[x]);
      }
    }
  }

  lemma RefillPools(home: Home, c: Chain, n: Network, back: seq<Account>)
    requires Core(home, c, {}) && Candidates(home, c, n, back) && n in c.unassigned
    ensures Core(home, c.(unassigned := c.unassigned[n := c.unassigned[n] + back]), {})
  {
    hide Base, Live;
    var c' := c.(unassigned := c.unassigned[n := c.unassigned[n] + back]);
    var pool := c.unassigned[n];
    assert Listed(home, c, n, pool);
    AppendNoDuplicates(pool, back);
    assert Pools(home, c') && Lives(c', {}) by {
      forall x | x in c'.unassigned ensures Listed(home, c', x, c'.unassigned[x]) {
        if x != n {
          assert Listed(home, c, x, c.unassigned[x]);
        }
      }
      forall sh | sh in c'.shardNetwork ensures Live(c', sh) {
        LiveFrame(c, c', sh);
      }
    }
    CoreParts(home, c, c');
  }

  lemma TryElectKeeps(cfg: Config, home: Home, c: Chain, ns: Networks, n: Network, room: nat, lo: nat, hi: nat)
    requires Core(home, c, {}) && Timers(c, lo, hi) && lo <= c.block + cfg.dkgTimeout <= hi
    requires 1 <= ns.Threshold(n) <= ns.Size(n) < 0x1_0000
    ensures var (c', k) := TryElect(cfg, c, ns, n, room);
            && Core(home, c', {}) && Timers(c', lo, hi) && SameOutside(c, c'.(unassigned := c.unassigned))
            && TimeoutCountAt(c', c.block + cfg.dkgTimeout) == TimeoutCountAt(c, c.block + cfg.dkgTimeout) + k
  {
    hide Core, Timers, Candidates, TimeoutCountAt, CreateShards;
    var k := Elected(|Pool(c, n)|, ns.Size(n), room);
    var ms, c0 := Pool(c, n)[..k], Drained(c, n, k);
    DrainedCore(home, c, n, k);
    TimersFrame(c, c0, lo, hi);
    CountFrame(c, c0, c.block + cfg.dkgTimeout);
    CreateShardsKeeps(cfg, home, c0, n, ms, ns.Size(n), ns.Threshold(n), lo, hi);
    CreateShardsIgnorePools(cfg, c, c0.unassigned, n, ms, ns.Size(n), ns.Threshold(n));
    CreateShardsIgnorePools(cfg, c, c.unassigned, n, ms, ns.Size(n), ns.Threshold(n));
    var (c1, back, num) := CreateShards(cfg, c0, n, ms, ns.Size(n), ns.Threshold(n));
    RefillPools(home, c1, n, back);
    var c' := TryElect(cfg, c, ns, n, room).0;
    assert c' == c1.(unassigned := c1.unassigned[n := c1.unassigned[n] + back]);
    TimersFrame(c1, c', lo, hi);
    CountFrame(c1, c', c.block + cfg.dkgTimeout);
  }

  lemma CountFrame(c: Chain, c': Chain, b: Block)
    requires c'.timeoutCount == c.timeoutCount
    ensures TimeoutCountAt(c', b) == TimeoutCountAt(c, b)
  {}

  // ------------------------------------------------------------- the whole hook

  lemma {:induction false} ElectFromKeeps(cfg: Config, home: Home, c: Chain, ns: Networks, start: nat, counter: nat,
                                          num: nat, lo: nat, hi: nat)
    requires ns.Valid() && num <= cfg.maxElections && (start < |ns.list| || counter == start)
    requires Core(home, c, {}) && Timers(c, lo, hi) && lo <= c.block + cfg.dkgTimeout <= hi
    requires TimeoutCountAt(c, c.block + cfg.dkgTimeout) == num
    ensures var r := ElectFrom(cfg, c, ns, start, counter, num);
            && Core(home, r.0, {}) && Timers(r.0, lo, hi) && SameOutside(c, r.0.(unassigned := c.unassigned))
            && TimeoutCountAt(r.0, c.block + cfg.dkgTimeout) == r.2 <= cfg.maxElections
    decreases ToGo(counter, start, |ns.list|)
  {
    hide Core, Timers, TryElect, TimeoutCountAt;
    if num < cfg.maxElections && counter < |ns.list| {
      var n := ns.list[counter];
      TryElectKeeps(cfg, home, c, ns, n, cfg.maxElections - num, lo, hi);
      ElectedWithin(cfg, c, ns, n, cfg.maxElections - num);
      var next := if counter + 1 == |ns.list| then 0 else counter + 1;
      if next != start {
        var (c1, k) := TryElect(cfg, c, ns, n, cfg.maxElections - num);
        ElectFromKeeps(cfg, home, c1, ns, start, next, num + k, lo, hi);
      }
    }
  }

  lemma ElectedShards(pool: nat, size: nat, room: nat) returns (shards: nat)
    requires size > 0
    ensures shards <= room && Elected(pool, size, room) == shards * size
  {
    shards := Lesser(pool / size, room);
  }

  /** In a block whose timer slot is still empty no election fails, whatever the networks ask for. */
  lemma ElectionAlwaysFits(cfg: Config, c: Chain, ns: Networks, n: Network, num: nat)
    requires ns.Size(n) > 0 && num <= cfg.maxElections && TimeoutCountAt(c, c.block + cfg.dkgTimeout) == num
    ensures var k := Elected(|Pool(c, n)|, ns.Size(n), cfg.maxElections - num);
            CreateShards(cfg, c, n, Pool(c, n)[..k], ns.Size(n), ns.Threshold(n)).1 == []
  {
    hide CreateShards, TimeoutCountAt, Elected;
    var shards := ElectedShards(|Pool(c, n)|, ns.Size(n), cfg.maxElections - num);
    var k := Elected(|Pool(c, n)|, ns.Size(n), cfg.maxElections - num);
    CreateShardsFit(cfg, c, n, Pool(c, n)[..k], ns.Size(n), ns.Threshold(n), shards);
  }

  lemma ElectionsHookKeeps(cfg: Config, home: Home, c: Chain, ns: Networks, lo: nat, hi: nat)
    requires ns.Valid() && Core(home, c, {}) && Beats(c) && Timers(c, lo, hi) && lo <= c.block + cfg.dkgTimeout <= hi
    requires TimeoutCountAt(c, c.block + cfg.dkgTimeout) == 0
    ensures var c' := ElectionsHook(cfg, c, ns);
            && Core(home, c', {}) && Beats(c') && Timers(c', lo, hi) && c'.block == c.block
            && TimeoutCountAt(c', c.block + cfg.dkgTimeout) <= cfg.maxElections
  {
    hide Core, Timers, Beats, ElectFrom, TimeoutCountAt;
    ElectFromKeeps(cfg, home, c, ns, c.netCounter, c.netCounter, 0, lo, hi);
    var c1 := ElectFrom(cfg, c, ns, c.netCounter, c.netCounter, 0).0;
    var c' := ElectionsHook(cfg, c, ns);
    CoreFrame(home, c1, c');
    TimersFrame(c1, c', lo, hi);
    CountFrame(c1, c', c.block + cfg.dkgTimeout);
    BeatsFrame(c, c');
  }

  // ---------------------------------------------------------------- conservation

  /** Shard `first + j` holds exactly the j-th chunk of ms. */
  ghost predicate IsChunk(c: Chain, first: Shard, ms: seq<Account>, size: nat, j: nat) {
    && (j + 1) * size <= |ms| && 0 <= j * size <= (j + 1) * size
    && first + j in c.members && c.members[first + j] == AllAdded(ms[j * size..(j + 1) * size])
  }

  lemma ChunkShift(c: Chain, first: Shard, ms: seq<Account>, size: nat, j: nat)
    requires size <= |ms| && IsChunk(c, first + 1, ms[size..], size, j)
    ensures IsChunk(c, first, ms, size, j + 1)
  {
    hide AllAdded;
    assert (j + 1) * size == j * size + size && (j + 2) * size == (j + 1) * size + size;
    assert ms[size..][j * size..(j + 1) * size] == ms[(j + 1) * size..(j + 2) * size];
  }

  lemma RestShift(ms: seq<Account>, size: nat, k: nat)
    requires size <= |ms| && k * size <= |ms| - size
    ensures (k + 1) * size == k * size + size && ms[size..][k * size..] == ms[(k + 1) * size..]
  {
    assert (k + 1) * size == k * size + size;
    assert ms[size..][k * size..] == ms[k * size + size..];
  }

  lemma AddsChunk(cfg: Config, c: Chain, n: Network, ms: seq<Account>, size: nat, t: nat, c': Chain)
    requires size <= |ms| && Adds(cfg, c, n, ms[..size], t, c') && forall sh :: sh >= c.nextShard ==> sh !in c.members
    ensures IsChunk(c', c.nextShard, ms, size, 0) && c'.nextShard == c.nextShard + 1
    ensures forall sh :: sh >= c'.nextShard ==> sh !in c'.members
    ensures SameBelow(c, c', c.nextShard)
  {
    assert map[] + AllAdded(ms[..size]) == AllAdded(ms[..size]);
    assert 0 * size == 0 && 1 * size == size;
    assert ms[0 * size..(0 + 1) * size] == ms[..size];
  }

  ghost predicate SameBelow(c: Chain, c': Chain, bound: Shard) {
    forall sh :: 0 <= sh < bound ==> MembersOf(c', sh) == MembersOf(c, sh) && (sh in c'.members <==> sh in c.members)
  }

  lemma ChunkStays(c: Chain, c': Chain, first: Shard, ms: seq<Account>, size: nat, j: nat, bound: Shard)
    requires IsChunk(c, first, ms, size, j) && SameBelow(c, c', bound) && first + j < bound
    ensures IsChunk(c', first, ms, size, j)
  {
    hide AllAdded;
    assert MembersOf(c', first + j) == MembersOf(c, first + j);
  }

  /** New shards are the consecutive chunks, and what comes back is what follows them. */
  lemma {:induction false} CreateShardsPlace(cfg: Config, c: Chain, n: Network, ms: seq<Account>, size: nat, t: nat)
    requires size > 0 && |ms| % size == 0 && forall sh :: sh >= c.nextShard ==> sh !in c.members
    ensures var (c', left, k) := CreateShards(cfg, c, n, ms, size, t);
            && 0 <= k * size <= |ms| && left == ms[k * size..] && c'.nextShard == c.nextShard + k
            && SameBelow(c, c', c.nextShard)
            && forall j :: 0 <= j < k ==> IsChunk(c', c.nextShard, ms, size, j)
    decreases |ms|
  {
    hide CreateShard, IsChunk, SameBelow, Adds;
    var r := CreateShard(cfg, c, n, if ms == [] then [] else FirstChunk(ms, size), t);
    if ms == [] || r.None? {
      assert SameBelow(c, c, c.nextShard) by { BelowItself(c, c.nextShard); }
      assert 0 * size == 0;
    } else {
      ChunkFits(|ms|, size);
      var c1 := r.value;
      CreateAdds(cfg, c, n, ms[..size], t, c1);
      AddsChunk(cfg, c, n, ms, size, t, c1);
      CreateShardsPlace(cfg, c1, n, ms[size..], size, t);
      var (c', left, k) := CreateShards(cfg, c1, n, ms[size..], size, t);
      RestShift(ms, size, k);
      BelowTrans(c, c1, c', c.nextShard);
      forall j | 0 <= j < k + 1 ensures IsChunk(c', c.nextShard, ms, size, j) {
        if j == 0 {
          ChunkStays(c1, c', c.nextShard, ms, size, 0, c1.nextShard);
        } else {
          ChunkShift(c', c.nextShard, ms, size, j - 1);
        }
      }
    }
  }

  ghost function FirstChunk(ms: seq<Account>, size: nat): (s: seq<Account>)
    requires size > 0 && |ms| % size == 0 && ms != []
  {
    ChunkFits(|ms|, size);
    ms[..size]
  }

  lemma BelowItself(c: Chain, bound: Shard)
    ensures SameBelow(c, c, bound)
  {}

  lemma BelowTrans(c: Chain, c1: Chain, c2: Chain, bound: Shard)
    requires SameBelow(c, c1, bound) && SameBelow(c1, c2, c1.nextShard) && bound <= c1.nextShard
    ensures SameBelow(c, c2, bound)
  {
    forall sh | 0 <= sh < bound
        ensures MembersOf(c2, sh) == MembersOf(c, sh) && (sh in c2.members <==> sh in c.members) {
      assert MembersOf(c1, sh) == MembersOf(c, sh);
    }
  }

  /** k shards hold the first k chunks of the pool, and everybody else is still in the pool. */
  ghost predicate Conserves(c: Chain, c': Chain, n: Network, size: nat, k: nat) {
    && 0 <= k * size <= |Pool(c, n)| && c'.nextShard == c.nextShard + k
    && multiset(Pool(c, n)) == multiset(Pool(c', n)) + multiset(Pool(c, n)[..k * size])
    && (forall j :: 0 <= j < k ==> IsChunk(c', c.nextShard, Pool(c, n), size, j))
    && SameBelow(c, c', c.nextShard)
  }

  lemma FirstParts(cfg: Config, c: Chain, ns: Networks, n: Network, e: nat)
    requires ns.Size(n) > 0 && e <= |Pool(c, n)| && e % ns.Size(n) == 0
    ensures var (c', k) := ElectFirst(cfg, c, ns, n, e);
            var (c1, back, num) := CreateShards(cfg, c, n, Pool(c, n)[..e], ns.Size(n), ns.Threshold(n));
            Pool(c', n) == Pool(c, n)[e..] + back && c'.members == c1.members && c'.nextShard == c1.nextShard
                && k == num
  {
    hide CreateShards;
  }

  lemma FirstConserves(cfg: Config, c: Chain, ns: Networks, n: Network, e: nat)
    requires ns.Size(n) > 0 && e <= |Pool(c, n)| && e % ns.Size(n) == 0
             && forall sh :: sh >= c.nextShard ==> sh !in c.members
    ensures var (c', k) := ElectFirst(cfg, c, ns, n, e); Conserves(c, c', n, ns.Size(n), k)
  {
    hide CreateShards, IsChunk, SameBelow, ElectFirst;
    var pool, size := Pool(c, n), ns.Size(n);
    CreateShardsPlace(cfg, c, n, pool[..e], size, ns.Threshold(n));
    var (c1, back, k) := CreateShards(cfg, c, n, pool[..e], size, ns.Threshold(n));
    var c' := ElectFirst(cfg, c, ns, n, e).0;
    FirstParts(cfg, c, ns, n, e);
    SameMembers(c, c1, c', c.nextShard);
    forall j | 0 <= j < k ensures IsChunk(c', c.nextShard, pool, size, j) {
      ChunkOfPrefix(c1, c', c.nextShard, pool, e, size, j);
    }
    Rearranged(pool, k * size, e);
  }

  /** Election conserves the members, whether or not creating a shard fails on the way. */
  lemma ElectionConserves(cfg: Config, c: Chain, ns: Networks, n: Network, room: nat)
    requires ns.Size(n) > 0 && forall sh :: sh >= c.nextShard ==> sh !in c.members
    ensures var (c', k) := TryElect(cfg, c, ns, n, room); k <= room && Conserves(c, c', n, ns.Size(n), k)
  {
    ElectedWithin(cfg, c, ns, n, room);
    hide ElectFirst, Conserves, Elected;
    FirstConserves(cfg, c, ns, n, Elected(|Pool(c, n)|, ns.Size(n), room));
  }

  lemma SameMembers(c: Chain, c1: Chain, c': Chain, bound: Shard)
    requires SameBelow(c, c1, bound) && c'.members == c1.members
    ensures SameBelow(c, c', bound)
  {
    forall sh | 0 <= sh < bound
        ensures MembersOf(c', sh) == MembersOf(c, sh) && (sh in c'.members <==> sh in c.members) {
      assert MembersOf(c1, sh) == MembersOf(c, sh);
    }
  }

  lemma ChunkOfPrefix(c: Chain, c': Chain, first: Shard, ms: seq<Account>, e: nat, size: nat, j: nat)
    requires e <= |ms| && IsChunk(c, first, ms[..e], size, j) && c'.members == c.members
    ensures IsChunk(c', first, ms, size, j)
  {
    hide AllAdded;
    assert ms[..e][j * size..(j + 1) * size] == ms[j * size..(j + 1) * size];
  }

  lemma Rearranged(pool: seq<Account>, a: nat, e: nat)
    requires a <= e <= |pool|
    ensures multiset(pool) == multiset(pool[e..] + pool[..e][a..]) + multiset(pool[..a])
  {
    assert pool == pool[..a] + pool[..e][a..] + pool[e..];
  }
}
