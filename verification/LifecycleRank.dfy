/** The pools stay sorted and no election fails, so elections take the highest ranked members. */
module LifecycleRank {
  import opened Sequences
  import opened LifecycleSpec
  import opened LifecycleInvariant
  import opened LifecycleSteps
  import opened LifecycleElections
  import opened LifecycleRuns

  ghost predicate Ranked(c: Chain) {
    forall n :: n in c.unassigned ==> Descending(c.unassigned[n])
  }

  lemma PoolRanked(c: Chain, n: Network)
    requires Ranked(c)
    ensures Descending(Pool(c, n))
  {}

  lemma RankedFrame(c: Chain, c': Chain)
    requires Ranked(c) && c'.unassigned == c.unassigned
    ensures Ranked(c')
  {}

  lemma RemoveRanked(c: Chain, shards: set<Shard>)
    requires Ranked(c)
    ensures Ranked(RemoveShards(c, shards))
  {
    hide Returning, Released, NetworksOf, Gone, SortDescending, Descending;
    var c' := RemoveShards(c, shards);
    forall n | n in c'.unassigned ensures Descending(c'.unassigned[n]) {
      SortDescends(Pool(c, n) + Listing(Returning(c, shards, n)));
    }
  }

  lemma OfflineRanked(c: Chain, ms: set<Account>, n: Network)
    requires Ranked(c)
    ensures Ranked(MembersOffline(c, ms, n))
  {
    hide RemoveShards, Broken, Descending, Without;
    OfflineIsRemoval(c, ms, n);
    PoolRanked(c, n);
    WithoutDescends(Pool(c, n), ms);
    RemoveRanked(Lowered(c, ms, n), Broken(c, ms));
  }

  lemma {:induction false} OfflineByNetworkRanked(c: Chain, ms: seq<Account>, network: map<Account, Network>,
                                                  order: seq<Network>)
    requires Ranked(c)
    ensures Ranked(OfflineByNetwork(c, ms, network, order))
  {
    hide MembersOffline, Ranked;
    if order != [] {
      var n := |order| - 1;
      OfflineByNetworkRanked(c, ms, network, order[..n]);
      OfflineRanked(OfflineByNetwork(c, ms, network, order[..n]), OnNetwork(ms, network, order[n]), order[n]);
    }
  }

  lemma HeartbeatRanked(c: Chain, m: Account)
    requires Ranked(c) && Heartbeat(c, m).Some?
    ensures Ranked(Heartbeat(c, m).value)
  {
    hide SortDescending, Descending, Without;
    var n := c.network[m];
    SortDescends(Pool(c, n) + [m]);
    assert Pool(c.(online := c.online + {m}), n) == Pool(c, n);
    assert Heartbeat(c, m).value.unassigned in {c.unassigned, c.unassigned[n := SortDescending(Pool(c, n) + [m])]};
  }

  lemma BeforeElectionsRanked(cfg: Config, c: Chain, due: seq<Network>, beating: seq<Account>)
    requires cfg.Valid() && Ranked(c)
    ensures Ranked(BeforeElections(cfg, c, due, beating))
  {
    hide OfflineByNetwork, SplitTimedOut, Ranked, RemoveShards, DueDkgs;
    var c0 := Advance(c);
    var now := SplitTimedOut(c0.timedOut, c0.network, cfg.maxTimeouts).0;
    var c1 := MembersHook(cfg, c0, due, beating);
    RankedFrame(c, c0);
    OfflineByNetworkRanked(c0, now, c0.network, due);
    RankedFrame(if c0.block % cfg.heartbeatTimeout == 0 then OfflineByNetwork(c0, now, c0.network, due) else c0, c1);
    RemoveRanked(c1, DueDkgs(c1, c1.block));
    RankedFrame(RemoveShards(c1, DueDkgs(c1, c1.block)), TimeoutDkgs(c1, c1.block));
  }

  // --------------------------------------------------------------------- elections

  /** Every shard the elections hook sets out to create is created. */
  ghost predicate NoneFails(cfg: Config, c: Chain, ns: Networks, start: nat, counter: nat, num: nat)
    requires ns.Valid() && num <= cfg.maxElections && (start < |ns.list| || counter == start)
    decreases ToGo(counter, start, |ns.list|)
  {
    if num >= cfg.maxElections || counter >= |ns.list| then true
    else
      var n := ns.list[counter];
      var (c1, k) := TryElect(cfg, c, ns, n, cfg.maxElections - num);
      ElectedWithin(cfg, c, ns, n, cfg.maxElections - num);
      var next := if counter + 1 == |ns.list| then 0 else counter + 1;
      TakesTop(cfg, c, ns, n, cfg.maxElections - num) && (next == start || NoneFails(cfg, c1, ns, start, next, num + k))
  }

  /**
    An election creates whole shards until there is no room for another, or too few members are left, and
    takes the largest accounts of the pool for them.
   */
  ghost predicate TakesTop(cfg: Config, c: Chain, ns: Networks, n: Network, room: nat)
    requires ns.Size(n) > 0
  {
    var (c', k) := TryElect(cfg, c, ns, n, room);
    TopTaken(Pool(c, n), Pool(c', n), ns.Size(n), k, room)
  }

  /** k shards of the given size were made of the first members of the pool, and `left` are the others. */
  ghost predicate TopTaken(pool: seq<Account>, left: seq<Account>, size: nat, k: nat, room: nat) {
    && k <= room && (k == room || |left| < size)
    && |left| <= |pool| && |pool| == |left| + k * size && left == pool[|pool| - |left|..]
    && forall i, j :: 0 <= i < |pool| - |left| <= j < |pool| ==> pool[i] >= pool[j]
  }

  lemma RoomOrRest(pool: nat, size: nat, room: nat)
    requires size > 0
    ensures var k := Lesser(pool / size, room); k * size <= pool && (k == room || pool - k * size < size)
  {
    WholeShards(pool, size, Lesser(pool / size, room));
    assert pool == (pool / size) * size + pool % size;
  }

  lemma SplitDescending(s: seq<nat>, k: nat)
    requires Descending(s) && k <= |s|
    ensures Descending(s[k..]) && forall i, j :: 0 <= i < k <= j < |s| ==> s[i] >= s[j]
  {}

  lemma OtherPools(cfg: Config, c: Chain, ns: Networks, n: Network, e: nat)
    requires ns.Size(n) > 0 && e <= |Pool(c, n)| && e % ns.Size(n) == 0
    requires CreateShards(cfg, c, n, Pool(c, n)[..e], ns.Size(n), ns.Threshold(n)).1 == []
    ensures ElectFirst(cfg, c, ns, n, e).0.unassigned == c.unassigned[n := Pool(c, n)[e..]]
  {
    hide CreateShards;
    CreateShardsIgnorePools(cfg, c, c.unassigned, n, Pool(c, n)[..e], ns.Size(n), ns.Threshold(n));
    assert Pool(c, n)[e..] + [] == Pool(c, n)[e..];
  }

  /** The first e members of the pool are gone, and no other pool has changed. */
  ghost predicate Removes(c: Chain, c': Chain, n: Network, e: nat) {
    e <= |Pool(c, n)| && c'.unassigned == c.unassigned[n := Pool(c, n)[e..]]
  }

  lemma ElectedWhole(pool: nat, size: nat, room: nat) returns (k: nat)
    requires size > 0
    ensures k * size == Elected(pool, size, room) && k <= room && (k == room || pool - Elected(pool, size, room) < size)
  {
    k := Lesser(pool / size, room);
    RoomOrRest(pool, size, room);
  }

  /** While the timer slot counts the elections so far, all the shards there is room for are created. */
  lemma ElectsAll(cfg: Config, c: Chain, ns: Networks, n: Network, num: nat) returns (e: nat)
    requires ns.Size(n) > 0 && num <= cfg.maxElections && TimeoutCountAt(c, c.block + cfg.dkgTimeout) == num
    ensures var (c', k) := TryElect(cfg, c, ns, n, cfg.maxElections - num);
            && e == k * ns.Size(n) && k <= cfg.maxElections - num && Removes(c, c', n, e)
            && (k == cfg.maxElections - num || |Pool(c, n)| - e < ns.Size(n))
  {
    hide CreateShards, TimeoutCountAt, Elected, ElectFirst;
    var pool, size, room := Pool(c, n), ns.Size(n), cfg.maxElections - num;
    var shards := ElectedWhole(|pool|, size, room);
    e := Elected(|pool|, size, room);
    CreateShardsFit(cfg, c, n, pool[..e], size, ns.Threshold(n), shards);
    FirstParts(cfg, c, ns, n, e);
    OtherPools(cfg, c, ns, n, e);
  }

  lemma ElectsTop(cfg: Config, c: Chain, ns: Networks, n: Network, room: nat, k: nat)
    requires ns.Size(n) > 0 && Descending(Pool(c, n)) && k <= |Pool(c, n)|
    requires var (c', num) := TryElect(cfg, c, ns, n, room);
             && k == num * ns.Size(n) && Pool(c', n) == Pool(c, n)[k..]
             && num <= room && (num == room || |Pool(c, n)| - k < ns.Size(n))
    ensures TakesTop(cfg, c, ns, n, room)
  {
    hide TryElect, Descending, Pool;
    SplitDescending(Pool(c, n), k);
  }

  lemma PoolsRanked(c: Chain, c': Chain, n: Network, e: nat)
    requires Ranked(c) && Removes(c, c', n, e)
    ensures Ranked(c') && e <= |Pool(c, n)| && Pool(c', n) == Pool(c, n)[e..]
  {
    hide Descending;
    PoolRanked(c, n);
    SplitDescending(Pool(c, n), e);
  }

  lemma ElectRanked(cfg: Config, c: Chain, ns: Networks, n: Network, num: nat)
    requires ns.Size(n) > 0 && num <= cfg.maxElections && TimeoutCountAt(c, c.block + cfg.dkgTimeout) == num
             && Ranked(c)
    ensures TakesTop(cfg, c, ns, n, cfg.maxElections - num) && Ranked(TryElect(cfg, c, ns, n, cfg.maxElections - num).0)
  {
    hide TryElect, TimeoutCountAt, Descending, Ranked, TakesTop, Pool, Removes;
    var room := cfg.maxElections - num;
    var e := ElectsAll(cfg, c, ns, n, num);
    PoolRanked(c, n);
    PoolsRanked(c, TryElect(cfg, c, ns, n, room).0, n, e);
    ElectsTop(cfg, c, ns, n, room, e);
  }

  lemma {:induction false} ElectFromRanked(cfg: Config, home: Home, c: Chain, ns: Networks, start: nat, counter: nat,
                                           num: nat, lo: nat, hi: nat)
    requires ns.Valid() && num <= cfg.maxElections && (start < |ns.list| || counter == start)
    requires Core(home, c, {}) && Timers(c, lo, hi) && lo <= c.block + cfg.dkgTimeout <= hi
    requires TimeoutCountAt(c, c.block + cfg.dkgTimeout) == num && Ranked(c)
    ensures NoneFails(cfg, c, ns, start, counter, num) && Ranked(ElectFrom(cfg, c, ns, start, counter, num).0)
    decreases ToGo(counter, start, |ns.list|)
  {
    hide Core, Timers, TryElect, TimeoutCountAt, Ranked, TakesTop;
    if num < cfg.maxElections && counter < |ns.list| {
      var n := ns.list[counter];
      ElectRanked(cfg, c, ns, n, num);
      TryElectKeeps(cfg, home, c, ns, n, cfg.maxElections - num, lo, hi);
      ElectedWithin(cfg, c, ns, n, cfg.maxElections - num);
      var next := if counter + 1 == |ns.list| then 0 else counter + 1;
      if next != start {
        var (c1, k) := TryElect(cfg, c, ns, n, cfg.maxElections - num);
        ElectFromRanked(cfg, home, c1, ns, start, next, num + k, lo, hi);
      }
    }
  }

  // ---------------------------------------------------------------------- what is created

  /** A shard as it is created: its threshold, its network, and one timeout in `dkgTimeout` blocks. */
  ghost predicate NewShard(cfg: Config, b: Block, c: Chain, sh: Shard, n: Network, t: nat, size: nat) {
    && sh < c.nextShard && sh in c.state && c.state[sh].Created? && sh in c.threshold && c.threshold[sh] == t
    && sh in c.shardNetwork && c.shardNetwork[sh] == n && CountOf(c, sh) == size
    && sh in TimeoutsAt(c, b + cfg.dkgTimeout)
  }

  lemma AddsNewShard(cfg: Config, c: Chain, n: Network, ms: seq<Account>, t: nat, c': Chain)
    requires Adds(cfg, c, n, ms, t, c')
    ensures NewShard(cfg, c.block, c', c.nextShard, n, t, |ms|)
    ensures c'.nextShard == c.nextShard + 1 && c'.block == c.block
  {}

  lemma AddsAfter(cfg: Config, c: Chain, n: Network, ms: seq<Account>, t: nat, c': Chain, b: Block, sh: Shard,
                  k: Network, u: nat, size: nat)
    requires Adds(cfg, c, n, ms, t, c') && NewShard(cfg, b, c, sh, k, u, size)
    ensures NewShard(cfg, b, c', sh, k, u, size)
  {
    hide MembersOf, AllAdded;
  }

  lemma {:induction false} CreateShardsAfter(cfg: Config, c: Chain, n: Network, ms: seq<Account>, size: nat, t: nat,
                                             b: Block, sh: Shard, k: Network, u: nat, count: nat)
    requires size > 0 && |ms| % size == 0 && NewShard(cfg, b, c, sh, k, u, count)
    ensures NewShard(cfg, b, CreateShards(cfg, c, n, ms, size, t).0, sh, k, u, count)
    decreases |ms|
  {
    hide CreateShard, Adds, NewShard;
    if ms != [] {
      ChunkFits(|ms|, size);
      var r := CreateShard(cfg, c, n, ms[..size], t);
      if r.Some? {
        CreateAdds(cfg, c, n, ms[..size], t, r.value);
        AddsAfter(cfg, c, n, ms[..size], t, r.value, b, sh, k, u, count);
        CreateShardsAfter(cfg, r.value, n, ms[size..], size, t, b, sh, k, u, count);
      }
    }
  }

  lemma {:induction false} CreateShardsNew(cfg: Config, c: Chain, n: Network, ms: seq<Account>, size: nat, t: nat)
    requires size > 0 && |ms| % size == 0
    ensures var c' := CreateShards(cfg, c, n, ms, size, t).0;
            && c.nextShard <= c'.nextShard
            && forall sh :: c.nextShard <= sh < c'.nextShard ==> NewShard(cfg, c.block, c', sh, n, t, size)
    decreases |ms|
  {
    hide CreateShard, Adds, NewShard;
    if ms != [] {
      ChunkFits(|ms|, size);
      var r := CreateShard(cfg, c, n, ms[..size], t);
      if r.Some? {
        CreateAdds(cfg, c, n, ms[..size], t, r.value);
        AddsNewShard(cfg, c, n, ms[..size], t, r.value);
        CreateShardsNew(cfg, r.value, n, ms[size..], size, t);
        CreateShardsAfter(cfg, r.value, n, ms[size..], size, t, c.block, c.nextShard, n, t, size);
      }
    }
  }

  /** Every shard an election creates has the network, size and threshold asked for, and its timeout. */
  lemma ElectedAreNew(cfg: Config, c: Chain, ns: Networks, n: Network, room: nat)
    requires ns.Size(n) > 0
    ensures var c' := TryElect(cfg, c, ns, n, room).0;
            forall sh :: c.nextShard <= sh < c'.nextShard ==>
                           NewShard(cfg, c.block, c', sh, n, ns.Threshold(n), ns.Size(n))
  {
    hide CreateShards, Elected;
    var k := Elected(|Pool(c, n)|, ns.Size(n), room);
    CreateShardsNew(cfg, c, n, Pool(c, n)[..k], ns.Size(n), ns.Threshold(n));
    var c1 := CreateShards(cfg, c, n, Pool(c, n)[..k], ns.Size(n), ns.Threshold(n)).0;
    var c' := TryElect(cfg, c, ns, n, room).0;
    forall sh | c.nextShard <= sh < c'.nextShard
      ensures NewShard(cfg, c.block, c', sh, n, ns.Threshold(n), ns.Size(n))
    {
      assert NewShard(cfg, c.block, c1, sh, n, ns.Threshold(n), ns.Size(n));
    }
  }

  // ------------------------------------------------------------- the round robin misses nobody

  /** No pool grows. */
  ghost predicate Shrinks(c: Chain, c': Chain) {
    forall n :: |Pool(c', n)| <= |Pool(c, n)|
  }

  /** The places of the list from the counter on, up to where the round began. */
  predicate StillAhead(i: nat, counter: nat, start: nat) {
    if counter >= start then i >= counter || i < start else counter <= i < start
  }

  ghost predicate Exhausted(c: Chain, ns: Networks, n: Network) {
    |Pool(c, n)| < ns.Size(n)
  }

  /** One election: as many new shards as it reports, other pools as they were, and no whole shard missed. */
  lemma ElectsFully(cfg: Config, home: Home, c: Chain, ns: Networks, n: Network, num: nat)
    requires ns.Size(n) > 0 && num <= cfg.maxElections && TimeoutCountAt(c, c.block + cfg.dkgTimeout) == num
    requires Core(home, c, {})
    ensures var (c', k) := TryElect(cfg, c, ns, n, cfg.maxElections - num);
            && Shrinks(c, c') && c'.nextShard == c.nextShard + k
            && (num + k == cfg.maxElections || Exhausted(c', ns, n))
  {
    hide TryElect, TimeoutCountAt, Core, IsChunk, SameBelow;
    NextIsFresh(home, c);
    ElectionConserves(cfg, c, ns, n, cfg.maxElections - num);
    var e := ElectsAll(cfg, c, ns, n, num);
  }

  lemma ShrinksTrans(a: Chain, b: Chain, c: Chain)
    requires Shrinks(a, b) && Shrinks(b, c)
    ensures Shrinks(a, c)
  {
    hide Pool;
    forall n ensures |Pool(c, n)| <= |Pool(a, n)| {
      assert |Pool(c, n)| <= |Pool(b, n)| <= |Pool(a, n)|;
    }
  }

  lemma StaysExhausted(c: Chain, c': Chain, ns: Networks, n: Network)
    requires Exhausted(c, ns, n) && Shrinks(c, c')
    ensures Exhausted(c', ns, n)
  {
    hide Pool;
  }

  /** What is promised of the rest of the round, from the counter on. */
  ghost predicate Rounds(cfg: Config, c: Chain, ns: Networks, start: nat, counter: nat, num: nat,
                         r: (Chain, nat, nat, bool)) {
    && Shrinks(c, r.0) && num <= r.2 && r.0.nextShard == c.nextShard + (r.2 - num)
    && (r.2 == cfg.maxElections || counter >= |ns.list| || r.3)
    && (r.3 && r.2 < cfg.maxElections ==>
          forall i: nat :: i < |ns.list| && StillAhead(i, counter, start) ==> Exhausted(r.0, ns, ns.list[i]))
    && (counter < |ns.list| ==> r.1 < |ns.list|) && (r.3 ==> r.1 == start)
    && (num < cfg.maxElections && counter < |ns.list| && r.1 == start ==> r.3)
    && (forall i: nat :: i < |ns.list| && Visited(i, counter, start, r.1, r.3) && PlaceAfter(i, |ns.list|) != r.1 ==>
          Exhausted(r.0, ns, ns.list[i]))
  }

  /** The round went past place i, from `counter` on, before it stopped at `next` or was complete. */
  predicate Visited(i: nat, counter: nat, start: nat, next: nat, wrapped: bool) {
    StillAhead(i, counter, start) && (wrapped || !StillAhead(i, next, start))
  }

  /** The place after i, in a round of `len` places. */
  function PlaceAfter(i: nat, len: nat): (j: nat) {
    if i + 1 == len then 0 else i + 1
  }

  lemma {:induction false} ElectFromRounds(cfg: Config, home: Home, c: Chain, ns: Networks, start: nat, counter: nat,
                                           num: nat, lo: nat, hi: nat)
    requires ns.Valid() && num <= cfg.maxElections && (start < |ns.list| || counter == start)
    requires Core(home, c, {}) && Timers(c, lo, hi) && lo <= c.block + cfg.dkgTimeout <= hi
    requires TimeoutCountAt(c, c.block + cfg.dkgTimeout) == num
    ensures Rounds(cfg, c, ns, start, counter, num, ElectFrom(cfg, c, ns, start, counter, num))
    decreases ToGo(counter, start, |ns.list|)
  {
    hide Core, Timers, TryElect, TimeoutCountAt, Exhausted, Shrinks;
    ShrinksItself(c);
    if num < cfg.maxElections && counter < |ns.list| {
      var n := ns.list[counter];
      ElectsFully(cfg, home, c, ns, n, num);
      TryElectKeeps(cfg, home, c, ns, n, cfg.maxElections - num, lo, hi);
      ElectedWithin(cfg, c, ns, n, cfg.maxElections - num);
      var (c1, k) := TryElect(cfg, c, ns, n, cfg.maxElections - num);
      var next := if counter + 1 == |ns.list| then 0 else counter + 1;
      if next != start {
        ElectFromRounds(cfg, home, c1, ns, start, next, num + k, lo, hi);
        var r := ElectFrom(cfg, c1, ns, start, next, num + k);
        ShrinksTrans(c, c1, r.0);
        if num + k < cfg.maxElections {
          StaysExhausted(c1, r.0, ns, n);
        }
      }
    }
  }

  lemma ShrinksItself(c: Chain)
    ensures Shrinks(c, c)
  {}

  /**
    A block elects all it can: it creates maxElections shards, or leaves every listed network with fewer
    unassigned members than a shard needs. Only with the counter past the end of the list, which is then
    reset, it elects nobody.
   */
  ghost predicate ElectsAllItCan(cfg: Config, c: Chain, ns: Networks, c': Chain) {
    if c.netCounter >= |ns.list| then c' == c.(netCounter := if cfg.maxElections == 0 then c.netCounter else 0)
    else
      && (|| c'.nextShard == c.nextShard + cfg.maxElections
          || (c'.nextShard < c.nextShard + cfg.maxElections && forall n :: n in ns.list ==> Exhausted(c', ns, n)))
      && (cfg.maxElections > 0 ==> PassesOn(c, ns, c'))
  }

  /**
    The next block begins where this one stopped: all networks from the old counter round to the new one,
    except the last of them, have no whole shard waiting.
   */
  ghost predicate PassesOn(c: Chain, ns: Networks, c': Chain) {
    && c'.netCounter < |ns.list|
    && forall i: nat :: i < |ns.list| && PlaceAfter(i, |ns.list|) != c'.netCounter
                        && Visited(i, c.netCounter, c.netCounter, c'.netCounter, c'.netCounter == c.netCounter) ==>
         Exhausted(c', ns, ns.list[i])
  }

  lemma HookElectsAll(cfg: Config, home: Home, c: Chain, ns: Networks, lo: nat, hi: nat)
    requires ns.Valid() && Core(home, c, {}) && Timers(c, lo, hi) && lo <= c.block + cfg.dkgTimeout <= hi
    requires TimeoutCountAt(c, c.block + cfg.dkgTimeout) == 0
    ensures ElectsAllItCan(cfg, c, ns, ElectionsHook(cfg, c, ns))
  {
    hide Core, Timers, TimeoutCountAt, TryElect;
    ElectFromRounds(cfg, home, c, ns, c.netCounter, c.netCounter, 0, lo, hi);
    ElectFromKeeps(cfg, home, c, ns, c.netCounter, c.netCounter, 0, lo, hi);
    if c.netCounter < |ns.list| {
      hide ElectFrom;
      var r := ElectFrom(cfg, c, ns, c.netCounter, c.netCounter, 0);
      var c' := ElectionsHook(cfg, c, ns);
      if r.2 < cfg.maxElections {
        forall n | n in ns.list ensures Exhausted(c', ns, n) {
          var i: nat :| i < |ns.list| && ns.list[i] == n;
          assert StillAhead(i, c.netCounter, c.netCounter);
        }
      }
      assert forall i: nat :: StillAhead(i, c.netCounter, c.netCounter);
    }
  }

  /** In every run every block elects all it can. */
  lemma ElectionsMissNobody(cfg: Config, home: Home, es: seq<Event>, e: Event)
    requires cfg.Valid() && Run(cfg, home, Genesis(), es)
    requires e.NewBlock? && Enabled(cfg, After(cfg, home, Genesis(), es), e)
    ensures var c := After(cfg, home, Genesis(), es);
            ElectsAllItCan(cfg, BeforeElections(cfg, c, e.due, e.beating), e.networks, Next(cfg, home, c, e))
  {
    hide Core, Beats, Timers, Run, After, BeforeElections, ElectionsHook, ElectsAllItCan, TimeoutCountAt;
    hide ListsNetworks, SplitTimedOut;
    var c := After(cfg, home, Genesis(), es);
    ReachableInv(cfg, home, es);
    BeforeElectionsKeeps(cfg, home, c, e);
    var c1 := BeforeElections(cfg, c, e.due, e.beating);
    HookElectsAll(cfg, home, c1, e.networks, c1.block + 1, c1.block + cfg.dkgTimeout);
  }

  // ------------------------------------------------------------------------- whole runs

  lemma NewBlockRanked(cfg: Config, home: Home, c: Chain, e: Event)
    requires cfg.Valid() && Inv(cfg, home, c) && Ranked(c) && Enabled(cfg, c, e) && e.NewBlock?
    ensures Ranked(Next(cfg, home, c, e))
    ensures var c1 := BeforeElections(cfg, c, e.due, e.beating);
            NoneFails(cfg, c1, e.networks, c1.netCounter, c1.netCounter, 0)
  {
    hide Core, Beats, Timers, BeforeElections, ElectFrom, TimeoutCountAt, ListsNetworks, SplitTimedOut, Ranked,
         NoneFails;
    var c1 := BeforeElections(cfg, c, e.due, e.beating);
    BeforeElectionsKeeps(cfg, home, c, e);
    BeforeElectionsRanked(cfg, c, e.due, e.beating);
    ElectFromRanked(cfg, home, c1, e.networks, c1.netCounter, c1.netCounter, 0, c1.block + 1,
                    c1.block + cfg.dkgTimeout);
    var c2 := ElectFrom(cfg, c1, e.networks, c1.netCounter, c1.netCounter, 0).0;
    RankedFrame(c2, ElectionsHook(cfg, c1, e.networks));
  }

  lemma StepRanked(cfg: Config, home: Home, c: Chain, e: Event)
    requires cfg.Valid() && Inv(cfg, home, c) && Ranked(c) && Enabled(cfg, c, e)
    ensures Ranked(Next(cfg, home, c, e))
  {
    hide Inv, Register, Unregister, Heartbeat, Commit, MarkReady, RemoveShards, ElectionsHook, BeforeElections, Lists,
         Ranked;
    match e
    case RegisterMember(m) =>
      OtherCallsPools(c, m, home(m), 0);
      RankedFrame(c, Next(cfg, home, c, e));
    case UnregisterMember(m) =>
      OtherCallsPools(c, m, home(m), 0);
      RankedFrame(c, Next(cfg, home, c, e));
    case SendHeartbeat(m) =>
      if Heartbeat(c, m).Some? { HeartbeatRanked(c, m); }
    case SubmitCommitment(m, sh, commitment, genuine, order) =>
      CommitPools(c, m, sh, commitment, genuine, order);
      RankedFrame(c, Next(cfg, home, c, e));
    case ReportReady(m, sh) =>
      OtherCallsPools(c, m, home(m), sh);
      RankedFrame(c, Next(cfg, home, c, e));
    case ForceOffline(sh) => RemoveRanked(c, {sh});
    case NewBlock(_, _, _) => NewBlockRanked(cfg, home, c, e);
  }

  lemma OtherCallsPools(c: Chain, m: Account, n: Network, sh: Shard)
    ensures Register(c, m, n).unassigned == c.unassigned
    ensures Accepted(Unregister(c, m), c).unassigned == c.unassigned
    ensures Accepted(MarkReady(c, m, sh), c).unassigned == c.unassigned
  {}

  lemma CommitPools(c: Chain, m: Account, sh: Shard, commitment: Polynomials.Commitment, genuine: bool,
                    order: seq<Account>)
    requires Lists(order, MembersOf(c, sh))
    ensures Accepted(Commit(c, m, sh, commitment, genuine, order), c).unassigned == c.unassigned
  {}

  lemma {:induction false} RunRanked(cfg: Config, home: Home, c: Chain, es: seq<Event>)
    requires cfg.Valid() && Inv(cfg, home, c) && Ranked(c) && Run(cfg, home, c, es)
    ensures Ranked(After(cfg, home, c, es))
    decreases |es|
  {
    hide Inv, Next, Enabled, Ranked;
    if es != [] {
      StepKeeps(cfg, home, c, es[0]);
      StepRanked(cfg, home, c, es[0]);
      RunRanked(cfg, home, Next(cfg, home, c, es[0]), es[1..]);
    }
  }

  /** In every run no election ever fails, and each takes the highest ranked members of its pool. */
  lemma ElectionsNeverFail(cfg: Config, home: Home, es: seq<Event>, e: Event)
    requires cfg.Valid() && Run(cfg, home, Genesis(), es)
    requires e.NewBlock? && Enabled(cfg, After(cfg, home, Genesis(), es), e)
    ensures var c := BeforeElections(cfg, After(cfg, home, Genesis(), es), e.due, e.beating);
            NoneFails(cfg, c, e.networks, c.netCounter, c.netCounter, 0)
  {
    hide Inv, Run, After, Ranked, NoneFails, BeforeElections, ListsNetworks, SplitTimedOut;
    GenesisInv(cfg, home);
    GenesisRanked();
    RunRanked(cfg, home, Genesis(), es);
    ReachableInv(cfg, home, es);
    NewBlockRanked(cfg, home, After(cfg, home, Genesis(), es), e);
  }

  lemma GenesisRanked()
    ensures Ranked(Genesis())
  {}
}
