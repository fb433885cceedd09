/** The members, elections and shards pallets as they run: storage changed in place by loops. */
module LifecycleMachine {
  import opened Options
  import opened FiniteSets
  import opened Sequences
  import opened LifecycleSpec
  import opened LifecycleInvariant
  import opened LifecycleSteps
  import opened LifecycleElections
  import opened LifecycleRuns

  // ------------------------------------------------- the first pass of members_offline

  /** What is known of a shard half way through a list of members going offline. */
  type Update = (nat, Option<ShardStatus>)

  ghost function Expected(c: Chain, done: set<Account>, sh: Shard): (u: Update) {
    (Minus(CountOf(c, sh), |Hit(c, done, sh)|),
     if sh !in c.state then None else if sh in Broken(c, done) then Some(Offline) else Some(c.state[sh]))
  }

  ghost predicate Tracks(c: Chain, done: set<Account>, updates: map<Shard, Update>, fallen: seq<Shard>) {
    && updates.Keys == Touched(c, done)
    && (forall sh :: sh in updates ==> updates[sh] == Expected(c, done, sh))
    && Elements(fallen) == Broken(c, done) && NoDuplicates(fallen)
  }

  /** The new entry of a shard one of whose members goes offline. */
  function Decrement(u: Update, threshold: Option<nat>): (r: (Update, bool)) {
    var count := Minus(u.0, 1);
    if u.1.Some? && threshold.Some? && (InDkg(u.1.value) || (u.1.value.Online? && count < threshold.value))
    then ((count, Some(Offline)), true)
    else ((count, u.1), false)
  }

  lemma HitGrows(c: Chain, done: set<Account>, m: Account, sh: Shard)
    requires m !in done
    ensures var hit := m in c.memberShard && c.memberShard[m] == sh;
            |Hit(c, done + {m}, sh)| == |Hit(c, done, sh)| + (if hit then 1 else 0)
  {
    if m in c.memberShard && c.memberShard[m] == sh {
      assert Hit(c, done + {m}, sh) == Hit(c, done, sh) + {m};
    } else {
      assert Hit(c, done + {m}, sh) == Hit(c, done, sh);
    }
  }

  lemma TouchedGrows(c: Chain, done: set<Account>, m: Account)
    ensures Touched(c, done + {m})
            == if m in c.memberShard then Touched(c, done) + {c.memberShard[m]} else Touched(c, done)
  {}

  lemma NoHits(c: Chain, done: set<Account>, sh: Shard)
    requires sh !in Touched(c, done)
    ensures Hit(c, done, sh) == {} && sh !in Broken(c, done)
  {}

  /** Whether shard sh is broken once the members in `done` are offline. */
  lemma BrokenMeans(c: Chain, done: set<Account>, sh: Shard)
    ensures sh in Broken(c, done) <==>
            (sh in Touched(c, done) && sh in c.state && sh in c.threshold
             && (InDkg(c.state[sh])
                 || (c.state[sh].Online? && Minus(CountOf(c, sh), |Hit(c, done, sh)|) < c.threshold[sh])))
  {}

  lemma DecrementIsExpected(c: Chain, done: set<Account>, m: Account)
    requires m !in done && m in c.memberShard
    ensures var sh := c.memberShard[m];
            var r := Decrement(Expected(c, done, sh), if sh in c.threshold then Some(c.threshold[sh]) else None);
            && r.0 == Expected(c, done + {m}, sh)
            && (r.1 <==> sh in Broken(c, done + {m}) && sh !in Broken(c, done))
  {
    var sh := c.memberShard[m];
    HitGrows(c, done, m, sh);
    TouchedGrows(c, done, m);
    BrokenMeans(c, done, sh);
    BrokenMeans(c, done + {m}, sh);
    if sh !in Touched(c, done) {
      NoHits(c, done, sh);
    }
    hide Hit, Touched, Broken;
  }

  lemma OthersExpected(c: Chain, done: set<Account>, m: Account, sh: Shard)
    requires m !in done && !(m in c.memberShard && c.memberShard[m] == sh)
    ensures Expected(c, done + {m}, sh) == Expected(c, done, sh)
    ensures sh in Broken(c, done + {m}) <==> sh in Broken(c, done)
  {
    HitGrows(c, done, m, sh);
    TouchedGrows(c, done, m);
    BrokenMeans(c, done, sh);
    BrokenMeans(c, done + {m}, sh);
    hide Hit, Touched, Broken;
  }

  lemma TrackStep(c: Chain, done: set<Account>, m: Account, updates: map<Shard, Update>, fallen: seq<Shard>)
    requires Tracks(c, done, updates, fallen) && m !in done && m in c.memberShard
    ensures var sh := c.memberShard[m];
            var u := if sh in updates then updates[sh]
               else (CountOf(c, sh), if sh in c.state then Some(c.state[sh]) else None);
            var r := Decrement(u, if sh in c.threshold then Some(c.threshold[sh]) else None);
            Tracks(c, done + {m}, updates[sh := r.0], if r.1 then fallen + [sh] else fallen)
  {
    hide Hit, Touched, Broken, Expected, Decrement;
    var sh := c.memberShard[m];
    var u := if sh in updates then updates[sh] else (CountOf(c, sh), if sh in c.state then Some(c.state[sh]) else None);
    FirstTouch(c, done, sh);
    assert u == Expected(c, done, sh);
    DecrementIsExpected(c, done, m);
    TouchedGrows(c, done, m);
    forall x | x != sh
      ensures Expected(c, done + {m}, x) == Expected(c, done, x)
      ensures x in Broken(c, done + {m}) <==> x in Broken(c, done)
    {
      OthersExpected(c, done, m, x);
    }
    BrokenStays(c, done, m);
    var r := Decrement(u, if sh in c.threshold then Some(c.threshold[sh]) else None);
    assert Elements(fallen + [sh]) == Elements(fallen) + {sh};
    if r.1 {
      assert sh !in Elements(fallen);
      AppendNoDuplicates(fallen, [sh]);
    }
    assert Broken(c, done + {m}) == if r.1 then Broken(c, done) + {sh} else Broken(c, done);
  }

  lemma FirstTouch(c: Chain, done: set<Account>, sh: Shard)
    ensures sh !in Touched(c, done)
            ==> Expected(c, done, sh) == (CountOf(c, sh), if sh in c.state then Some(c.state[sh]) else None)
  {
    if sh !in Touched(c, done) {
      NoHits(c, done, sh);
    }
  }

  lemma BrokenStays(c: Chain, done: set<Account>, m: Account)
    requires m !in done && m in c.memberShard
    ensures c.memberShard[m] in Broken(c, done) ==> c.memberShard[m] in Broken(c, done + {m})
  {
    var sh := c.memberShard[m];
    HitGrows(c, done, m, sh);
    TouchedGrows(c, done, m);
    BrokenMeans(c, done, sh);
    BrokenMeans(c, done + {m}, sh);
    hide Hit, Touched, Broken;
  }

  lemma TrackSkip(c: Chain, done: set<Account>, m: Account, updates: map<Shard, Update>, fallen: seq<Shard>)
    requires Tracks(c, done, updates, fallen) && m !in done && m !in c.memberShard
    ensures Tracks(c, done + {m}, updates, fallen)
  {
    hide Hit, Touched, Broken, Expected;
    TouchedGrows(c, done, m);
    forall x
      ensures Expected(c, done + {m}, x) == Expected(c, done, x)
      ensures x in Broken(c, done + {m}) <==> x in Broken(c, done)
    {
      OthersExpected(c, done, m, x);
    }
  }

  ghost function Counts(updates: map<Shard, Update>, done: set<Shard>): (m: map<Shard, nat>) {
    map sh | sh in done && sh in updates :: updates[sh].0
  }

  ghost function Statuses(updates: map<Shard, Update>, done: set<Shard>): (m: map<Shard, ShardStatus>) {
    map sh | sh in done && sh in updates && updates[sh].1.Some? :: updates[sh].1.value
  }

  ghost function Written(c: Chain, updates: map<Shard, Update>, done: set<Shard>): (c': Chain) {
    c.(onlineCount := c.onlineCount + Counts(updates, done), state := c.state + Statuses(updates, done))
  }

  lemma CountsStep(counts: map<Shard, nat>, updates: map<Shard, Update>, done: set<Shard>, sh: Shard)
    requires sh in updates
    ensures counts + Counts(updates, done + {sh}) == (counts + Counts(updates, done))[sh := updates[sh].0]
  {}

  lemma StatusesStep(state: map<Shard, ShardStatus>, updates: map<Shard, Update>, done: set<Shard>, sh: Shard)
    requires sh in updates
    ensures var s := state + Statuses(updates, done);
            state + Statuses(updates, done + {sh}) == if updates[sh].1.Some? then s[sh := updates[sh].1.value] else s
  {}

  lemma WrittenStep(c: Chain, updates: map<Shard, Update>, done: set<Shard>, sh: Shard)
    requires sh in updates
    ensures var c1 := Written(c, updates, done);
            Written(c, updates, done + {sh})
            == c1.(onlineCount := c1.onlineCount[sh := updates[sh].0],
                   state := if updates[sh].1.Some? then c1.state[sh := updates[sh].1.value] else c1.state)
  {
    hide Counts, Statuses;
    CountsStep(c.onlineCount, updates, done, sh);
    StatusesStep(c.state, updates, done, sh);
  }

  lemma WrittenNothing(c: Chain, updates: map<Shard, Update>)
    ensures Written(c, updates, {}) == c
  {
    assert Counts(updates, {}) == map[] && Statuses(updates, {}) == map[];
    assert c.onlineCount + map[] == c.onlineCount && c.state + map[] == c.state;
  }

  lemma WrittenStatuses(c: Chain, ms: set<Account>, updates: map<Shard, Update>, fallen: seq<Shard>)
    requires Tracks(c, ms, updates, fallen)
    ensures var c1 := Written(c, updates, updates.Keys);
            && c1.onlineCount == c.onlineCount + LowerCounts(c, ms)
            && c1.state + AllOffline(Broken(c, ms)) == c.state + AllOffline(Broken(c, ms))
  {
    hide Hit, Touched, Broken, NoDuplicates;
    assert Counts(updates, updates.Keys) == LowerCounts(c, ms);
    forall sh | sh in updates ensures updates[sh] == Expected(c, ms, sh) {}
    assert c.state + Statuses(updates, updates.Keys) + AllOffline(Broken(c, ms)) == c.state + AllOffline(Broken(c, ms));
  }

  lemma ReleaseFrame(c: Chain, c1: Chain, shards: set<Shard>)
    requires c1 == c.(state := c1.state)
    ensures Gone(c1, shards) == Gone(c, shards) && Released(c1, shards) == Released(c, shards)
    ensures NetworksOf(c1, shards) == NetworksOf(c, shards)
    ensures Unregistering(c1, shards, NetworksOf(c, shards)) == Unregistering(c, shards, NetworksOf(c, shards))
  {}

  lemma SortedPoolFrame(c: Chain, c1: Chain, shards: set<Shard>, n: Network)
    requires c1 == c.(state := c1.state)
    ensures SortedPool(c1, shards, n) == SortedPool(c, shards, n)
  {
    assert Returning(c1, shards, n) == Returning(c, shards, n);
    hide SortDescending, Returning;
  }

  lemma SortedPoolsFrame(c: Chain, c1: Chain, shards: set<Shard>, nets: set<Network>)
    requires c1 == c.(state := c1.state)
    ensures SortedPools(c1, shards, nets) == SortedPools(c, shards, nets)
  {
    hide SortedPool;
    forall n | n in nets ensures SortedPool(c1, shards, n) == SortedPool(c, shards, n) {
      SortedPoolFrame(c, c1, shards, n);
    }
  }

  lemma RemoveIgnoresState(c: Chain, c1: Chain, shards: set<Shard>)
    requires c1 == c.(state := c1.state) && c1.state + AllOffline(shards) == c.state + AllOffline(shards)
    ensures RemoveShards(c1, shards) == RemoveShards(c, shards)
  {
    hide RemoveShards, AllOffline, Gone, Released, NetworksOf, SortedPools, Unregistering;
    RefilledAll(c, shards);
    RefilledAll(c1, shards);
    ReleaseFrame(c, c1, shards);
    SortedPoolsFrame(c, c1, shards, NetworksOf(c, shards));
  }

  /** Removing the fallen shards from what was written gives the specified storage. */
  lemma OfflineResult(c: Chain, ms: set<Account>, updates: map<Shard, Update>, fallen: seq<Shard>)
    requires Tracks(c, ms, updates, fallen)
    ensures RemoveShards(Written(c, updates, updates.Keys), Broken(c, ms)) == ShardMembersOffline(c, ms)
  {
    hide LowerCounts, Broken, RemoveShards, AllOffline, Tracks, Counts, Statuses;
    WrittenStatuses(c, ms, updates, fallen);
    var c2 := c.(onlineCount := c.onlineCount + LowerCounts(c, ms));
    RemoveIgnoresState(c2, Written(c, updates, updates.Keys), Broken(c, ms));
  }

  lemma RemoveNothing(c: Chain)
    ensures RemoveShards(c, {}) == c
  {
    RefilledAll(c, {});
    assert NetworksOf(c, {}) == {};
    RefilledNothing(c, {});
    ClearedNothing(c);
    hide Refilled, RemoveShards, Cleared;
  }

  // ------------------------------------------------------------ remove_shards_offline

  /** The members of the removed shards that belong to network n. */
  ghost function ReleasedOn(c: Chain, shards: set<Shard>, n: Network): (s: set<Account>) {
    set m | m in Released(c, shards) && c.shardNetwork[c.memberShard[m]] == n
  }

  ghost function AllOffline(shards: set<Shard>): (m: map<Shard, ShardStatus>) {
    map sh | sh in shards :: Offline
  }

  /** The storage after the first pass over `done`. */
  ghost function Cleared(c: Chain, done: set<Shard>): (c': Chain) {
    c.(state := c.state + AllOffline(done),
       threshold := c.threshold - done,
       shardNetwork := c.shardNetwork - done,
       members := c.members - Gone(c, done),
       memberShard := c.memberShard - Released(c, done))
  }

  ghost predicate ListsSet(s: seq<Account>, a: set<Account>) {
    multiset(s) == multiset(a)
  }

  ghost predicate Collects(c: Chain, done: set<Shard>, updates: map<Network, seq<Account>>) {
    && updates.Keys == NetworksOf(c, done)
    && forall n :: n in updates ==> ListsSet(updates[n], ReleasedOn(c, done, n))
  }

  lemma ReleasedGrows(c: Chain, done: set<Shard>, sh: Shard)
    requires Links(c) && sh !in done
    ensures Released(c, done + {sh})
            == if sh in c.shardNetwork then Released(c, done) + MembersOf(c, sh).Keys else Released(c, done)
    ensures sh in c.shardNetwork ==> Released(c, done) !! MembersOf(c, sh).Keys
    ensures Gone(c, done + {sh}) == if sh in c.shardNetwork then Gone(c, done) + {sh} else Gone(c, done)
  {}

  lemma ReleasedOnGrows(c: Chain, done: set<Shard>, sh: Shard, n: Network)
    requires Links(c) && sh !in done
    ensures ReleasedOn(c, done + {sh}, n)
            == if sh in c.shardNetwork && c.shardNetwork[sh] == n then ReleasedOn(c, done, n) + MembersOf(c, sh).Keys
               else ReleasedOn(c, done, n)
    ensures sh in c.shardNetwork && c.shardNetwork[sh] == n ==> ReleasedOn(c, done, n) !! MembersOf(c, sh).Keys
  {
    ReleasedGrows(c, done, sh);
  }

  lemma NetworksGrow(c: Chain, done: set<Shard>, sh: Shard)
    ensures NetworksOf(c, done + {sh})
            == if sh in c.shardNetwork then NetworksOf(c, done) + {c.shardNetwork[sh]} else NetworksOf(c, done)
  {
    if sh in c.shardNetwork {
      assert Gone(c, done + {sh}) == Gone(c, done) + {sh};
    } else {
      assert Gone(c, done + {sh}) == Gone(c, done);
    }
  }

  lemma NothingReleased(c: Chain, done: set<Shard>, n: Network)
    requires n !in NetworksOf(c, done)
    ensures ReleasedOn(c, done, n) == {}
  {
    forall m ensures m !in ReleasedOn(c, done, n) {
      assert m in Released(c, done) ==> c.memberShard[m] in Gone(c, done);
    }
  }

  lemma AppendListing(s: seq<Account>, t: seq<Account>, a: set<Account>, b: set<Account>)
    requires a !! b && ListsSet(s, a) && ListsSet(t, b)
    ensures ListsSet(s + t, a + b)
  {
    forall x ensures multiset(a + b)[x] == multiset(a)[x] + multiset(b)[x] {
      assert multiset(a)[x] == if x in a then 1 else 0;
      assert multiset(b)[x] == if x in b then 1 else 0;
    }
  }

  lemma ListsNothing()
    ensures ListsSet([], {})
  {}

  lemma CollectStep(c: Chain, done: set<Shard>, sh: Shard, updates: map<Network, seq<Account>>, drained: seq<Account>)
    requires Links(c) && sh !in done && Collects(c, done, updates)
    requires sh in c.shardNetwork && ListsSet(drained, MembersOf(c, sh).Keys)
    ensures var n := c.shardNetwork[sh];
            Collects(c, done + {sh}, updates[n := (if n in updates then updates[n] else []) + drained])
  {
    hide Links, NetworksOf, ReleasedOn, ListsSet;
    var n := c.shardNetwork[sh];
    NetworksGrow(c, done, sh);
    ReleasedOnGrows(c, done, sh, n);
    if n !in updates {
      NothingReleased(c, done, n);
      ListsNothing();
    }
    AppendListing(if n in updates then updates[n] else [], drained, ReleasedOn(c, done, n), MembersOf(c, sh).Keys);
    forall k | k in updates && k != n ensures ReleasedOn(c, done + {sh}, k) == ReleasedOn(c, done, k) {
      ReleasedOnGrows(c, done, sh, k);
    }
  }

  lemma CollectSkip(c: Chain, done: set<Shard>, sh: Shard, updates: map<Network, seq<Account>>)
    requires Links(c) && sh !in done && Collects(c, done, updates) && sh !in c.shardNetwork
    ensures Collects(c, done + {sh}, updates)
  {
    hide Links, NetworksOf, ReleasedOn;
    NetworksGrow(c, done, sh);
    forall k | k in updates ensures ReleasedOn(c, done + {sh}, k) == ReleasedOn(c, done, k) {
      ReleasedOnGrows(c, done, sh, k);
    }
  }

  /** Only the network and the pool of network n change when its members come back. */
  ghost function Returned(c: Chain, n: Network, ms: seq<Account>): (c': Chain) {
    c.(network := c.network - Leaving(c, ms),
       unassigned := c.unassigned[n := SortDescending(Pool(c, n) + Staying(c, ms))])
  }

  ghost function Leaving(c: Chain, ms: seq<Account>): (s: set<Account>) {
    set m | m in ms && m !in c.registered && m !in c.memberShard
  }

  lemma LeavingStep(c: Chain, ms: seq<Account>, i: nat)
    requires i < |ms|
    ensures c.network - Leaving(c, ms[..i + 1])
            == if ms[i] !in c.registered && ms[i] !in c.memberShard then (c.network - Leaving(c, ms[..i])) - {ms[i]}
               else c.network - Leaving(c, ms[..i])
    ensures Staying(c, ms[..i + 1])
            == if ms[i] in c.registered && ms[i] in c.online then Staying(c, ms[..i]) + [ms[i]] else Staying(c, ms[..i])
  {
    assert ms[..i + 1] == ms[..i] + [ms[i]];
    assert ms[..i + 1][..i] == ms[..i];
  }

  /** The members among ms that are registered and online, in order. */
  function Staying(c: Chain, ms: seq<Account>): (r: seq<Account>) {
    if ms == [] then []
    else
      var k := |ms| - 1;
      if ms[k] in c.registered && ms[k] in c.online then Staying(c, ms[..k]) + [ms[k]] else Staying(c, ms[..k])
  }

  lemma NobodyYet(c: Chain, ms: seq<Account>)
    requires ms == []
    ensures c.network - Leaving(c, ms) == c.network && Staying(c, ms) == []
  {}

  lemma ClearedNothing(c: Chain)
    ensures Cleared(c, {}) == c && Collects(c, {}, map[])
  {
    assert AllOffline({}) == map[];
    assert Released(c, {}) == {} && Gone(c, {}) == {};
    assert c.state + map[] == c.state;
    assert c.threshold - {} == c.threshold && c.shardNetwork - {} == c.shardNetwork;
    assert c.members - {} == c.members && c.memberShard - {} == c.memberShard;
  }

  lemma MinusTwice<V>(m: map<nat, V>, a: set<nat>, b: set<nat>)
    ensures m - (a + b) == (m - a) - b
  {}

  lemma OneMoreOffline(state: map<Shard, ShardStatus>, done: set<Shard>, sh: Shard)
    ensures state + AllOffline(done + {sh}) == (state + AllOffline(done))[sh := Offline]
  {}

  /** One round of the first pass, for a shard that has a network. */
  lemma ClearedKnown(c: Chain, done: set<Shard>, sh: Shard)
    requires Links(c) && sh !in done && sh in c.shardNetwork
    ensures var c1 := Cleared(c, done);
            && sh in c1.shardNetwork && c1.shardNetwork[sh] == c.shardNetwork[sh]
            && MembersOf(c1, sh) == MembersOf(c, sh)
            && Cleared(c, done + {sh})
               == c1.(state := c1.state[sh := Offline], threshold := c1.threshold - {sh},
                      shardNetwork := c1.shardNetwork - {sh},
                      members := c1.members - {sh}, memberShard := c1.memberShard - MembersOf(c1, sh).Keys)
  {
    assert sh !in Gone(c, done);
    ReleasedGrows(c, done, sh);
    hide Links, Released, Gone, AllOffline;
    OneMoreOffline(c.state, done, sh);
    MinusTwice(c.threshold, done, {sh});
    MinusTwice(c.shardNetwork, done, {sh});
    MinusTwice(c.members, Gone(c, done), {sh});
    MinusTwice(c.memberShard, Released(c, done), MembersOf(c, sh).Keys);
  }

  lemma ClearedUnknown(c: Chain, done: set<Shard>, sh: Shard)
    requires Links(c) && sh !in done && sh !in c.shardNetwork
    ensures var c1 := Cleared(c, done);
            && sh !in c1.shardNetwork
            && Cleared(c, done + {sh}) == c1.(state := c1.state[sh := Offline], threshold := c1.threshold - {sh})
  {
    ReleasedGrows(c, done, sh);
    hide Links, Released, Gone, AllOffline;
    OneMoreOffline(c.state, done, sh);
    MinusTwice(c.threshold, done, {sh});
    assert c.shardNetwork - (done + {sh}) == c.shardNetwork - done;
  }

  // ------------------------------------------------------------------ the second pass

  ghost function Unregistering(c: Chain, shards: set<Shard>, nets: set<Network>): (s: set<Account>) {
    set m | m in Released(c, shards) && c.shardNetwork[c.memberShard[m]] in nets && m !in c.registered
  }

  ghost function SortedPools(c: Chain, shards: set<Shard>, nets: set<Network>): (p: map<Network, seq<Account>>) {
    map n | n in nets :: SortedPool(c, shards, n)
  }

  ghost function SortedPool(c: Chain, shards: set<Shard>, n: Network): (p: seq<Account>) {
    SortDescending(Pool(c, n) + Listing(Returning(c, shards, n)))
  }

  ghost function Refilled(c: Chain, shards: set<Shard>, nets: set<Network>): (c': Chain) {
    var c1 := Cleared(c, shards);
    c1.(network := c.network - Unregistering(c, shards, nets),
        unassigned := c.unassigned + SortedPools(c, shards, nets))
  }

  lemma {:induction false} StayingCounts(c: Chain, ms: seq<Account>, x: Account)
    ensures multiset(Staying(c, ms))[x] == if x in c.registered && x in c.online then multiset(ms)[x] else 0
  {
    if ms != [] {
      var k := |ms| - 1;
      assert ms == ms[..k] + [ms[k]];
      StayingCounts(c, ms[..k], x);
    }
  }

  lemma StayingReturns(c: Chain, c1: Chain, shards: set<Shard>, n: Network, ms: seq<Account>)
    requires ListsSet(ms, ReleasedOn(c, shards, n)) && c1.registered == c.registered && c1.online == c.online
    ensures multiset(Staying(c1, ms)) == multiset(Returning(c, shards, n))
  {
    hide Released;
    forall x ensures multiset(Staying(c1, ms))[x] == multiset(Returning(c, shards, n))[x] {
      StayingCounts(c1, ms, x);
    }
  }

  lemma PoolAfter(c: Chain, c1: Chain, shards: set<Shard>, n: Network, ms: seq<Account>)
    requires ListsSet(ms, ReleasedOn(c, shards, n)) && c1.registered == c.registered && c1.online == c.online
    requires Pool(c1, n) == Pool(c, n)
    ensures SortDescending(Pool(c1, n) + Staying(c1, ms))
            == SortDescending(Pool(c, n) + Listing(Returning(c, shards, n)))
  {
    hide ListsSet, ReleasedOn, Returning, Staying, SortDescending;
    StayingReturns(c, c1, shards, n, ms);
    SortForgetsOrder(Pool(c1, n) + Staying(c1, ms), Pool(c, n) + Listing(Returning(c, shards, n)));
  }

  lemma ListsSetMembers(s: seq<Account>, a: set<Account>)
    requires ListsSet(s, a)
    ensures forall x :: x in s <==> x in a
  {
    forall x ensures x in s <==> x in a {
      assert x in s <==> x in multiset(s);
    }
  }

  lemma LeavingIs(c: Chain, c1: Chain, shards: set<Shard>, nets: set<Network>, n: Network, ms: seq<Account>)
    requires ListsSet(ms, ReleasedOn(c, shards, n)) && c1.registered == c.registered
             && c1.memberShard == c.memberShard - Released(c, shards)
    ensures Unregistering(c, shards, nets + {n}) == Unregistering(c, shards, nets) + Leaving(c1, ms)
  {
    ListsSetMembers(ms, ReleasedOn(c, shards, n));
    hide ListsSet;
  }

  lemma SortedPoolsStep(c: Chain, shards: set<Shard>, nets: set<Network>, n: Network)
    ensures c.unassigned + SortedPools(c, shards, nets + {n})
            == (c.unassigned + SortedPools(c, shards, nets))[n := SortedPool(c, shards, n)]
  {
    hide SortedPool;
  }

  lemma PoolUntouched(c: Chain, shards: set<Shard>, nets: set<Network>, n: Network)
    requires n !in nets
    ensures Pool(Refilled(c, shards, nets), n) == Pool(c, n)
  {
    hide SortedPool, Unregistering, Cleared;
    assert n !in SortedPools(c, shards, nets);
  }

  lemma RefilledStep(c: Chain, shards: set<Shard>, nets: set<Network>, n: Network, ms: seq<Account>)
    requires ListsSet(ms, ReleasedOn(c, shards, n)) && n !in nets
    ensures Returned(Refilled(c, shards, nets), n, ms) == Refilled(c, shards, nets + {n})
  {
    hide ListsSet, ReleasedOn, Returning, Staying, Leaving, SortDescending, Unregistering, Released, Gone, SortedPools,
         AllOffline, Pool;
    var c1 := Refilled(c, shards, nets);
    SortedPoolsStep(c, shards, nets, n);
    PoolUntouched(c, shards, nets, n);
    LeavingIs(c, c1, shards, nets, n, ms);
    MinusTwice(c.network, Unregistering(c, shards, nets), Leaving(c1, ms));
    PoolAfter(c, c1, shards, n, ms);
  }

  lemma RefilledNothing(c: Chain, shards: set<Shard>)
    ensures Refilled(c, shards, {}) == Cleared(c, shards)
  {
    hide Cleared;
    assert Unregistering(c, shards, {}) == {} && SortedPools(c, shards, {}) == map[];
    assert c.network - {} == c.network && c.unassigned + map[] == c.unassigned;
    assert Cleared(c, shards).network == c.network
        && Cleared(c, shards).unassigned == c.unassigned by { ClearedFrame(c, shards); }
  }

  lemma ClearedFrame(c: Chain, shards: set<Shard>)
    ensures Cleared(c, shards).network == c.network && Cleared(c, shards).unassigned == c.unassigned
  {}

  lemma RefilledAll(c: Chain, shards: set<Shard>)
    ensures Refilled(c, shards, NetworksOf(c, shards)) == RemoveShards(c, shards)
  {
    assert Unregistering(c, shards, NetworksOf(c, shards)) == Released(c, shards) - c.registered by {
      forall m | m in Released(c, shards) ensures c.shardNetwork[c.memberShard[m]] in NetworksOf(c, shards) {
        assert c.memberShard[m] in Gone(c, shards);
      }
    }
    hide Released, Gone, Returning, NetworksOf, SortDescending;
    assert SortedPools(c, shards, NetworksOf(c, shards))
           == map n | n in NetworksOf(c, shards) :: SortDescending(Pool(c, n) + Listing(Returning(c, shards, n)));
    assert AllOffline(shards) == map sh | sh in shards :: Offline;
  }

  // ------------------------------------------------------------------ timeout_heartbeats

  /** The members timed out now, by network. */
  ghost predicate Grouped(now: seq<Account>, network: map<Account, Network>, current: map<Network, seq<Account>>) {
    && (forall m :: m in now ==> m in network && network[m] in current)
    && (forall n :: n in current ==> current[n] != [])
    && (forall n, m :: n in current ==>
          multiset(current[n])[m] == if m in network && network[m] == n then multiset(now)[m] else 0)
  }

  lemma GroupedNothing(network: map<Account, Network>)
    ensures Grouped([], network, map[])
  {}

  lemma GroupedStep(now: seq<Account>, network: map<Account, Network>, current: map<Network, seq<Account>>, m: Account)
    requires Grouped(now, network, current) && m in network
    ensures var n := network[m];
            Grouped(now + [m], network, current[n := (if n in current then current[n] else []) + [m]])
  {
    var n := network[m];
    var group := if n in current then current[n] else [];
    if n !in current {
      forall x | x in network && network[x] == n ensures multiset(now)[x] == 0 {
        assert x !in now;
        assert x in now <==> multiset(now)[x] > 0;
      }
    }
  }

  lemma SplitNext(s: seq<Account>, i: nat, network: map<Account, Network>, room: nat, now: seq<Account>,
                  later: seq<Account>)
    requires i < |s|
    ensures var (n0, l0) := SplitTimedOut(s[i..], network, room);
            if room > 0 && s[i] in network then
              var (n1, l1) := SplitTimedOut(s[i + 1..], network, room - 1);
              (now + n0, later + l0) == (now + [s[i]] + n1, later + l1)
            else
              var (n1, l1) := SplitTimedOut(s[i + 1..], network, room);
              (now + n0, later + l0) == (now + n1, later + [s[i]] + l1)
  {
    assert s[i..][1..] == s[i + 1..];
    if room > 0 && s[i] in network {
      var (n1, l1) := SplitTimedOut(s[i + 1..], network, room - 1);
      assert now + ([s[i]] + n1) == now + [s[i]] + n1;
    } else {
      var (n1, l1) := SplitTimedOut(s[i + 1..], network, room);
      assert later + ([s[i]] + l1) == later + [s[i]] + l1;
    }
  }

  lemma SplitStart(s: seq<Account>, network: map<Account, Network>, room: nat)
    ensures var (n1, l1) := SplitTimedOut(s[0..], network, room); SplitTimedOut(s, network, room) == ([] + n1, [] + l1)
  {
    assert s[0..] == s;
    var (n1, l1) := SplitTimedOut(s, network, room);
    assert [] + n1 == n1 && [] + l1 == l1;
  }

  lemma SplitEnd(s: seq<Account>, network: map<Account, Network>, room: nat, now: seq<Account>, later: seq<Account>)
    requires s == []
    ensures var (n1, l1) := SplitTimedOut(s, network, room); now + n1 == now && later + l1 == later
  {}

  lemma GroupIs(now: seq<Account>, network: map<Account, Network>, current: map<Network, seq<Account>>, n: Network)
    requires Grouped(now, network, current) && n in current && NoDuplicates(now)
    ensures NoDuplicates(current[n]) && Elements(current[n]) == OnNetwork(now, network, n)
  {
    forall m
      ensures m in current[n] <==> m in now && m in network && network[m] == n
      ensures multiset(current[n])[m] <= 1
    {
      assert multiset(now)[m] <= 1;
      assert m in current[n] <==> multiset(current[n])[m] > 0;
      assert m in now <==> multiset(now)[m] > 0;
    }
  }

  lemma OfflineOneMore(home: Home, c: Chain, now: seq<Account>, order: seq<Network>, n: Network, lo: nat, hi: nat)
    requires Core(home, c, {}) && Timers(c, lo, hi) && NoDuplicates(order + [n])
             && forall m :: m in now ==> m in c.online
    ensures var c' := OfflineByNetwork(c, now, c.network, order + [n]);
            && c' == MembersOffline(OfflineByNetwork(c, now, c.network, order), OnNetwork(now, c.network, n), n)
            && Core(home, c', {})
  {
    assert (order + [n])[..|order|] == order;
    hide Core, Timers, MembersOffline;
    HomesOf(home, c);
    OfflineByNetworkKeeps(home, c, now, c.network, order + [n], lo, hi);
  }

  lemma DueIsListed(now: seq<Account>, network: map<Account, Network>, current: map<Network, seq<Account>>,
                    due: seq<Network>)
    requires Grouped(now, network, current) && ListsOnce(due, current.Keys)
    ensures ListsNetworks(due, now, network)
  {
    forall n ensures n in due <==> n in current {
      assert n in due <==> n in Elements(due);
    }
    forall n | n in due ensures exists m :: m in now && m in network && network[m] == n {
      var m := current[n][0];
      assert multiset(current[n])[m] > 0;
      assert multiset(now)[m] > 0;
      assert m in now;
    }
  }

  // --------------------------------------------------------- timeout_dkgs and create_shard

  ghost function DueWithin(c: Chain, shards: set<Shard>): (s: set<Shard>) {
    set sh | sh in shards && sh in c.state && InDkg(c.state[sh])
  }

  lemma DueStep(c: Chain, all: set<Shard>, left: set<Shard>, fallen: seq<Shard>, sh: Shard)
    requires sh in left && left <= all && ListsOnce(fallen, DueWithin(c, all - left))
    ensures ListsOnce(if sh in c.state && InDkg(c.state[sh]) then fallen + [sh] else fallen,
                      DueWithin(c, all - (left - {sh})))
  {
    var before, after := DueWithin(c, all - left), DueWithin(c, all - (left - {sh}));
    if sh in c.state && InDkg(c.state[sh]) {
      assert after == before + {sh};
      assert after - {sh} == before && after - ({sh} - {sh}) == after;
      ListsOneMore(fallen, after, {sh}, sh);
    } else {
      assert after == before;
    }
  }

  ghost function AllTo(ms: seq<Account>, sh: Shard): (m: map<Account, Shard>) {
    map a | a in ms :: sh
  }

  lemma AddedNobody(c: Chain, ms: seq<Account>, sh: Shard)
    requires ms == []
    ensures MembersOf(c, sh) + AllAdded(ms) == MembersOf(c, sh) && c.memberShard + AllTo(ms, sh) == c.memberShard
  {}

  lemma OneMoreAdded(m: map<Account, MemberStatus>, ms: seq<Account>, i: nat)
    requires i < |ms|
    ensures m + AllAdded(ms[..i + 1]) == (m + AllAdded(ms[..i]))[ms[i] := Added]
  {
    assert ms[..i + 1] == ms[..i] + [ms[i]];
  }

  lemma OneMoreTo(m: map<Account, Shard>, ms: seq<Account>, i: nat, sh: Shard)
    requires i < |ms|
    ensures m + AllTo(ms[..i + 1], sh) == (m + AllTo(ms[..i], sh))[ms[i] := sh]
  {
    assert ms[..i + 1] == ms[..i] + [ms[i]];
  }

  lemma RemoveFrame(c: Chain, shards: set<Shard>)
    ensures RemoveShards(c, shards).timeouts == c.timeouts && RemoveShards(c, shards).timeoutCount == c.timeoutCount
  {
    hide Gone, Released, Returning, NetworksOf, SortDescending;
  }

  lemma NextChunk(cfg: Config, c: Chain, n: Network, ms: seq<Account>, size: nat, t: nat)
    requires 0 < size <= |ms| && |ms| % size == 0 && |ms[size..]| % size == 0
    ensures var r := LifecycleSpec.CreateShard(cfg, c, n, ms[..size], t);
            CreateShards(cfg, c, n, ms, size, t)
            == if r.None? then (c, ms, 0)
               else var next := CreateShards(cfg, r.value, n, ms[size..], size, t); (next.0, next.1, next.2 + 1)
  {
    hide LifecycleSpec.CreateShard;
  }

  lemma NoMoreChunks(cfg: Config, c: Chain, n: Network, ms: seq<Account>, size: nat, t: nat)
    requires size > 0 && ms == []
    ensures |ms| % size == 0 && CreateShards(cfg, c, n, ms, size, t) == (c, [], 0)
  {}

  lemma NextElection(cfg: Config, c: Chain, ns: Networks, start: nat, counter: nat, num: nat)
    requires ns.Valid() && num < cfg.maxElections && (start < |ns.list| || counter == start)
    ensures counter >= |ns.list| ==> ElectFrom(cfg, c, ns, start, counter, num) == (c, 0, num, false)
    ensures counter < |ns.list| ==>
              var (c1, k) := TryElect(cfg, c, ns, ns.list[counter], cfg.maxElections - num);
              var next := if counter + 1 == |ns.list| then 0 else counter + 1;
              && num + k <= cfg.maxElections
              && ElectFrom(cfg, c, ns, start, counter, num)
                 == if next == start then (c1, next, num + k, true) else ElectFrom(cfg, c1, ns, start, next, num + k)
  {
    hide TryElect;
    if counter < |ns.list| {
      ElectedWithin(cfg, c, ns, ns.list[counter], cfg.maxElections - num);
    }
  }

  lemma LastElection(cfg: Config, c: Chain, ns: Networks, start: nat, counter: nat, num: nat)
    requires ns.Valid() && num == cfg.maxElections && (start < |ns.list| || counter == start)
    ensures ElectFrom(cfg, c, ns, start, counter, num) == (c, counter, num, false)
  {}

  lemma CoreLinks(home: Home, c: Chain)
    requires Core(home, c, {})
    ensures Links(c)
  {}

  /** Some listing of the networks whose members would time out. */
  ghost function DefaultDue(cfg: Config, c: Chain): (due: seq<Network>)
    ensures ListsNetworks(due, SplitTimedOut(c.timedOut, c.network, cfg.maxTimeouts).0, c.network)
  {
    var now := SplitTimedOut(c.timedOut, c.network, cfg.maxTimeouts).0;
    var nets := set m | m in now && m in c.network :: c.network[m];
    ListingDistinct(nets);
    ListingMembers(nets);
    Listing(nets)
  }

  lemma ListingDistinct(s: set<nat>)
    ensures NoDuplicates(Listing(s))
  {
    forall x ensures multiset(Listing(s))[x] <= 1 {
      assert multiset(s)[x] <= 1;
    }
  }

  lemma ListsKeys(order: seq<Account>, ms: map<Account, MemberStatus>)
    requires ListsOnce(order, ms.Keys)
    ensures Lists(order, ms)
  {}

  /** `reduce` over the committed members. */
  method SumCommitments(ms: map<Account, MemberStatus>, order: seq<Account>) returns (group: Polynomials.Commitment)
    requires AllSubmitted(ms) && order != [] && forall i :: 0 <= i < |order| ==> order[i] in ms
    ensures group == DkgSpec.GroupCommitment(Collected(ms, order))
  {
    ghost var cs := Collected(ms, order);
    group := ms[order[0]].commitment;
    assert cs[..1] == [cs[0]];
    for i := 1 to |order|
      invariant group == DkgSpec.GroupCommitment(cs[..i])
    {
      assert cs[..i + 1][..i] == cs[..i];
      group := DkgSpec.ZipAdd(group, ms[order[i]].commitment);
    }
    assert cs[..|order|] == cs;
  }

  method Enumerate(s: set<nat>) returns (order: seq<nat>)
    ensures ListsOnce(order, s)
  {
    hide ListsOnce;
    order := [];
    var left := s;
    ListsOnceNothing();
    assert s - left == {};
    while left != {}
      invariant left <= s && ListsOnce(order, s - left)
    {
      var x := FindMin(left);
      ListsOneMore(order, s, left, x);
      order := order + [x];
      left := left - {x};
    }
    assert s - left == s;
  }

  lemma NoRoom(cfg: Config, c: Chain, n: Network, ms: seq<Account>, t: nat)
    ensures LifecycleSpec.CreateShard(cfg, c, n, ms, t).Some?
            <==> TimeoutCountAt(c, c.block + cfg.dkgTimeout) < cfg.maxElections
  {}

  lemma CreatedIs(cfg: Config, c: Chain, n: Network, ms: seq<Account>, t: nat)
    requires TimeoutCountAt(c, c.block + cfg.dkgTimeout) < cfg.maxElections && |ms| < 0x1_0000
    ensures var b, sh := c.block + cfg.dkgTimeout, c.nextShard;
            LifecycleSpec.CreateShard(cfg, c, n, ms, t)
            == Some(c.(nextShard := sh + 1, timeoutCount := c.timeoutCount[b := TimeoutCountAt(c, b) + 1],
                       timeouts := c.timeouts[b := TimeoutsAt(c, b) + {sh}],
                       shardNetwork := c.shardNetwork[sh := n], state := c.state[sh := Created],
                       threshold := c.threshold[sh := t], members := c.members[sh := MembersOf(c, sh) + AllAdded(ms)],
                       memberShard := c.memberShard + AllTo(ms, sh),
                       onlineCount := c.onlineCount[sh := |ms| % 0x1_0000]))
  {
    assert AllAdded(ms) == map m | m in ms :: Added;
    assert AllTo(ms, c.nextShard) == map m | m in ms :: c.nextShard;
  }

  lemma OfflineNobody(c: Chain, now: seq<Account>, network: map<Account, Network>)
    ensures OfflineByNetwork(c, now, network, []) == c
  {}

  lemma NarrowCounts(home: Home, c: Chain, gone: seq<Account>)
    requires Core(home, c, {})
    ensures forall m :: m in gone && m in c.memberShard ==> CountOf(c, c.memberShard[m]) <= 0xFFFF
    ensures Links(c)
  {
    hide Pools, Homes, StatusOk;
    forall m | m in gone && m in c.memberShard ensures CountOf(c, c.memberShard[m]) <= 0xFFFF {
      var sh := c.memberShard[m];
      assert Base(home, c, sh) && Live(c, sh);
      SubsetSize(OnlineMembers(c, sh), c.members[sh].Keys);
    }
  }

  lemma LinksFrame(c: Chain, c': Chain)
    requires Links(c) && c'.memberShard == c.memberShard && c'.members == c.members
    ensures Links(c')
  {}

  lemma OfflineHeartbeats(home: Home, c: Chain, now: seq<Account>, due: seq<Network>, lo: nat, hi: nat)
    requires Core(home, c, {}) && Timers(c, lo, hi) && forall m :: m in now ==> m in c.online
    requires ListsNetworks(due, now, c.network)
    ensures OfflineByNetwork(c, now, c.network, due).heartbeat == c.heartbeat
  {
    hide Core, Timers, OfflineByNetwork;
    HomesOf(home, c);
    OfflineByNetworkKeeps(home, c, now, c.network, due, lo, hi);
  }

  lemma OnlineTimedOut(c: Chain, network: map<Account, Network>, room: nat)
    requires Beats(c)
    ensures var now := SplitTimedOut(c.timedOut, network, room).0;
            NoDuplicates(now) && forall m :: m in now ==> m in c.online
  {
    hide SplitTimedOut;
    var (now, later) := SplitTimedOut(c.timedOut, network, room);
    SplitCounts(c.timedOut, network, room);
    forall m ensures multiset(now)[m] <= 1 && (m in now ==> m in c.online) {
      assert multiset(now)[m] + multiset(later)[m] == multiset(c.timedOut)[m];
      assert m in now <==> multiset(now)[m] > 0;
      assert m in c.timedOut <==> multiset(c.timedOut)[m] > 0;
    }
  }

  /** The storage of the three pallets is one key-value store; each write replaces one entry of it. */
  class Runtime {
    const cfg: Config
    var storage: Chain

    constructor (config: Config)
      ensures cfg == config && storage == Genesis()
    {
      cfg := config;
      storage := Genesis();
    }

    /** `Elections::shard_offline` with `Members::do_unregister_member`. */
    method ShardOffline(n: Network, ms: seq<Account>)
      modifies this
      ensures storage == Returned(old(storage), n, ms)
    {
      hide Leaving, Staying, SortDescending;
      ghost var c := storage;
      var batch: seq<Account> := [];
      NobodyYet(c, ms[..0]);
      for i := 0 to |ms|
        invariant storage == c.(network := c.network - Leaving(c, ms[..i])) && batch == Staying(c, ms[..i])
      {
        LeavingStep(c, ms, i);
        if ms[i] !in storage.registered {
          if ms[i] !in storage.memberShard {
            storage := storage.(network := storage.network - {ms[i]});
          }
        } else if ms[i] in storage.online {
          batch := batch + [ms[i]];
        }
      }
      assert ms[..|ms|] == ms;
      storage := storage.(unassigned := storage.unassigned[n := SortDescending(Pool(storage, n) + batch)]);
    }

    /** Drains the member entries of one shard. */
    method DrainMembers(sh: Shard) returns (drained: seq<Account>)
      modifies this
      ensures ListsSet(drained, MembersOf(old(storage), sh).Keys)
      ensures storage == old(storage).(members := old(storage).members - {sh},
                                       memberShard := old(storage).memberShard - MembersOf(old(storage), sh).Keys)
    {
      ghost var c := storage;
      ghost var all := MembersOf(c, sh).Keys;
      drained := [];
      var left := MembersOf(storage, sh).Keys;
      while left != {}
        invariant left <= all && ListsSet(drained, all - left)
        invariant storage == c.(memberShard := c.memberShard - (all - left))
      {
        var m :| m in left;
        DrainOne(c.memberShard, all, left, drained, m);
        storage := storage.(memberShard := storage.memberShard - {m});
        drained := drained + [m];
        left := left - {m};
      }
      storage := storage.(members := storage.members - {sh});
    }

    /** `remove_shards_offline`. */
    method RemoveShardsOffline(shards: seq<Shard>)
      requires Links(storage) && NoDuplicates(shards)
      modifies this
      ensures storage == RemoveShards(old(storage), Elements(shards))
    {
      hide Links, Cleared, Collects, NoDuplicates, Refilled, Returned, Elements, RemoveShards;
      ghost var c := storage;
      var updates: map<Network, seq<Account>> := map[];
      ClearedNothing(c);
      assert Elements(shards[..0]) == {} by { NoElements(shards[..0]); }
      for i := 0 to |shards|
        invariant storage == Cleared(c, Elements(shards[..i])) && Collects(c, Elements(shards[..i]), updates)
      {
        var sh := shards[i];
        ghost var done := Elements(shards[..i]);
        NextElement(shards, i);
        if sh in c.shardNetwork { ClearedKnown(c, done, sh); } else { ClearedUnknown(c, done, sh); }
        storage := storage.(state := storage.state[sh := Offline], threshold := storage.threshold - {sh});
        if sh in storage.shardNetwork {
          var n := storage.shardNetwork[sh];
          storage := storage.(shardNetwork := storage.shardNetwork - {sh});
          var drained := DrainMembers(sh);
          CollectStep(c, done, sh, updates, drained);
          updates := updates[n := (if n in updates then updates[n] else []) + drained];
        } else {
          CollectSkip(c, done, sh, updates);
        }
      }
      assert shards[..|shards|] == shards;
      ReturnMembers(c, Elements(shards), updates);
    }

    /** `Shards::members_offline`. */
    method ShardMembersGoOffline(gone: seq<Account>)
      requires Links(storage) && NoDuplicates(gone)
      requires forall m :: m in gone && m in storage.memberShard ==> CountOf(storage, storage.memberShard[m]) <= 0xFFFF
      modifies this
      ensures storage == ShardMembersOffline(old(storage), Elements(gone))
    {
      hide Links, NoDuplicates, Tracks, Elements, Decrement, RemoveShards, Written, Broken, ShardMembersOffline;
      ghost var c := storage;
      var updates: map<Shard, Update> := map[];
      var fallen: seq<Shard> := [];
      TracksNothing(c, gone[..0]);
      for i := 0 to |gone|
        invariant storage == c && Tracks(c, Elements(gone[..i]), updates, fallen)
      {
        var m := gone[i];
        NextElement(gone, i);
        if m in storage.memberShard {
          TrackStep(c, Elements(gone[..i]), m, updates, fallen);
          var sh := storage.memberShard[m];
          var u := if sh in updates then updates[sh]
                   else (CountOf(storage, sh), if sh in storage.state then Some(storage.state[sh]) else None);
          var (u', falls) := Decrement(u, if sh in storage.threshold then Some(storage.threshold[sh]) else None);
          updates := updates[sh := u'];
          if falls {
            fallen := fallen + [sh];
          }
        } else {
          TrackSkip(c, Elements(gone[..i]), m, updates, fallen);
        }
      }
      assert gone[..|gone|] == gone;
      TracksParts(c, Elements(gone), updates, fallen);
      ElementsOf(gone);
      forall sh | sh in updates ensures updates[sh].0 <= 0xFFFF {
        NarrowUpdate(c, Elements(gone), updates, fallen, sh);
      }
      WriteUpdates(updates);
      OfflineResult(c, Elements(gone), updates, fallen);
      if fallen != [] {
        WrittenLinks(c, updates);
        RemoveShardsOffline(fallen);
      } else {
        NoElements(fallen);
        RemoveNothing(storage);
      }
    }

    /** `Members::members_offline` with `Elections::members_offline`. */
    method MembersGoOffline(gone: seq<Account>, n: Network, ghost home: Home)
      requires Core(home, storage, {}) && NoDuplicates(gone)
      modifies this
      ensures storage == MembersOffline(old(storage), Elements(gone), n)
    {
      hide Core, NoDuplicates, Without, Elements, Links, ShardMembersOffline;
      ghost var c := storage;
      NarrowCounts(home, c, gone);
      assert c.online - Elements(gone[..0]) == c.online by { NoElements(gone[..0]); }
      for i := 0 to |gone|
        invariant storage == c.(online := c.online - Elements(gone[..i]))
      {
        NextElement(gone, i);
        assert c.online - Elements(gone[..i + 1]) == (c.online - Elements(gone[..i])) - {gone[i]};
        storage := storage.(online := storage.online - {gone[i]});
      }
      assert gone[..|gone|] == gone;
      storage := storage.(unassigned := storage.unassigned[n := Without(Pool(storage, n), Elements(gone))]);
      LinksFrame(c, storage);
      ShardMembersGoOffline(gone);
    }

    /** `timeout_heartbeats`: returns the orders in which it read the storage. */
    method TimeoutHeartbeats(ghost home: Home, ghost lo: nat, ghost hi: nat)
        returns (ghost due: seq<Network>, ghost beating: seq<Account>)
      requires Core(home, storage, {}) && Beats(storage) && Timers(storage, lo, hi)
      modifies this
      ensures ListsNetworks(due, SplitTimedOut(old(storage).timedOut, old(storage).network, cfg.maxTimeouts).0,
                            old(storage).network)
      ensures multiset(beating) == multiset(old(storage).heartbeat)
      ensures storage == LifecycleSpec.TimeoutHeartbeats(cfg, old(storage), due, beating)
    {
      hide Core, Beats, Timers, SplitTimedOut, Grouped, OfflineByNetwork, ListsNetworks, NoDuplicates;
      ghost var c := storage;
      var taken, later, current, num := storage.timedOut, [], map[], 0;
      ghost var now: seq<Account> := [];
      GroupedNothing(c.network);
      SplitStart(taken, c.network, cfg.maxTimeouts);
      for i := 0 to |taken|
        invariant storage == c && num == |now| <= cfg.maxTimeouts
        invariant Grouped(now, c.network, current)
        invariant var (n1, l1) := SplitTimedOut(taken[i..], c.network, cfg.maxTimeouts - num);
                  SplitTimedOut(taken, c.network, cfg.maxTimeouts) == (now + n1, later + l1)
      {
        var m := taken[i];
        SplitNext(taken, i, c.network, cfg.maxTimeouts - num, now, later);
        if num < cfg.maxTimeouts && m in storage.network {
          var n := storage.network[m];
          GroupedStep(now, c.network, current, m);
          current := current[n := (if n in current then current[n] else []) + [m]];
          num := num + 1;
          now := now + [m];
        } else {
          later := later + [m];
        }
      }
      SplitEnd(taken[|taken|..], c.network, cfg.maxTimeouts - num, now, later);
      OnlineTimedOut(c, c.network, cfg.maxTimeouts);
      due := TakeOffline(home, now, current, lo, hi);
      OfflineHeartbeats(home, c, now, due, lo, hi);
      var beats := ListHeartbeats();
      beating := beats;
      storage := storage.(timedOut := later + beats, heartbeat := {});
    }

    method ListHeartbeats() returns (list: seq<Account>)
      ensures multiset(list) == multiset(storage.heartbeat)
    {
      list := [];
      var left := storage.heartbeat;
      while left != {}
        invariant left <= storage.heartbeat && ListsSet(list, storage.heartbeat - left)
      {
        var m :| m in left;
        DrainOne(map[], storage.heartbeat, left, list, m);
        list := list + [m];
        left := left - {m};
      }
      assert storage.heartbeat - left == storage.heartbeat;
    }

    /** Takes each group offline, in ascending order of the networks. */
    method TakeOffline(ghost home: Home, ghost now: seq<Account>, current: map<Network, seq<Account>>, ghost lo: nat,
                       ghost hi: nat)
      returns (ghost due: seq<Network>)
      requires Core(home, storage, {}) && Timers(storage, lo, hi) && Grouped(now, storage.network, current)
      requires NoDuplicates(now) && forall m :: m in now ==> m in storage.online
      modifies this
      ensures ListsNetworks(due, now, old(storage).network)
      ensures storage == OfflineByNetwork(old(storage), now, old(storage).network, due)
    {
      hide Core, Timers, Grouped, NoDuplicates, Elements, OfflineByNetwork, MembersOffline, ListsNetworks, OnNetwork,
           ListsOnce;
      ghost var c := storage;
      due := [];
      var todo := current.Keys;
      assert current.Keys - todo == {};
      ListsOnceNothing();
      OfflineNobody(c, now, c.network);
      while todo != {}
        invariant todo <= current.Keys && ListsOnce(due, current.Keys - todo)
        invariant storage == OfflineByNetwork(c, now, c.network, due) && Core(home, storage, {})
      {
        var n := FindMin(todo);
        GroupIs(now, c.network, current, n);
        ListsOneMore(due, current.Keys, todo, n);
        ListsOnceDistinct(due + [n], current.Keys - (todo - {n}));
        OfflineOneMore(home, c, now, due, n, lo, hi);
        MembersGoOffline(current[n], n, home);
        due := due + [n];
        todo := todo - {n};
      }
      assert current.Keys - todo == current.Keys;
      DueIsListed(now, c.network, current, due);
    }

    /** `timeout_dkgs`. */
    method TimeoutDkgs(n: Block)
      requires Links(storage)
      modifies this
      ensures storage == LifecycleSpec.TimeoutDkgs(old(storage), n)
    {
      hide Links, RemoveShards, NoDuplicates, Elements, ListsOnce;
      ghost var c := storage;
      var fallen: seq<Shard> := [];
      ghost var all := TimeoutsAt(c, n);
      var left := TimeoutsAt(storage, n);
      ListsOnceNothing();
      assert DueWithin(c, all - left) == {};
      while left != {}
        invariant storage == c && left <= all && ListsOnce(fallen, DueWithin(c, all - left))
      {
        var sh := FindMin(left);
        DueStep(c, all, left, fallen, sh);
        if sh in storage.state && InDkg(storage.state[sh]) {
          fallen := fallen + [sh];
        }
        left := left - {sh};
      }
      assert DueWithin(c, all - left) == DueDkgs(c, n);
      ListsOnceDistinct(fallen, DueDkgs(c, n));
      if fallen != [] {
        RemoveShardsOffline(fallen);
      } else {
        NoElements(fallen);
        RemoveNothing(storage);
      }
      RemoveFrame(c, DueDkgs(c, n));
      storage := storage.(timeouts := storage.timeouts - {n}, timeoutCount := storage.timeoutCount - {n});
    }

    /** `create_shard`. */
    method CreateShard(n: Network, ms: seq<Account>, threshold: nat) returns (ok: bool)
      requires |ms| < 0x1_0000
      modifies this
      ensures ok == LifecycleSpec.CreateShard(cfg, old(storage), n, ms, threshold).Some?
      ensures storage == Accepted(LifecycleSpec.CreateShard(cfg, old(storage), n, ms, threshold), old(storage))
    {
      hide AllAdded, AllTo, TimeoutsAt, TimeoutCountAt, LifecycleSpec.CreateShard;
      ghost var c := storage;
      var b := storage.block + cfg.dkgTimeout;
      NoRoom(cfg, c, n, ms, threshold);
      ok := TimeoutCountAt(storage, b) < cfg.maxElections;
      if ok {
        CreatedIs(cfg, c, n, ms, threshold);
        var sh := storage.nextShard;
        storage := storage.(timeoutCount := storage.timeoutCount[b := TimeoutCountAt(storage, b) + 1],
                            nextShard := sh + 1,
                            shardNetwork := storage.shardNetwork[sh := n], state := storage.state[sh := Created],
                            timeouts := storage.timeouts[b := TimeoutsAt(storage, b) + {sh}],
                            threshold := storage.threshold[sh := threshold]);
        AddMembers(sh, ms);
        storage := storage.(onlineCount := storage.onlineCount[sh := |ms| % 0x1_0000]);
      }
    }

    /** `try_elect_shards`. */
    method TryElectShards(ns: Networks, n: Network, room: nat) returns (num: nat)
      requires 0 < ns.Size(n) < 0x1_0000
      modifies this
      ensures (storage, num) == TryElect(cfg, old(storage), ns, n, room)
    {
      hide CreateShards, LifecycleSpec.CreateShard, Elected;
      ghost var c := storage;
      var size, pool := ns.Size(n), Pool(storage, n);
      var k := Elected(|pool|, size, room);
      var ms, back := pool[..k], [];
      num := 0;
      var i := 0;
      ghost var goal := CreateShards(cfg, c, n, ms, size, ns.Threshold(n));
      assert ms[0..] == ms;
      while i < |ms|
        invariant 0 <= i <= |ms| && |ms[i..]| % size == 0 && back == []
        invariant var r := CreateShards(cfg, storage, n, ms[i..], size, ns.Threshold(n)); goal == (r.0, r.1, r.2 + num)
        decreases |ms| - i
      {
        ChunkFits(|ms[i..]|, size);
        NextChunk(cfg, storage, n, ms[i..], size, ns.Threshold(n));
        assert ms[i..][..size] == ms[i..i + size] && ms[i..][size..] == ms[i + size..];
        var ok := CreateShard(n, ms[i..i + size], ns.Threshold(n));
        if !ok {
          back := ms[i..];
          break;
        }
        num := num + 1;
        i := i + size;
      }
      NoMoreChunks(cfg, storage, n, ms[|ms|..], size, ns.Threshold(n));
      assert goal == (storage, back, num);
      storage := storage.(unassigned := storage.unassigned[n := pool[k..] + back]);
    }

    /** `Elections::on_initialize`. */
    method ElectionsInitialize(ns: Networks)
      requires ns.Valid()
      modifies this
      ensures storage == ElectionsHook(cfg, old(storage), ns)
    {
      hide TryElect, ElectFrom;
      ghost var c := storage;
      var start := storage.netCounter;
      var counter: nat, num: nat, wrapped := start, 0, false;
      ghost var goal := ElectFrom(cfg, c, ns, start, start, 0);
      while num < cfg.maxElections
        invariant num <= cfg.maxElections && (start < |ns.list| || counter == start)
        invariant !wrapped && goal == ElectFrom(cfg, storage, ns, start, counter, num)
        decreases ToGo(counter, start, |ns.list|)
      {
        NextElection(cfg, storage, ns, start, counter, num);
        if counter >= |ns.list| {
          counter := 0;
          break;
        }
        ElectedWithin(cfg, storage, ns, ns.list[counter], cfg.maxElections - num);
        var k := TryElectShards(ns, ns.list[counter], cfg.maxElections - num);
        num := num + k;
        counter := if counter + 1 == |ns.list| then 0 else counter + 1;
        if counter == start {
          wrapped := true;
          break;
        }
      }
      if num >= cfg.maxElections && !wrapped {
        LastElection(cfg, storage, ns, start, counter, num);
      }
      assert goal == (storage, counter, num, wrapped);
      if !wrapped {
        storage := storage.(netCounter := counter);
      }
    }

    method RegisterMember(m: Account, n: Network)
      modifies this
      ensures storage == Register(old(storage), m, n)
    {
      storage := storage.(network := storage.network[m := n], registered := storage.registered + {m});
    }

    method UnregisterMember(m: Account) returns (ok: bool)
      modifies this
      ensures ok == Unregister(old(storage), m).Some? && storage == Accepted(Unregister(old(storage), m), old(storage))
    {
      ok := m in storage.network && m in storage.registered;
      if ok {
        storage := storage.(registered := storage.registered - {m});
        if m !in storage.memberShard {
          storage := storage.(network := storage.network - {m});
        }
      }
    }

    method SendHeartbeat(m: Account) returns (ok: bool)
      modifies this
      ensures ok == Heartbeat(old(storage), m).Some? && storage == Accepted(Heartbeat(old(storage), m), old(storage))
    {
      hide MemberOnline, Without;
      ok := m !in storage.heartbeat && m in storage.network;
      if ok {
        if m !in storage.online {
          BringOnline(m, storage.network[m]);
        }
        storage := storage.(heartbeat := storage.heartbeat + {m}, timedOut := Without(storage.timedOut, {m}));
      }
    }

    /** The three `member_online` functions, each calling the next. */
    method BringOnline(m: Account, n: Network)
      modifies this
      ensures storage == MemberOnline(old(storage), m, n)
    {
      hide SortDescending;
      storage := storage.(online := storage.online + {m});
      if m !in storage.memberShard {
        storage := storage.(unassigned := storage.unassigned[n := SortDescending(Pool(storage, n) + [m])]);
      } else if storage.memberShard[m] in storage.state {
        var sh := storage.memberShard[m];
        storage := storage.(onlineCount :=
            storage.onlineCount[sh := if CountOf(storage, sh) < 0xFFFF then CountOf(storage, sh) + 1 else 0xFFFF]);
        if InDkg(storage.state[sh]) {
          storage := storage.(state := storage.state[sh := Offline]);
        }
      }
    }

    /** `execute_commit`. */
    method SubmitCommitment(m: Account, sh: Shard, commitment: Polynomials.Commitment, genuine: bool)
        returns (ok: bool, ghost order: seq<Account>)
      modifies this
      ensures Lists(order, MembersOf(old(storage), sh))
      ensures var r := Commit(old(storage), m, sh, commitment, genuine, order);
              ok == r.Some? && storage == Accepted(r, old(storage))
    {
      var ms := MembersOf(storage, sh);
      var names := Enumerate(ms.Keys);
      order := names;
      ListsKeys(names, ms);
      hide Lists, DkgSpec.GroupCommitment, Collected;
      ok := m in ms && ms[m].Added? && |commitment| == (if sh in storage.threshold then storage.threshold[sh] else 0)
            && genuine && m in storage.network;
      if ok {
        ms := ms[m := Submitted(commitment)];
        storage := storage.(members := storage.members[sh := ms]);
        if AllSubmitted(ms) {
          ListsKeys(names, ms);
          ListsMembers(names, ms);
          var group := SumCommitments(ms, names);
          storage := storage.(commitment := storage.commitment[sh := group],
                              state := storage.state[sh := ShardStatus.Committed]);
        }
      }
    }

    /** `execute_ready`. */
    method ReportReady(m: Account, sh: Shard) returns (ok: bool)
      modifies this
      ensures var r := MarkReady(old(storage), m, sh); ok == r.Some? && storage == Accepted(r, old(storage))
    {
      var ms := MembersOf(storage, sh);
      ok := m in ms && ms[m].Submitted? && sh in storage.shardNetwork && sh in storage.commitment;
      if ok {
        ms := ms[m := Ready];
        storage := storage.(members := storage.members[sh := ms]);
        if AllReady(ms) {
          storage := storage.(state := storage.state[sh := ShardStatus.Online]);
        }
      }
    }

    /** The hooks of one block, in the order in which the runtime lists the pallets. */
    method InitializeBlock(ns: Networks, ghost home: Home) returns (ghost e: Event)
      requires cfg.Valid() && ns.Valid() && Inv(cfg, home, storage)
      modifies this
      ensures e.NewBlock? && e.networks == ns && Enabled(cfg, old(storage), e)
      ensures storage == Next(cfg, home, old(storage), e) && Inv(cfg, home, storage)
    {
      hide Core, Beats, Timers, ElectionsHook, LifecycleSpec.TimeoutDkgs, LifecycleSpec.TimeoutHeartbeats,
           ListsNetworks, SplitTimedOut, Links;
      ghost var c := storage;
      ghost var due, beating := DefaultDue(cfg, c), Listing(c.heartbeat);
      storage := Advance(storage);
      ghost var c0 := storage;
      ghost var hi := c.block + cfg.dkgTimeout;
      CoreFrame(home, c, c0);
      BeatsFrame(c, c0);
      TimersFrame(c, c0, c.block + 1, hi);
      if storage.block % cfg.heartbeatTimeout == 0 {
        due, beating := TimeoutHeartbeats(home, c0.block, hi);
      }
      MembersHookKeeps(cfg, home, c0, due, beating, c0.block, hi);
      CoreLinks(home, storage);
      TimeoutDkgs(storage.block);
      ElectionsInitialize(ns);
      e := NewBlock(ns, due, beating);
      NewBlockKeeps(cfg, home, c, e);
    }

    method AddMembers(sh: Shard, ms: seq<Account>)
      modifies this
      ensures storage == old(storage).(members :=
              old(storage).members[sh := MembersOf(old(storage), sh) + AllAdded(ms)],
                                       memberShard := old(storage).memberShard + AllTo(ms, sh))
    {
      hide AllAdded, AllTo;
      ghost var c := storage;
      storage := storage.(members := storage.members[sh := MembersOf(storage, sh)]);
      AddedNobody(c, ms[..0], sh);
      for i := 0 to |ms|
        invariant storage == c.(members := c.members[sh := MembersOf(c, sh) + AllAdded(ms[..i])],
                                memberShard := c.memberShard + AllTo(ms[..i], sh))
      {
        OneMoreAdded(MembersOf(c, sh), ms, i);
        OneMoreTo(c.memberShard, ms, i, sh);
        storage := storage.(members := storage.members[sh := storage.members[sh][ms[i] := Added]],
                            memberShard := storage.memberShard[ms[i] := sh]);
      }
      assert ms[..|ms|] == ms;
    }

    method WriteUpdates(updates: map<Shard, Update>)
      requires forall sh :: sh in updates ==> updates[sh].0 <= 0xFFFF
      modifies this
      ensures storage == Written(old(storage), updates, updates.Keys)
    {
      hide Written;
      ghost var c := storage;
      WrittenNothing(c, updates);
      var todo := updates.Keys;
      assert updates.Keys - todo == {};
      while todo != {}
        invariant todo <= updates.Keys && storage == Written(c, updates, updates.Keys - todo)
      {
        var sh := FindMin(todo);
        WrittenStep(c, updates, updates.Keys - todo, sh);
        assert updates.Keys - (todo - {sh}) == (updates.Keys - todo) + {sh};
        storage := storage.(onlineCount :=
            storage.onlineCount[sh := if updates[sh].0 <= 0xFFFF then updates[sh].0 else 0]);
        if updates[sh].1.Some? {
          storage := storage.(state := storage.state[sh := updates[sh].1.value]);
        }
        todo := todo - {sh};
      }
      assert updates.Keys - todo == updates.Keys;
    }

    /** The second pass of `remove_shards_offline`. */
    method ReturnMembers(ghost c: Chain, ghost shards: set<Shard>, updates: map<Network, seq<Account>>)
      requires storage == Cleared(c, shards) && Collects(c, shards, updates)
      modifies this
      ensures storage == RemoveShards(c, shards)
    {
      hide Cleared, Refilled, Returned, RemoveShards, NetworksOf, ListsSet, ReleasedOn;
      RefilledNothing(c, shards);
      RefilledAll(c, shards);
      var todo := updates.Keys;
      assert updates.Keys - todo == {};
      while todo != {}
        invariant todo <= updates.Keys && storage == Refilled(c, shards, updates.Keys - todo)
      {
        var n := FindMin(todo);
        RefilledStep(c, shards, updates.Keys - todo, n, updates[n]);
        assert updates.Keys - (todo - {n}) == (updates.Keys - todo) + {n};
        ShardOffline(n, updates[n]);
        todo := todo - {n};
      }
      assert updates.Keys - todo == updates.Keys;
    }
  }

  lemma TracksNothing(c: Chain, s: seq<Account>)
    requires s == []
    ensures Tracks(c, Elements(s), map[], [])
  {
    assert Touched(c, Elements(s)) == {};
  }

  lemma TracksParts(c: Chain, done: set<Account>, updates: map<Shard, Update>, fallen: seq<Shard>)
    requires Tracks(c, done, updates, fallen)
    ensures NoDuplicates(fallen) && Elements(fallen) == Broken(c, done)
  {}

  lemma ElementsOf(s: seq<nat>)
    ensures forall x :: x in Elements(s) <==> x in s
  {}

  lemma NarrowUpdate(c: Chain, done: set<Account>, updates: map<Shard, Update>, fallen: seq<Shard>, sh: Shard)
    requires Tracks(c, done, updates, fallen) && sh in updates
    requires forall m :: m in done && m in c.memberShard ==> CountOf(c, c.memberShard[m]) <= 0xFFFF
    ensures updates[sh].0 <= 0xFFFF
  {
    assert sh in Touched(c, done);
  }

  lemma WrittenLinks(c: Chain, updates: map<Shard, Update>)
    requires Links(c)
    ensures Links(Written(c, updates, updates.Keys))
  {}

  lemma NoElements(s: seq<nat>)
    requires s == []
    ensures Elements(s) == {}
  {}

  lemma DrainOne(memberShard: map<Account, Shard>, all: set<Account>, left: set<Account>, drained: seq<Account>,
                 m: Account)
    requires left <= all && m in left && ListsSet(drained, all - left)
    ensures ListsSet(drained + [m], all - (left - {m}))
    ensures memberShard - (all - (left - {m})) == (memberShard - (all - left)) - {m}
  {
    assert all - (left - {m}) == (all - left) + {m};
  }
}
