/**
  The storage of the members, elections and shards pallets, and what each of their calls and hooks
  does to it. Storage listed in an order the source does not fix is a set or a map here.
 */
module LifecycleSpec {
  import opened Options
  import opened Arithmetic
  import opened Sequences
  import opened Polynomials
  import opened DkgSpec

  type Account = nat
  type Network = nat
  type Shard = nat
  type Block = nat

  datatype ShardStatus = Created | Committed | Online | Offline
  datatype MemberStatus = Added | Submitted(commitment: Commitment) | Ready

  datatype Config = Config(dkgTimeout: nat, maxElections: nat, maxTimeouts: nat, heartbeatTimeout: nat) {
    predicate Valid() {
      dkgTimeout > 0 && heartbeatTimeout > 0
    }
  }

  /** The networks in the order the networks pallet lists them, with their shard size and threshold. */
  datatype Networks = Networks(list: seq<Network>, sizes: map<Network, nat>, thresholds: map<Network, nat>) {
    function Size(n: Network): (s: nat) {
      if n in sizes then sizes[n] else 3
    }
    function Threshold(n: Network): (t: nat) {
      if n in thresholds then thresholds[n] else 2
    }
    predicate Valid() {
      forall n :: n in list ==> 1 <= Threshold(n) <= Size(n) < 0x1_0000
    }
  }

  datatype Chain = Chain(
    block: Block,
    // members pallet
    network: map<Account, Network>,
    registered: set<Account>,
    online: set<Account>,
    heartbeat: set<Account>,
    timedOut: seq<Account>,
    // elections pallet
    unassigned: map<Network, seq<Account>>,
    netCounter: nat,
    // shards pallet
    nextShard: Shard,
    shardNetwork: map<Shard, Network>,
    state: map<Shard, ShardStatus>,
    threshold: map<Shard, nat>,
    commitment: map<Shard, Commitment>,
    memberShard: map<Account, Shard>,
    members: map<Shard, map<Account, MemberStatus>>,
    onlineCount: map<Shard, nat>,
    timeouts: map<Block, set<Shard>>,
    timeoutCount: map<Block, nat>)

  function Genesis(): (c: Chain) {
    Chain(0, map[], {}, {}, {}, [], map[], 0, 0, map[], map[], map[], map[], map[], map[], map[], map[], map[])
  }

  function Pool(c: Chain, n: Network): (s: seq<Account>) {
    if n in c.unassigned then c.unassigned[n] else []
  }

  function CountOf(c: Chain, sh: Shard): (n: nat) {
    if sh in c.onlineCount then c.onlineCount[sh] else 0
  }

  function MembersOf(c: Chain, sh: Shard): (m: map<Account, MemberStatus>) {
    if sh in c.members then c.members[sh] else map[]
  }

  function TimeoutsAt(c: Chain, b: Block): (s: set<Shard>) {
    if b in c.timeouts then c.timeouts[b] else {}
  }

  function TimeoutCountAt(c: Chain, b: Block): (n: nat) {
    if b in c.timeoutCount then c.timeoutCount[b] else 0
  }

  predicate InDkg(s: ShardStatus) {
    s.Created? || s.Committed?
  }

  // ------------------------------------------------------------------ members

  function Register(c: Chain, m: Account, n: Network): (c': Chain) {
    c.(network := c.network[m := n], registered := c.registered + {m})
  }

  /** `Shards::member_online`. */
  function ShardMemberOnline(c: Chain, m: Account): (c': Chain) {
    if m !in c.memberShard || c.memberShard[m] !in c.state then c
    else
      var sh := c.memberShard[m];
      c.(onlineCount := c.onlineCount[sh := if CountOf(c, sh) < 0xFFFF then CountOf(c, sh) + 1 else 0xFFFF],
         state := if InDkg(c.state[sh]) then c.state[sh := Offline] else c.state)
  }

  /** `Members::member_online` with `Elections::member_online`. */
  function MemberOnline(c: Chain, m: Account, n: Network): (c': Chain) {
    var c1 := c.(online := c.online + {m});
    ShardMemberOnline(
      if m in c1.memberShard then c1
      else c1.(unassigned := c1.unassigned[n := SortDescending(Pool(c1, n) + [m])]),
      m)
  }

  /** None stands for the two errors, which leave the storage as it was. */
  function Heartbeat(c: Chain, m: Account): (r: Option<Chain>) {
    if m in c.heartbeat || m !in c.network then None
    else
      var c1 := if m in c.online then c else MemberOnline(c, m, c.network[m]);
      Some(c1.(heartbeat := c1.heartbeat + {m}, timedOut := Without(c1.timedOut, {m})))
  }

  function Unregister(c: Chain, m: Account): (r: Option<Chain>) {
    if m !in c.network || m !in c.registered then None
    else
      Some(c.(registered := c.registered - {m},
              network := if m in c.memberShard then c.network else c.network - {m}))
  }

  // ----------------------------------------------------------- shards go offline

  ghost function Gone(c: Chain, shards: set<Shard>): (s: set<Shard>) {
    shards * c.shardNetwork.Keys
  }

  ghost function Released(c: Chain, shards: set<Shard>): (s: set<Account>) {
    set m | m in c.memberShard && c.memberShard[m] in Gone(c, shards)
  }

  /** The members `Elections::shard_offline` puts back into the pool of network n. */
  ghost function Returning(c: Chain, shards: set<Shard>, n: Network): (s: set<Account>) {
    set m | m in Released(c, shards) && c.shardNetwork[c.memberShard[m]] == n && m in c.registered && m in c.online
  }

  ghost function NetworksOf(c: Chain, shards: set<Shard>): (s: set<Network>) {
    set sh | sh in Gone(c, shards) :: c.shardNetwork[sh]
  }

  /** `remove_shards_offline`, for all the shards at once. */
  ghost function RemoveShards(c: Chain, shards: set<Shard>): (c': Chain) {
    c.(state := c.state + map sh | sh in shards :: Offline,
       threshold := c.threshold - shards,
       shardNetwork := c.shardNetwork - shards,
       members := c.members - Gone(c, shards),
       memberShard := c.memberShard - Released(c, shards),
       network := c.network - (Released(c, shards) - c.registered),
       unassigned := c.unassigned + map n | n in NetworksOf(c, shards) ::
           SortDescending(Pool(c, n) + Listing(Returning(c, shards, n))))
  }

  /** The members of `ms` that belong to shard sh. */
  ghost function Hit(c: Chain, ms: set<Account>, sh: Shard): (s: set<Account>) {
    set m | m in ms && m in c.memberShard && c.memberShard[m] == sh
  }

  ghost function Touched(c: Chain, ms: set<Account>): (s: set<Shard>) {
    set m | m in ms && m in c.memberShard :: c.memberShard[m]
  }

  function Minus(a: nat, b: nat): (r: nat) {
    if a < b then 0 else a - b
  }

  /** The shards that cannot go on once `ms` are offline. */
  ghost function Broken(c: Chain, ms: set<Account>): (s: set<Shard>) {
    set sh | sh in Touched(c, ms) && sh in c.state && sh in c.threshold
             && (InDkg(c.state[sh])
                 || (c.state[sh].Online? && Minus(CountOf(c, sh), |Hit(c, ms, sh)|) < c.threshold[sh]))
  }

  ghost function LowerCounts(c: Chain, ms: set<Account>): (m: map<Shard, nat>) {
    map sh | sh in Touched(c, ms) :: Minus(CountOf(c, sh), |Hit(c, ms, sh)|)
  }

  /** `Shards::members_offline`. */
  ghost function ShardMembersOffline(c: Chain, ms: set<Account>): (c': Chain) {
    RemoveShards(
      c.(onlineCount := c.onlineCount + LowerCounts(c, ms)),
      Broken(c, ms))
  }

  /** `Members::members_offline` with `Elections::members_offline`. */
  ghost function MembersOffline(c: Chain, ms: set<Account>, n: Network): (c': Chain) {
    ShardMembersOffline(
      c.(online := c.online - ms, unassigned := c.unassigned[n := Without(Pool(c, n), ms)]),
      ms)
  }

  // ------------------------------------------------------------------------ dkg

  predicate AllSubmitted(m: map<Account, MemberStatus>) {
    forall a :: a in m ==> m[a].Submitted?
  }

  predicate AllReady(m: map<Account, MemberStatus>) {
    forall a :: a in m ==> m[a].Ready?
  }

  function Collected(m: map<Account, MemberStatus>, order: seq<Account>): (cs: seq<Commitment>)
    requires AllSubmitted(m) && forall i :: 0 <= i < |order| ==> order[i] in m
    ensures |cs| == |order|
  {
    seq(|order|, i requires 0 <= i < |order| => m[order[i]].commitment)
  }

  ghost predicate Lists(order: seq<Account>, m: map<Account, MemberStatus>) {
    NoDuplicates(order) && Elements(order) == m.Keys
  }

  /** `execute_commit`; `genuine` says whether the points and the proof of knowledge check out. */
  ghost function Commit(c: Chain, m: Account, sh: Shard, commitment: Commitment, genuine: bool,
                        order: seq<Account>): (r: Option<Chain>)
    requires Lists(order, MembersOf(c, sh))
  {
    var ms := MembersOf(c, sh);
    if !(m in ms && ms[m].Added?) then None
    else if |commitment| != (if sh in c.threshold then c.threshold[sh] else 0) then None
    else if !genuine || m !in c.network then None
    else
      var ms' := ms[m := Submitted(commitment)];
      ListsMembers(order, ms);
      Some(c.(members := c.members[sh := ms'],
              commitment := if AllSubmitted(ms') then c.commitment[sh := GroupCommitment(Collected(ms', order))]
                  else c.commitment,
              state := if AllSubmitted(ms') then c.state[sh := ShardStatus.Committed] else c.state))
  }

  lemma ListsMembers(order: seq<Account>, m: map<Account, MemberStatus>)
    requires Lists(order, m)
    ensures forall i :: 0 <= i < |order| ==> order[i] in m
    ensures m != map[] ==> order != []
  {
    forall i | 0 <= i < |order| ensures order[i] in m {
      assert order[i] in Elements(order);
    }
    if order == [] {
      assert Elements(order) == {};
      assert m.Keys == {};
    }
  }

  /** `execute_ready`. */
  function MarkReady(c: Chain, m: Account, sh: Shard): (r: Option<Chain>) {
    var ms := MembersOf(c, sh);
    if !(m in ms && ms[m].Submitted?) || sh !in c.shardNetwork || sh !in c.commitment then None
    else
      var ms' := ms[m := Ready];
      Some(c.(members := c.members[sh := ms'],
              state := if AllReady(ms') then c.state[sh := ShardStatus.Online] else c.state))
  }

  // ---------------------------------------------------------------------- hooks

  /** The members whose time is up now, and the ones that stay in the list. */
  function SplitTimedOut(s: seq<Account>, network: map<Account, Network>,
                         room: nat): (r: (seq<Account>, seq<Account>)) {
    if s == [] then ([], [])
    else if room > 0 && s[0] in network then
      var (now, later) := SplitTimedOut(s[1..], network, room - 1);
      ([s[0]] + now, later)
    else
      var (now, later) := SplitTimedOut(s[1..], network, room);
      (now, [s[0]] + later)
  }

  ghost function OnNetwork(ms: seq<Account>, network: map<Account, Network>, n: Network): (s: set<Account>) {
    set m | m in ms && m in network && network[m] == n
  }

  /** Takes the given members of each network offline, network after network. */
  ghost function OfflineByNetwork(c: Chain, ms: seq<Account>, network: map<Account, Network>,
                                  order: seq<Network>): (c': Chain) {
    if order == [] then c
    else
      var n := |order| - 1;
      MembersOffline(OfflineByNetwork(c, ms, network, order[..n]), OnNetwork(ms, network, order[n]), order[n])
  }

  /** `timeout_heartbeats`; `order` lists the networks concerned, `beating` the drained heartbeats. */
  ghost function TimeoutHeartbeats(cfg: Config, c: Chain, order: seq<Network>, beating: seq<Account>): (c': Chain) {
    var (now, later) := SplitTimedOut(c.timedOut, c.network, cfg.maxTimeouts);
    OfflineByNetwork(c, now, c.network, order).(timedOut := later + beating, heartbeat := {})
  }

  ghost function DueDkgs(c: Chain, n: Block): (s: set<Shard>) {
    set sh | sh in TimeoutsAt(c, n) && sh in c.state && InDkg(c.state[sh])
  }

  /** `timeout_dkgs`. */
  ghost function TimeoutDkgs(c: Chain, n: Block): (c': Chain) {
    RemoveShards(c, DueDkgs(c, n)).(timeouts := c.timeouts - {n}, timeoutCount := c.timeoutCount - {n})
  }

  /** `create_shard`; None when this block has no room for another key generation. */
  function CreateShard(cfg: Config, c: Chain, n: Network, ms: seq<Account>, threshold: nat): (r: Option<Chain>) {
    var b := c.block + cfg.dkgTimeout;
    if TimeoutCountAt(c, b) >= cfg.maxElections then None
    else
      var sh := c.nextShard;
      Some(c.(nextShard := sh + 1,
              timeoutCount := c.timeoutCount[b := TimeoutCountAt(c, b) + 1],
              timeouts := c.timeouts[b := TimeoutsAt(c, b) + {sh}],
              shardNetwork := c.shardNetwork[sh := n],
              state := c.state[sh := Created],
              threshold := c.threshold[sh := threshold],
              members := c.members[sh := MembersOf(c, sh) + map m | m in ms :: Added],
              memberShard := c.memberShard + map m | m in ms :: sh,
              onlineCount := c.onlineCount[sh := |ms|]))
  }

  /** Creates shards from consecutive chunks; what is left when one fails comes back. */
  function CreateShards(cfg: Config, c: Chain, n: Network, ms: seq<Account>, size: nat,
                        threshold: nat): (r: (Chain, seq<Account>, nat))
    requires size > 0 && |ms| % size == 0
    decreases |ms|
  {
    if ms == [] then (c, [], 0)
    else
      ChunkFits(|ms|, size);
      match CreateShard(cfg, c, n, ms[..size], threshold)
      case None => (c, ms, 0)
      case Some(c1) =>
        var (c2, left, k) := CreateShards(cfg, c1, n, ms[size..], size, threshold);
        (c2, left, k + 1)
  }

  lemma ChunkFits(n: nat, size: nat)
    requires size > 0 && n % size == 0 && n > 0
    ensures size <= n && (n - size) % size == 0
  {
    if n < size {
      DivUnique(n, size, 0, n);
    }
    ModStep(n - size, size);
  }

  function Lesser(a: nat, b: nat): (r: nat) {
    if a < b then a else b
  }

  /** How many pool members are elected: whole shards only, and at most `room` of them. */
  function Elected(pool: nat, size: nat, room: nat): (k: nat)
    requires size > 0
    ensures k <= pool && k % size == 0
  {
    var shards := Lesser(pool / size, room);
    WholeShards(pool, size, shards);
    shards * size
  }

  lemma WholeShards(pool: nat, size: nat, shards: nat)
    requires size > 0 && shards <= pool / size
    ensures shards * size <= pool && (shards * size) % size == 0
  {
    MultipleMod(shards, size);
    Scaled(shards, pool / size, size);
  }

  /** Elects the first k members of the pool. */
  function ElectFirst(cfg: Config, c: Chain, ns: Networks, n: Network, k: nat): (r: (Chain, nat))
    requires ns.Size(n) > 0 && k <= |Pool(c, n)| && k % ns.Size(n) == 0
  {
    var (c1, back, num) := CreateShards(cfg, c, n, Pool(c, n)[..k], ns.Size(n), ns.Threshold(n));
    (c1.(unassigned := c1.unassigned[n := Pool(c, n)[k..] + back]), num)
  }

  /** `try_elect_shards`. */
  function TryElect(cfg: Config, c: Chain, ns: Networks, n: Network, room: nat): (r: (Chain, nat))
    requires ns.Size(n) > 0
  {
    ElectFirst(cfg, c, ns, n, Elected(|Pool(c, n)|, ns.Size(n), room))
  }

  /** How many networks are still to be visited before the round robin is back where it began. */
  function ToGo(counter: nat, start: nat, len: nat): (n: nat) {
    if counter >= len then 0 else if counter >= start then len - counter + start else start - counter
  }

  /** The loop of `Elections::on_initialize`: (chain, next counter, elections, wrapped around). */
  function ElectFrom(cfg: Config, c: Chain, ns: Networks, start: nat, counter: nat,
                     num: nat): (r: (Chain, nat, nat, bool))
    requires ns.Valid() && num <= cfg.maxElections && (start < |ns.list| || counter == start)
    decreases ToGo(counter, start, |ns.list|)
  {
    if num >= cfg.maxElections then (c, counter, num, false)
    else if counter >= |ns.list| then (c, 0, num, false)
    else
      var n := ns.list[counter];
      var (c1, k) := TryElect(cfg, c, ns, n, cfg.maxElections - num);
      ElectedWithin(cfg, c, ns, n, cfg.maxElections - num);
      var next := if counter + 1 == |ns.list| then 0 else counter + 1;
      if next == start then (c1, next, num + k, true)
      else ElectFrom(cfg, c1, ns, start, next, num + k)
  }

  lemma {:induction false} CreatedWithin(cfg: Config, c: Chain, n: Network, ms: seq<Account>, size: nat, threshold: nat)
    requires size > 0 && |ms| % size == 0
    ensures CreateShards(cfg, c, n, ms, size, threshold).2 * size <= |ms|
    decreases |ms|
  {
    if ms != [] {
      ChunkFits(|ms|, size);
      var r := CreateShard(cfg, c, n, ms[..size], threshold);
      if r.Some? {
        CreatedWithin(cfg, r.value, n, ms[size..], size, threshold);
        var k := CreateShards(cfg, r.value, n, ms[size..], size, threshold).2;
        OneMore(k, size, |ms|);
      }
    }
  }

  lemma OneMore(k: nat, size: nat, n: nat)
    requires size <= n && k * size <= n - size
    ensures (k + 1) * size <= n
  {
    assert (k + 1) * size == k * size + size;
  }

  /** One network elects no more shards than there is room for. */
  lemma ElectedWithin(cfg: Config, c: Chain, ns: Networks, n: Network, room: nat)
    requires ns.Size(n) > 0
    ensures TryElect(cfg, c, ns, n, room).1 <= room
  {
    var size := ns.Size(n);
    var k := Elected(|Pool(c, n)|, size, room);
    CreatedWithin(cfg, c, n, Pool(c, n)[..k], size, ns.Threshold(n));
    var num := CreateShards(cfg, c, n, Pool(c, n)[..k], size, ns.Threshold(n)).2;
    Cancel(num, Lesser(|Pool(c, n)| / size, room), size);
  }

  /** `Elections::on_initialize`. */
  function ElectionsHook(cfg: Config, c: Chain, ns: Networks): (c': Chain)
    requires ns.Valid()
  {
    var (c1, counter, _, wrapped) := ElectFrom(cfg, c, ns, c.netCounter, c.netCounter, 0);
    if wrapped then c1 else c1.(netCounter := counter)
  }
}
