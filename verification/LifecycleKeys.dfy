/** The group commitment of a shard over whole runs: the sum of what its members submitted, for good. */
module LifecycleKeys {
  import opened Sequences
  import opened Polynomials
  import opened DkgSpec
  import opened LifecycleSpec
  import opened LifecycleInvariant
  import opened LifecycleSteps
  import opened LifecycleElections
  import opened LifecycleRuns

  /** The commitments that members of each shard have submitted. */
  type Submissions = map<Shard, map<Account, Commitment>>

  function Given(g: Submissions, sh: Shard): (m: map<Account, Commitment>) {
    if sh in g then g[sh] else map[]
  }

  /** Every point is a multiple of the base point, so every commitment is one to some polynomial. */
  function Logs(c: Commitment): (p: Polynomial)
    ensures |p| == |c|
  {
    seq(|c|, i requires 0 <= i < |c| => c[i].multiple)
  }

  ghost function Secrets(given: map<Account, Commitment>): (polys: map<Account, Polynomial>) {
    map m | m in given :: Logs(given[m])
  }

  /** The group commitment has t entries, and entry j is the sum of all members' entries j. */
  ghost predicate IsGroup(group: Commitment, given: map<Account, Commitment>, t: nat) {
    && |group| == t && (forall m :: m in given ==> |given[m]| == t)
    && forall j :: 0 <= j < t ==> group[j] == Field.Base(Total(given.Keys, Coefficient(Secrets(given), j)))
  }

  // ------------------------------------------------------------------ the last submission

  lemma LogsCommit(c: Commitment)
    ensures Polynomials.Commit(Logs(c)) == c
  {}

  lemma InOrderOf(ms: map<Account, MemberStatus>, given: map<Account, Commitment>, order: seq<Account>)
    requires AllSubmitted(ms) && given.Keys == ms.Keys && forall m :: m in ms ==> given[m] == ms[m].commitment
    requires forall i :: 0 <= i < |order| ==> order[i] in ms
    ensures Collected(ms, order) == InOrder(order, given)
  {}

  /** Whatever the listing, the reduced commitment is the sum of all submissions. */
  lemma CollectedIsGroup(ms: map<Account, MemberStatus>, given: map<Account, Commitment>, order: seq<Account>, t: nat)
    requires ms != map[] && AllSubmitted(ms) && Lists(order, ms)
    requires given.Keys == ms.Keys && forall m :: m in ms ==> given[m] == ms[m].commitment && |given[m]| == t
    ensures (forall i :: 0 <= i < |order| ==> order[i] in ms) && order != []
    ensures IsGroup(GroupCommitment(Collected(ms, order)), given, t)
  {
    ListsMembers(order, ms);
    InOrderOf(ms, given, order);
    forall m | m in given ensures Polynomials.Commit(Secrets(given)[m]) == given[m] {
      LogsCommit(given[m]);
    }
    hide AllSubmitted, GroupCommitment, Total, NoDuplicates, Polynomials.Commit;
    GroupCommitsToSum(order, given, Secrets(given), t);
    CommitEntries(SumPolynomial(given.Keys, Secrets(given), t));
  }

  lemma CommitEntries(p: Polynomial)
    ensures forall j :: 0 <= j < |p| ==> Polynomials.Commit(p)[j] == Field.Base(p[j])
  {}

  /** If each member committed to a polynomial, the group commitment is to their sum. */
  lemma GroupIsSum(group: Commitment, given: map<Account, Commitment>, polys: map<Account, Polynomial>, t: nat)
    requires IsGroup(group, given, t) && Commits(given, polys)
    ensures AllOfLength(polys, t) && group == Polynomials.Commit(SumPolynomial(given.Keys, polys, t))
  {
    forall m | m in polys ensures Secrets(given)[m] == polys[m] {
      assert given[m] == Polynomials.Commit(polys[m]);
      assert Logs(given[m]) == polys[m];
    }
    assert Secrets(given) == polys;
  }

  // --------------------------------------------------------------- what the books say

  /** What the stored statuses and commitments say about the submissions so far. */
  ghost predicate ShardKeyed(c: Chain, given: map<Account, Commitment>, sh: Shard) {
    && (sh in c.members ==>
          && (forall m :: m in given <==> m in c.members[sh] && !c.members[sh][m].Added?)
          && (forall m :: m in c.members[sh] && c.members[sh][m].Submitted? ==>
                c.members[sh][m].commitment == given[m]))
    && (sh in c.threshold && sh in c.members ==> forall m :: m in given ==> |given[m]| == c.threshold[sh])
    && (sh in c.commitment ==> given != map[] && IsGroup(c.commitment[sh], given, |c.commitment[sh]|))
  }

  ghost predicate Keyed(c: Chain, g: Submissions) {
    && (forall sh :: sh in g ==> sh < c.nextShard)
    && (forall sh :: ShardKeyed(c, Given(g, sh), sh))
  }

  /** No shard to come is in the books yet. */
  ghost predicate Fresh(c: Chain) {
    forall sh :: sh >= c.nextShard ==> sh !in c.members && sh !in c.commitment
  }

  /** Shards may go, and new ones come with nothing submitted; the other statuses and all commitments stay. */
  ghost predicate KeepsKeys(c: Chain, c': Chain) {
    && c.nextShard <= c'.nextShard && c'.commitment == c.commitment && Fresh(c')
    && (forall sh :: sh in c'.members && sh < c.nextShard ==>
          sh in c.members && c'.members[sh] == c.members[sh])
    && (forall sh :: sh in c'.members && sh < c.nextShard && sh in c'.threshold ==>
          sh in c.threshold && c'.threshold[sh] == c.threshold[sh])
    && (forall sh, m :: sh in c'.members && sh >= c.nextShard && m in c'.members[sh] ==> c'.members[sh][m].Added?)
  }

  lemma KeepsTrans(c: Chain, c1: Chain, c2: Chain)
    requires KeepsKeys(c, c1) && KeepsKeys(c1, c2)
    ensures KeepsKeys(c, c2)
  {}

  lemma KeepsFrame(c: Chain, c': Chain)
    requires Fresh(c) && c'.nextShard == c.nextShard && c'.commitment == c.commitment && c'.members == c.members
    requires c'.threshold == c.threshold
    ensures KeepsKeys(c, c')
  {}

  lemma CoreFresh(home: Home, c: Chain)
    requires Core(home, c, {})
    ensures Fresh(c)
  {
    hide Links, Lives, Pools, Homes, StatusOk;
    forall sh | sh >= c.nextShard ensures sh !in c.members && sh !in c.commitment {
      assert sh in c.members ==> Base(home, c, sh);
    }
  }

  lemma KeepsKeyed(c: Chain, c': Chain, g: Submissions)
    requires Keyed(c, g) && Fresh(c) && KeepsKeys(c, c')
    ensures Keyed(c', g)
  {
    hide IsGroup;
    forall sh ensures ShardKeyed(c', Given(g, sh), sh) {
      assert ShardKeyed(c, Given(g, sh), sh);
    }
  }

  // -------------------------------------------------------------------- shards that go

  lemma RemoveKeeps(c: Chain, shards: set<Shard>)
    requires Fresh(c)
    ensures KeepsKeys(c, RemoveShards(c, shards))
  {
    hide Returning, Released, NetworksOf, Gone, SortDescending;
  }

  lemma OfflineKeeps(c: Chain, ms: set<Account>, n: Network)
    requires Fresh(c)
    ensures KeepsKeys(c, MembersOffline(c, ms, n))
  {
    hide RemoveShards, Broken, KeepsKeys;
    var c1 := Lowered(c, ms, n);
    OfflineIsRemoval(c, ms, n);
    KeepsFrame(c, c1);
    RemoveKeeps(c1, Broken(c, ms));
    KeepsTrans(c, c1, MembersOffline(c, ms, n));
  }

  lemma StaysFresh(c: Chain, c': Chain)
    requires KeepsKeys(c, c')
    ensures Fresh(c')
  {}

  lemma {:induction false} OfflineByNetworkKeeps(c: Chain, ms: seq<Account>, network: map<Account, Network>,
                                                 order: seq<Network>)
    requires Fresh(c)
    ensures KeepsKeys(c, OfflineByNetwork(c, ms, network, order))
  {
    hide MembersOffline, KeepsKeys, Fresh;
    if order == [] {
      KeepsFrame(c, c);
    } else {
      var n := |order| - 1;
      OfflineByNetworkKeeps(c, ms, network, order[..n]);
      var c1 := OfflineByNetwork(c, ms, network, order[..n]);
      StaysFresh(c, c1);
      OfflineKeeps(c1, OnNetwork(ms, network, order[n]), order[n]);
      KeepsTrans(c, c1, OfflineByNetwork(c, ms, network, order));
    }
  }

  lemma MembersHookKeepsKeys(cfg: Config, c: Chain, due: seq<Network>, beating: seq<Account>)
    requires cfg.Valid() && Fresh(c)
    ensures KeepsKeys(c, MembersHook(cfg, c, due, beating))
  {
    hide OfflineByNetwork, SplitTimedOut, KeepsKeys, Fresh;
    KeepsFrame(c, c);
    if c.block % cfg.heartbeatTimeout == 0 {
      var now := SplitTimedOut(c.timedOut, c.network, cfg.maxTimeouts).0;
      var c1 := OfflineByNetwork(c, now, c.network, due);
      var c' := TimeoutHeartbeats(cfg, c, due, beating);
      OfflineByNetworkKeeps(c, now, c.network, due);
      StaysFresh(c, c1);
      KeepsFrame(c1, c');
      KeepsTrans(c, c1, c');
    }
  }

  lemma BeforeElectionsKeepsKeys(cfg: Config, c: Chain, due: seq<Network>, beating: seq<Account>)
    requires cfg.Valid() && Fresh(c)
    ensures KeepsKeys(c, BeforeElections(cfg, c, due, beating))
  {
    hide MembersHook, RemoveShards, DueDkgs, KeepsKeys;
    var c0 := Advance(c);
    var c1 := MembersHook(cfg, c0, due, beating);
    var c2 := RemoveShards(c1, DueDkgs(c1, c1.block));
    KeepsFrame(c, c0);
    MembersHookKeepsKeys(cfg, c0, due, beating);
    KeepsTrans(c, c0, c1);
    StaysFresh(c, c1);
    RemoveKeeps(c1, DueDkgs(c1, c1.block));
    KeepsTrans(c, c1, c2);
    StaysFresh(c, c2);
    KeepsFrame(c2, TimeoutDkgs(c1, c1.block));
    KeepsTrans(c, c2, TimeoutDkgs(c1, c1.block));
  }

  // ------------------------------------------------------------------- shards that come

  lemma AddsFresh(cfg: Config, c: Chain, n: Network, ms: seq<Account>, t: nat, c': Chain)
    requires Fresh(c) && Adds(cfg, c, n, ms, t, c')
    ensures Fresh(c')
  {}

  lemma AddsNew(cfg: Config, c: Chain, n: Network, ms: seq<Account>, t: nat, c': Chain)
    requires Fresh(c) && Adds(cfg, c, n, ms, t, c')
    ensures c.nextShard in c'.members && c'.members[c.nextShard] == AllAdded(ms)
    ensures c'.members == c.members[c.nextShard := AllAdded(ms)]
  {
    assert MembersOf(c, c.nextShard) == map[];
    assert map[] + AllAdded(ms) == AllAdded(ms);
  }

  lemma AddsKeeps(cfg: Config, c: Chain, n: Network, ms: seq<Account>, t: nat, c': Chain)
    requires Fresh(c) && Adds(cfg, c, n, ms, t, c')
    ensures KeepsKeys(c, c')
  {
    AddsFresh(cfg, c, n, ms, t, c');
    AddsNew(cfg, c, n, ms, t, c');
    assert forall m :: m in AllAdded(ms) ==> AllAdded(ms)[m].Added?;
    hide SameOutside, TimeoutsAt, TimeoutCountAt, MembersOf, AllAdded;
  }

  lemma {:induction false} CreateShardsKeep(cfg: Config, c: Chain, n: Network, ms: seq<Account>, size: nat, t: nat)
    requires size > 0 && |ms| % size == 0 && Fresh(c)
    ensures KeepsKeys(c, CreateShards(cfg, c, n, ms, size, t).0)
    decreases |ms|
  {
    hide CreateShard, KeepsKeys, Adds, Fresh;
    KeepsFrame(c, c);
    if ms != [] {
      ChunkFits(|ms|, size);
      var r := CreateShard(cfg, c, n, ms[..size], t);
      if r.Some? {
        CreateAdds(cfg, c, n, ms[..size], t, r.value);
        AddsKeeps(cfg, c, n, ms[..size], t, r.value);
        StaysFresh(c, r.value);
        CreateShardsKeep(cfg, r.value, n, ms[size..], size, t);
        KeepsTrans(c, r.value, CreateShards(cfg, r.value, n, ms[size..], size, t).0);
      }
    }
  }

  lemma TryElectKeepsKeys(cfg: Config, c: Chain, ns: Networks, n: Network, room: nat)
    requires ns.Size(n) > 0 && Fresh(c)
    ensures KeepsKeys(c, TryElect(cfg, c, ns, n, room).0)
  {
    hide CreateShards, KeepsKeys, Elected, Fresh;
    var k := Elected(|Pool(c, n)|, ns.Size(n), room);
    CreateShardsKeep(cfg, c, n, Pool(c, n)[..k], ns.Size(n), ns.Threshold(n));
    var c1 := CreateShards(cfg, c, n, Pool(c, n)[..k], ns.Size(n), ns.Threshold(n)).0;
    StaysFresh(c, c1);
    KeepsFrame(c1, TryElect(cfg, c, ns, n, room).0);
    KeepsTrans(c, c1, TryElect(cfg, c, ns, n, room).0);
  }

  lemma {:induction false} ElectFromKeepsKeys(cfg: Config, c: Chain, ns: Networks, start: nat, counter: nat, num: nat)
    requires ns.Valid() && num <= cfg.maxElections && (start < |ns.list| || counter == start) && Fresh(c)
    ensures KeepsKeys(c, ElectFrom(cfg, c, ns, start, counter, num).0)
    decreases ToGo(counter, start, |ns.list|)
  {
    hide TryElect, KeepsKeys, Fresh;
    KeepsFrame(c, c);
    if num < cfg.maxElections && counter < |ns.list| {
      var n := ns.list[counter];
      var (c1, k) := TryElect(cfg, c, ns, n, cfg.maxElections - num);
      TryElectKeepsKeys(cfg, c, ns, n, cfg.maxElections - num);
      StaysFresh(c, c1);
      ElectedWithin(cfg, c, ns, n, cfg.maxElections - num);
      var next := if counter + 1 == |ns.list| then 0 else counter + 1;
      if next != start {
        ElectFromKeepsKeys(cfg, c1, ns, start, next, num + k);
        KeepsTrans(c, c1, ElectFrom(cfg, c, ns, start, counter, num).0);
      }
    }
  }

  lemma NewBlockKeepsKeys(cfg: Config, c: Chain, due: seq<Network>, beating: seq<Account>, ns: Networks)
    requires cfg.Valid() && ns.Valid() && Fresh(c)
    ensures KeepsKeys(c, ElectionsHook(cfg, BeforeElections(cfg, c, due, beating), ns))
  {
    hide BeforeElections, ElectFrom, KeepsKeys, Fresh;
    var c1 := BeforeElections(cfg, c, due, beating);
    var c2 := ElectFrom(cfg, c1, ns, c1.netCounter, c1.netCounter, 0).0;
    BeforeElectionsKeepsKeys(cfg, c, due, beating);
    StaysFresh(c, c1);
    ElectFromKeepsKeys(cfg, c1, ns, c1.netCounter, c1.netCounter, 0);
    KeepsTrans(c, c1, c2);
    StaysFresh(c, c2);
    KeepsFrame(c2, ElectionsHook(cfg, c1, ns));
    KeepsTrans(c, c2, ElectionsHook(cfg, c1, ns));
  }

  // ------------------------------------------------------------------------- calls

  ghost function Submit(g: Submissions, m: Account, sh: Shard, commitment: Commitment): (g': Submissions) {
    g[sh := Given(g, sh)[m := commitment]]
  }

  function Marked(ms: map<Account, MemberStatus>, m: Account, status: MemberStatus): (r: map<Account, MemberStatus>) {
    ms[m := status]
  }

  /** The effect of an accepted commitment. */
  ghost predicate Takes(c: Chain, m: Account, sh: Shard, commitment: Commitment, genuine: bool, order: seq<Account>,
                        c': Chain) {
    && sh in c.members && m in c.members[sh] && c.members[sh][m].Added? && genuine
    && sh in c.threshold && |commitment| == c.threshold[sh] && sh < c.nextShard && sh !in c.commitment
    && c'.nextShard == c.nextShard && c'.threshold == c.threshold
    && c'.members == c.members[sh := Marked(c.members[sh], m, Submitted(commitment))]
    && Lists(order, c'.members[sh])
    && if AllSubmitted(c'.members[sh]) then
         && order != [] && (forall i :: 0 <= i < |order| ==> order[i] in c'.members[sh])
         && c'.commitment == c.commitment[sh := GroupCommitment(Collected(c'.members[sh], order))]
       else c'.commitment == c.commitment
  }

  lemma CommitTakes(cfg: Config, home: Home, c: Chain, m: Account, sh: Shard, commitment: Commitment, genuine: bool,
                    order: seq<Account>)
    requires Inv(cfg, home, c) && Lists(order, MembersOf(c, sh))
    requires LifecycleSpec.Commit(c, m, sh, commitment, genuine, order).Some?
    ensures Takes(c, m, sh, commitment, genuine, order,
                  LifecycleSpec.Commit(c, m, sh, commitment, genuine, order).value)
  {
    hide Core, Timers, Beats, Live, AllSubmitted, GroupCommitment, Collected, NoDuplicates, StatusOk;
    CoreShard(home, c, sh);
    CommitStatus(c.state[sh], c.members[sh], sh in c.commitment, m, commitment);
    ListsMembers(order, c.members[sh]);
    assert c.members[sh][m := Submitted(commitment)].Keys == c.members[sh].Keys;
  }

  lemma TakesGroup(c: Chain, g: Submissions, m: Account, sh: Shard, commitment: Commitment, order: seq<Account>,
                   c': Chain)
    requires Keyed(c, g) && Takes(c, m, sh, commitment, true, order, c')
    ensures ShardKeyed(c', Given(Submit(g, m, sh, commitment), sh), sh)
  {
    hide IsGroup, GroupCommitment, Collected, Lists;
    var given, ms' := Given(g, sh)[m := commitment], c'.members[sh];
    assert ShardKeyed(c, Given(g, sh), sh);
    assert given != map[] by { assert m in given; }
    if AllSubmitted(ms') {
      assert given.Keys == ms'.Keys;
      assert ms' != map[] by { assert m in ms'; }
      CollectedIsGroup(ms', given, order, |commitment|);
      GroupLength(c'.commitment[sh], given, |commitment|);
    }
  }

  lemma GroupLength(group: Commitment, given: map<Account, Commitment>, t: nat)
    requires IsGroup(group, given, t)
    ensures |group| == t
  {}

  lemma TakesKeyed(c: Chain, g: Submissions, m: Account, sh: Shard, commitment: Commitment, order: seq<Account>,
                   c': Chain)
    requires Keyed(c, g) && Takes(c, m, sh, commitment, true, order, c')
    ensures Keyed(c', Submit(g, m, sh, commitment))
  {
    hide IsGroup, GroupCommitment, Collected, Lists, AllSubmitted;
    var g' := Submit(g, m, sh, commitment);
    forall x ensures ShardKeyed(c', Given(g', x), x) {
      if x == sh {
        TakesGroup(c, g, m, sh, commitment, order, c');
      } else {
        assert ShardKeyed(c, Given(g, x), x);
      }
    }
  }

  lemma ReadyKeyed(c: Chain, g: Submissions, m: Account, sh: Shard)
    requires Keyed(c, g) && MarkReady(c, m, sh).Some?
    ensures Keyed(MarkReady(c, m, sh).value, g)
  {
    hide IsGroup, AllReady;
    var c' := MarkReady(c, m, sh).value;
    forall x ensures ShardKeyed(c', Given(g, x), x) {
      assert ShardKeyed(c, Given(g, x), x);
    }
  }

  ghost predicate SameKeys(c: Chain, c': Chain) {
    && c'.nextShard == c.nextShard && c'.commitment == c.commitment && c'.members == c.members
    && c'.threshold == c.threshold
  }

  lemma ShardOnlineKeys(c: Chain, m: Account)
    ensures SameKeys(c, ShardMemberOnline(c, m))
  {}

  lemma OnlineKeys(c: Chain, m: Account, n: Network)
    ensures SameKeys(c, MemberOnline(c, m, n))
  {
    hide ShardMemberOnline, SortDescending;
    var c1 := c.(online := c.online + {m});
    ShardOnlineKeys(c1, m);
    ShardOnlineKeys(c1.(unassigned := c1.unassigned[n := SortDescending(Pool(c1, n) + [m])]), m);
  }

  lemma HeartbeatKeys(c: Chain, m: Account)
    requires Fresh(c) && Heartbeat(c, m).Some?
    ensures KeepsKeys(c, Heartbeat(c, m).value)
  {
    hide MemberOnline, Without, KeepsKeys, Fresh;
    OnlineKeys(c, m, c.network[m]);
    KeepsFrame(c, Heartbeat(c, m).value);
  }

  lemma RegistrationKeys(c: Chain, m: Account, n: Network)
    requires Fresh(c)
    ensures KeepsKeys(c, Register(c, m, n)) && KeepsKeys(c, Accepted(Unregister(c, m), c))
  {
    hide KeepsKeys, Fresh;
    KeepsFrame(c, Register(c, m, n));
    KeepsFrame(c, Accepted(Unregister(c, m), c));
  }

  // --------------------------------------------------------------------- whole runs

  /** Only genuine submissions that are accepted are noted. */
  ghost function Noted(c: Chain, g: Submissions, e: Event): (g': Submissions)
    requires e.SubmitCommitment? ==> Lists(e.order, MembersOf(c, e.shard))
  {
    if e.SubmitCommitment? && e.genuine
       && LifecycleSpec.Commit(c, e.member, e.shard, e.commitment, e.genuine, e.order).Some?
    then Submit(g, e.member, e.shard, e.commitment)
    else g
  }

  lemma StepKeyed(cfg: Config, home: Home, c: Chain, g: Submissions, e: Event)
    requires cfg.Valid() && Inv(cfg, home, c) && Enabled(cfg, c, e) && Keyed(c, g)
    ensures Keyed(Next(cfg, home, c, e), Noted(c, g, e))
  {
    CoreFresh(home, c);
    hide Core, Beats, Timers, Register, Unregister, Heartbeat, LifecycleSpec.Commit, MarkReady, RemoveShards;
    hide ElectionsHook, BeforeElections, Lists, Keyed, KeepsKeys, Fresh, Takes;
    match e
    case RegisterMember(m) =>
      RegistrationKeys(c, m, home(m));
      KeepsKeyed(c, Register(c, m, home(m)), g);
    case UnregisterMember(m) =>
      RegistrationKeys(c, m, home(m));
      KeepsKeyed(c, Accepted(Unregister(c, m), c), g);
    case SendHeartbeat(m) =>
      if Heartbeat(c, m).Some? {
        HeartbeatKeys(c, m);
        KeepsKeyed(c, Heartbeat(c, m).value, g);
      }
    case SubmitCommitment(m, sh, commitment, genuine, order) =>
      var r := LifecycleSpec.Commit(c, m, sh, commitment, genuine, order);
      if r.Some? {
        CommitTakes(cfg, home, c, m, sh, commitment, genuine, order);
        TakesGenuine(c, m, sh, commitment, genuine, order, r.value);
        TakesKeyed(c, g, m, sh, commitment, order, r.value);
      }
    case ReportReady(m, sh) =>
      if MarkReady(c, m, sh).Some? { ReadyKeyed(c, g, m, sh); }
    case ForceOffline(sh) =>
      RemoveKeeps(c, {sh});
      KeepsKeyed(c, RemoveShards(c, {sh}), g);
    case NewBlock(networks, due, beating) =>
      NewBlockKeepsKeys(cfg, c, due, beating, networks);
      KeepsKeyed(c, Next(cfg, home, c, e), g);
  }

  lemma TakesGenuine(c: Chain, m: Account, sh: Shard, commitment: Commitment, genuine: bool, order: seq<Account>,
                     c': Chain)
    requires Takes(c, m, sh, commitment, genuine, order, c')
    ensures genuine
  {}

  /** The genuine submissions of a run. */
  ghost function AllNoted(cfg: Config, home: Home, c: Chain, g: Submissions, es: seq<Event>): (g': Submissions)
    requires cfg.Valid() && Run(cfg, home, c, es)
    decreases |es|
  {
    if es == [] then g else AllNoted(cfg, home, Next(cfg, home, c, es[0]), Noted(c, g, es[0]), es[1..])
  }

  lemma {:induction false} RunKeyed(cfg: Config, home: Home, c: Chain, g: Submissions, es: seq<Event>)
    requires cfg.Valid() && Inv(cfg, home, c) && Run(cfg, home, c, es) && Keyed(c, g)
    ensures Keyed(After(cfg, home, c, es), AllNoted(cfg, home, c, g, es))
    decreases |es|
  {
    hide Inv, Next, Keyed, Noted;
    if es != [] {
      StepKeeps(cfg, home, c, es[0]);
      StepKeyed(cfg, home, c, g, es[0]);
      RunKeyed(cfg, home, Next(cfg, home, c, es[0]), Noted(c, g, es[0]), es[1..]);
    }
  }

  /**
    In every reachable chain a Committed or Online shard stores the sum of the genuine submissions of exactly
    its members, with as many entries as its threshold. If the members committed to polynomials, it is the
    commitment to their sum.
   */
  ghost predicate HoldsGroupKey(c: Chain, g: Submissions, sh: Shard) {
    && sh in c.members && sh in c.threshold && sh in c.commitment
    && Given(g, sh).Keys == c.members[sh].Keys && IsGroup(c.commitment[sh], Given(g, sh), c.threshold[sh])
    && forall polys :: Commits(Given(g, sh), polys) ==>
         c.commitment[sh] == Polynomials.Commit(SumPolynomial(c.members[sh].Keys, polys, c.threshold[sh]))
  }

  lemma KeyedHolds(cfg: Config, home: Home, c: Chain, g: Submissions, sh: Shard)
    requires Inv(cfg, home, c) && Keyed(c, g) && sh in c.state && (c.state[sh].Committed? || c.state[sh].Online?)
    ensures HoldsGroupKey(c, g, sh)
  {
    hide Links, Lives, Pools, Homes, Timers, Beats, IsGroup;
    assert Base(home, c, sh);
    assert ShardKeyed(c, Given(g, sh), sh);
    var given := Given(g, sh);
    assert given.Keys == c.members[sh].Keys;
    SameLength(c.commitment[sh], given, |c.commitment[sh]|, c.threshold[sh]);
    forall polys | Commits(given, polys)
      ensures c.commitment[sh] == Polynomials.Commit(SumPolynomial(c.members[sh].Keys, polys, c.threshold[sh]))
    {
      GroupIsSum(c.commitment[sh], given, polys, c.threshold[sh]);
    }
  }

  lemma SameLength(group: Commitment, given: map<Account, Commitment>, t: nat, k: nat)
    requires IsGroup(group, given, t) && given != map[] && forall m :: m in given ==> |given[m]| == k
    ensures t == k
  {
    var m :| m in given.Keys;
  }

  lemma ReachableKeys(cfg: Config, home: Home, es: seq<Event>, sh: Shard)
    requires cfg.Valid() && Run(cfg, home, Genesis(), es)
    ensures var c := After(cfg, home, Genesis(), es);
            sh in c.state && (c.state[sh].Committed? || c.state[sh].Online?) ==>
              HoldsGroupKey(c, AllNoted(cfg, home, Genesis(), map[], es), sh)
  {
    assert Keyed(Genesis(), map[]);
    hide Inv, Run, After, AllNoted, Keyed, HoldsGroupKey;
    GenesisInv(cfg, home);
    ReachableInv(cfg, home, es);
    RunKeyed(cfg, home, Genesis(), map[], es);
    var c := After(cfg, home, Genesis(), es);
    if sh in c.state && (c.state[sh].Committed? || c.state[sh].Online?) {
      KeyedHolds(cfg, home, c, AllNoted(cfg, home, Genesis(), map[], es), sh);
    }
  }

  // --------------------------------------------------------------- commitments are final

  lemma KeepsFinal(c: Chain, c': Chain)
    requires KeepsKeys(c, c')
    ensures c'.commitment == c.commitment
  {}

  lemma TakesFinal(c: Chain, m: Account, sh: Shard, commitment: Commitment, genuine: bool, order: seq<Account>,
                   c': Chain, x: Shard)
    requires Takes(c, m, sh, commitment, genuine, order, c') && x in c.commitment
    ensures x in c'.commitment && c'.commitment[x] == c.commitment[x]
  {
    hide Lists, GroupCommitment, Collected, AllSubmitted;
  }

  lemma ReadyFinal(c: Chain, m: Account, sh: Shard)
    ensures Accepted(MarkReady(c, m, sh), c).commitment == c.commitment
  {}

  lemma StepFinal(cfg: Config, home: Home, c: Chain, e: Event, sh: Shard)
    requires cfg.Valid() && Inv(cfg, home, c) && Enabled(cfg, c, e) && sh in c.commitment
    ensures var c' := Next(cfg, home, c, e); sh in c'.commitment && c'.commitment[sh] == c.commitment[sh]
  {
    CoreFresh(home, c);
    hide Core, Beats, Timers, Register, Unregister, Heartbeat, LifecycleSpec.Commit, RemoveShards;
    hide ElectionsHook, BeforeElections, Lists, Fresh, KeepsKeys, Takes, MarkReady;
    match e
    case RegisterMember(m) =>
      RegistrationKeys(c, m, home(m));
      KeepsFinal(c, Next(cfg, home, c, e));
    case UnregisterMember(m) =>
      RegistrationKeys(c, m, home(m));
      KeepsFinal(c, Next(cfg, home, c, e));
    case SendHeartbeat(m) =>
      if Heartbeat(c, m).Some? {
        HeartbeatKeys(c, m);
        KeepsFinal(c, Heartbeat(c, m).value);
      }
    case SubmitCommitment(m, x, commitment, genuine, order) =>
      var r := LifecycleSpec.Commit(c, m, x, commitment, genuine, order);
      if r.Some? {
        CommitTakes(cfg, home, c, m, x, commitment, genuine, order);
        TakesFinal(c, m, x, commitment, genuine, order, r.value, sh);
      }
    case ReportReady(m, x) => ReadyFinal(c, m, x);
    case ForceOffline(x) =>
      RemoveKeeps(c, {x});
      KeepsFinal(c, RemoveShards(c, {x}));
    case NewBlock(networks, due, beating) =>
      NewBlockKeepsKeys(cfg, c, due, beating, networks);
      KeepsFinal(c, Next(cfg, home, c, e));
  }

  /** Once a shard has a group commitment, every continuation of the run keeps it as it is. */
  lemma {:induction false} CommitmentsAreFinal(cfg: Config, home: Home, c: Chain, es: seq<Event>, sh: Shard)
    requires cfg.Valid() && Inv(cfg, home, c) && Run(cfg, home, c, es) && sh in c.commitment
    ensures var c' := After(cfg, home, c, es); sh in c'.commitment && c'.commitment[sh] == c.commitment[sh]
    decreases |es|
  {
    hide Inv, Next, Enabled;
    if es != [] {
      StepKeeps(cfg, home, c, es[0]);
      StepFinal(cfg, home, c, es[0], sh);
      CommitmentsAreFinal(cfg, home, Next(cfg, home, c, es[0]), es[1..], sh);
    }
  }
}
