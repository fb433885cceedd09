/** When members come online and when they are taken offline. */
module LifecycleHeartbeats {
  import opened Sequences
  import opened LifecycleSpec
  import opened LifecycleInvariant
  import opened LifecycleSteps
  import opened LifecycleElections
  import opened LifecycleRuns

  /** How many of the accounts have a network. */
  function WithNetwork(s: seq<Account>, network: map<Account, Network>): (k: nat) {
    if s == [] then 0 else (if s[0] in network then 1 else 0) + WithNetwork(s[1..], network)
  }

  /** Place i of the list is among its first `room` accounts that have a network. */
  predicate InRoom(s: seq<Account>, network: map<Account, Network>, room: nat, i: nat)
    requires i < |s|
  {
    s[i] in network && WithNetwork(s[..i], network) < room
  }

  /** The member's heartbeat is overdue, and there is room to take it offline. */
  ghost predicate IsDue(cfg: Config, c: Chain, m: Account) {
    exists i: nat :: i < |c.timedOut| && c.timedOut[i] == m && InRoom(c.timedOut, c.network, cfg.maxTimeouts, i)
  }

  lemma {:induction false} SplitWithin(s: seq<Account>, network: map<Account, Network>, room: nat, m: Account)
    requires m in SplitTimedOut(s, network, room).0
    ensures m in s && m in network
  {
    var takes := room > 0 && s[0] in network;
    if !(takes && s[0] == m) {
      SplitWithin(s[1..], network, if takes then room - 1 else room, m);
    }
  }

  /** The hook picks exactly the first accounts that have a network, as many as there is room for. */
  lemma {:induction false} SplitExactly(s: seq<Account>, network: map<Account, Network>, room: nat, i: nat)
    requires i < |s| && NoDuplicates(s)
    ensures s[i] in SplitTimedOut(s, network, room).0 <==> InRoom(s, network, room, i)
    decreases |s|
  {
    SplitNoDuplicates(s, 1);
    var takes := room > 0 && s[0] in network;
    var left := if takes then room - 1 else room;
    if i == 0 {
      assert s[0] in s[..1];
      if s[0] in SplitTimedOut(s[1..], network, left).0 {
        SplitWithin(s[1..], network, left, s[0]);
      }
    } else {
      SplitExactly(s[1..], network, left, i - 1);
      assert s[..i][1..] == s[1..][..i - 1];
      assert s[i] in s[1..] && s[0] in s[..1];
    }
  }

  lemma DueIsPicked(cfg: Config, c: Chain, m: Account)
    requires Beats(c)
    ensures IsDue(cfg, c, m) <==> m in SplitTimedOut(c.timedOut, c.network, cfg.maxTimeouts).0
  {
    hide NoDuplicates;
    var now := SplitTimedOut(c.timedOut, c.network, cfg.maxTimeouts).0;
    if m in now {
      SplitWithin(c.timedOut, c.network, cfg.maxTimeouts, m);
      var i: nat :| i < |c.timedOut| && c.timedOut[i] == m;
      SplitExactly(c.timedOut, c.network, cfg.maxTimeouts, i);
    }
    if IsDue(cfg, c, m) {
      var i: nat :| i < |c.timedOut| && c.timedOut[i] == m && InRoom(c.timedOut, c.network, cfg.maxTimeouts, i);
      SplitExactly(c.timedOut, c.network, cfg.maxTimeouts, i);
    }
  }

  // --------------------------------------------------------------------------- one block

  /** The hook takes exactly the due members offline, and asks everybody for a new heartbeat. */
  lemma TimeoutTakes(cfg: Config, home: Home, c: Chain, due: seq<Network>, beating: seq<Account>, m: Account, lo: nat,
                     hi: nat)
    requires Core(home, c, {}) && Beats(c) && Timers(c, lo, hi)
    requires ListsNetworks(due, SplitTimedOut(c.timedOut, c.network, cfg.maxTimeouts).0, c.network)
    ensures var c' := TimeoutHeartbeats(cfg, c, due, beating);
            (m in c'.online <==> m in c.online && !IsDue(cfg, c, m)) && c'.heartbeat == {}
  {
    hide Core, Timers, OfflineByNetwork, SplitTimedOut, IsDue;
    var now := SplitTimedOut(c.timedOut, c.network, cfg.maxTimeouts).0;
    HomesOf(home, c);
    forall x | x in now ensures x in c.online && x in c.network {
      SplitWithin(c.timedOut, c.network, cfg.maxTimeouts, x);
    }
    OfflineByNetworkKeeps(home, c, now, c.network, due, lo, hi);
    DueIsPicked(cfg, c, m);
  }

  /** The heartbeat lists and who is online. */
  ghost predicate SameBeats(c: Chain, c': Chain) {
    c'.online == c.online && c'.heartbeat == c.heartbeat && c'.timedOut == c.timedOut
  }

  lemma RemoveBeats(c: Chain, shards: set<Shard>)
    ensures SameBeats(c, RemoveShards(c, shards))
  {
    hide Returning, Released, NetworksOf, Gone, SortDescending;
  }

  lemma DueStays(cfg: Config, c: Chain, m: Account)
    ensures IsDue(cfg, Advance(c), m) <==> IsDue(cfg, c, m)
  {}

  lemma BeforeElectionsBeats(cfg: Config, home: Home, c: Chain, e: Event, m: Account)
    requires cfg.Valid() && Inv(cfg, home, c) && Enabled(cfg, c, e) && e.NewBlock?
    ensures var c' := BeforeElections(cfg, c, e.due, e.beating);
            if (c.block + 1) % cfg.heartbeatTimeout == 0 then
              (m in c'.online <==> m in c.online && !IsDue(cfg, c, m)) && c'.heartbeat == {}
            else SameBeats(c, c')
  {
    hide Core, Beats, Timers, RemoveShards, TimeoutHeartbeats, SplitTimedOut, ListsNetworks, DueDkgs, IsDue;
    var c0, hi := Advance(c), c.block + cfg.dkgTimeout;
    CoreFrame(home, c, c0);
    BeatsFrame(c, c0);
    TimersFrame(c, c0, c.block + 1, hi);
    DueStays(cfg, c, m);
    var c1 := MembersHook(cfg, c0, e.due, e.beating);
    if c0.block % cfg.heartbeatTimeout == 0 {
      TimeoutTakes(cfg, home, c0, e.due, e.beating, m, c.block + 1, hi);
    }
    RemoveBeats(c1, DueDkgs(c1, c1.block));
  }

  lemma HookBeats(cfg: Config, home: Home, c: Chain, ns: Networks, lo: nat, hi: nat)
    requires ns.Valid() && Core(home, c, {}) && Timers(c, lo, hi) && lo <= c.block + cfg.dkgTimeout <= hi
    requires TimeoutCountAt(c, c.block + cfg.dkgTimeout) == 0
    ensures SameBeats(c, ElectionsHook(cfg, c, ns))
  {
    hide Core, Timers, ElectFrom, TimeoutCountAt;
    ElectFromKeeps(cfg, home, c, ns, c.netCounter, c.netCounter, 0, lo, hi);
  }

  lemma NewBlockBeats(cfg: Config, home: Home, c: Chain, e: Event, m: Account)
    requires cfg.Valid() && Inv(cfg, home, c) && Enabled(cfg, c, e) && e.NewBlock?
    ensures var c' := Next(cfg, home, c, e);
            if (c.block + 1) % cfg.heartbeatTimeout == 0 then
              (m in c'.online <==> m in c.online && !IsDue(cfg, c, m)) && c'.heartbeat == {}
            else SameBeats(c, c')
  {
    hide Core, Beats, Timers, BeforeElections, ElectionsHook, TimeoutCountAt, ListsNetworks, SplitTimedOut, IsDue;
    BeforeElectionsBeats(cfg, home, c, e, m);
    BeforeElectionsKeeps(cfg, home, c, e);
    var c1 := BeforeElections(cfg, c, e.due, e.beating);
    HookBeats(cfg, home, c1, e.networks, c1.block + 1, c1.block + cfg.dkgTimeout);
  }

  // --------------------------------------------------------------------------- one step

  lemma ShardOnlineBeats(c: Chain, m: Account)
    ensures SameBeats(c, ShardMemberOnline(c, m))
  {}

  lemma OnlineBeats(c: Chain, m: Account, n: Network)
    ensures SameBeats(c.(online := c.online + {m}), MemberOnline(c, m, n))
  {
    hide ShardMemberOnline, SortDescending;
    var c1 := c.(online := c.online + {m});
    ShardOnlineBeats(c1, m);
    ShardOnlineBeats(c1.(unassigned := c1.unassigned[n := SortDescending(Pool(c1, n) + [m])]), m);
  }

  lemma HeartbeatBeats(c: Chain, m: Account)
    requires Heartbeat(c, m).Some?
    ensures var c' := Heartbeat(c, m).value; c'.online == c.online + {m} && c'.heartbeat == c.heartbeat + {m}
  {
    hide MemberOnline, Without;
    OnlineBeats(c, m, c.network[m]);
    assert m in c.online ==> c.online + {m} == c.online;
  }

  lemma RegistrationBeats(c: Chain, m: Account, n: Network)
    ensures SameBeats(c, Register(c, m, n)) && SameBeats(c, Accepted(Unregister(c, m), c))
  {
    UnregisterBeats(c, m);
    hide Unregister;
  }

  lemma UnregisterBeats(c: Chain, m: Account)
    ensures Unregister(c, m).Some? ==> SameBeats(c, Unregister(c, m).value)
  {}

  lemma ReadyBeats(c: Chain, m: Account, sh: Shard)
    ensures SameBeats(c, Accepted(MarkReady(c, m, sh), c))
  {}

  lemma CommitBeats(c: Chain, m: Account, sh: Shard, commitment: Polynomials.Commitment, genuine: bool,
                    order: seq<Account>)
    requires Lists(order, MembersOf(c, sh))
    ensures SameBeats(c, Accepted(Commit(c, m, sh, commitment, genuine, order), c))
  {}

  /** Only a heartbeat brings a member online, and only the hook in a multiple of the timeout takes it offline. */
  ghost predicate OnlineMoves(cfg: Config, c: Chain, e: Event, c': Chain, m: Account)
    requires cfg.Valid()
  {
    && (m in c.online ==>
          (m !in c'.online <==> e.NewBlock? && (c.block + 1) % cfg.heartbeatTimeout == 0 && IsDue(cfg, c, m)))
    && (m !in c.online ==> (m in c'.online <==> e == SendHeartbeat(m) && m in c.network))
  }

  ghost predicate BeatMoves(cfg: Config, c: Chain, e: Event, c': Chain, m: Account)
    requires cfg.Valid()
  {
    && (m in c'.heartbeat ==> m in c.heartbeat || e == SendHeartbeat(m))
    && (e.NewBlock? && (c.block + 1) % cfg.heartbeatTimeout == 0 ==> c'.heartbeat == {})
  }

  lemma SameMoves(cfg: Config, c: Chain, e: Event, c': Chain, m: Account)
    requires cfg.Valid() && SameBeats(c, c')
    requires !e.NewBlock? || (c.block + 1) % cfg.heartbeatTimeout != 0
    requires e == SendHeartbeat(m) && m in c.network ==> m in c.online
    ensures OnlineMoves(cfg, c, e, c', m) && BeatMoves(cfg, c, e, c', m)
  {
    hide IsDue;
  }

  lemma BeatingIsOnline(c: Chain, m: Account)
    requires Beats(c) && m in c.heartbeat
    ensures m in c.online && m !in c.timedOut
  {}

  lemma HeartbeatMoves(cfg: Config, c: Chain, x: Account, m: Account)
    requires cfg.Valid() && Beats(c)
    ensures var c' := Accepted(Heartbeat(c, x), c);
            OnlineMoves(cfg, c, SendHeartbeat(x), c', m) && BeatMoves(cfg, c, SendHeartbeat(x), c', m)
  {
    hide IsDue, Beats, MemberOnline, Without;
    if Heartbeat(c, x).Some? {
      HeartbeatBeats(c, x);
    } else if x in c.heartbeat {
      BeatingIsOnline(c, x);
    }
  }

  lemma StepMoves(cfg: Config, home: Home, c: Chain, e: Event, m: Account)
    requires cfg.Valid() && Inv(cfg, home, c) && Enabled(cfg, c, e)
    ensures OnlineMoves(cfg, c, e, Next(cfg, home, c, e), m) && BeatMoves(cfg, c, e, Next(cfg, home, c, e), m)
  {
    hide Core, Beats, Timers, Register, Unregister, Heartbeat, Commit, MarkReady, RemoveShards, ElectionsHook;
    hide BeforeElections, Lists, OnlineMoves, BeatMoves, IsDue, ListsNetworks, SplitTimedOut;
    var c' := Next(cfg, home, c, e);
    match e
    case RegisterMember(x) =>
      RegistrationBeats(c, x, home(x));
      SameMoves(cfg, c, e, c', m);
    case UnregisterMember(x) =>
      RegistrationBeats(c, x, home(x));
      SameMoves(cfg, c, e, c', m);
    case SendHeartbeat(x) => HeartbeatMoves(cfg, c, x, m);
    case SubmitCommitment(x, sh, commitment, genuine, order) =>
      CommitBeats(c, x, sh, commitment, genuine, order);
      SameMoves(cfg, c, e, c', m);
    case ReportReady(x, sh) =>
      ReadyBeats(c, x, sh);
      SameMoves(cfg, c, e, c', m);
    case ForceOffline(sh) =>
      RemoveBeats(c, {sh});
      SameMoves(cfg, c, e, c', m);
    case NewBlock(_, _, _) =>
      NewBlockBeats(cfg, home, c, e, m);
      BlockMoves(cfg, c, e, c', m);
  }

  lemma BlockMoves(cfg: Config, c: Chain, e: Event, c': Chain, m: Account)
    requires cfg.Valid() && e.NewBlock?
    requires if (c.block + 1) % cfg.heartbeatTimeout == 0 then
               (m in c'.online <==> m in c.online && !IsDue(cfg, c, m)) && c'.heartbeat == {}
             else SameBeats(c, c')
    ensures OnlineMoves(cfg, c, e, c', m) && BeatMoves(cfg, c, e, c', m)
  {
    hide IsDue;
  }

  // ------------------------------------------------------------------------ whole runs

  /** In every run, who comes online and who goes offline in the next step. */
  lemma ReachableMoves(cfg: Config, home: Home, es: seq<Event>, e: Event, m: Account)
    requires cfg.Valid() && Run(cfg, home, Genesis(), es) && Enabled(cfg, After(cfg, home, Genesis(), es), e)
    ensures var c := After(cfg, home, Genesis(), es);
            && OnlineMoves(cfg, c, e, Next(cfg, home, c, e), m)
            && (m in c.heartbeat ==> m in Next(cfg, home, c, e).online)
  {
    hide Core, Timers, Run, After, Next, Enabled, BeatMoves;
    var c := After(cfg, home, Genesis(), es);
    ReachableInv(cfg, home, es);
    StepMoves(cfg, home, c, e, m);
  }

  lemma {:induction false} SilentRun(cfg: Config, home: Home, c: Chain, es: seq<Event>, m: Account)
    requires cfg.Valid() && Inv(cfg, home, c) && Run(cfg, home, c, es) && m !in c.heartbeat
    requires SendHeartbeat(m) !in es
    ensures m !in After(cfg, home, c, es).heartbeat
    decreases |es|
  {
    hide Inv, Next, Enabled, OnlineMoves;
    if es != [] {
      StepKeeps(cfg, home, c, es[0]);
      StepMoves(cfg, home, c, es[0], m);
      SilentRun(cfg, home, Next(cfg, home, c, es[0]), es[1..], m);
    }
  }

  lemma OverdueIsListed(c: Chain, m: Account)
    requires Beats(c) && m in c.online && m !in c.heartbeat
    ensures m in c.timedOut
  {}

  lemma {:induction false} WithNetworkBound(s: seq<Account>, network: map<Account, Network>)
    ensures WithNetwork(s, network) <= |s|
  {
    if s != [] {
      WithNetworkBound(s[1..], network);
    }
  }

  lemma RoomForAll(cfg: Config, c: Chain, m: Account)
    requires m in c.timedOut && m in c.network && |c.timedOut| <= cfg.maxTimeouts
    ensures IsDue(cfg, c, m)
  {
    var i: nat :| i < |c.timedOut| && c.timedOut[i] == m;
    WithNetworkBound(c.timedOut[..i], c.network);
    assert InRoom(c.timedOut, c.network, cfg.maxTimeouts, i);
  }

  /**
    A member that stays silent from one multiple of the timeout to the next is overdue then, and the hook
    takes it offline if it has a network and is among the first `maxTimeouts` such members: always, if no
    more than that many are overdue.
   */
  lemma SilentMembersTimeOut(cfg: Config, home: Home, es: seq<Event>, e1: Event, quiet: seq<Event>, e2: Event,
                             m: Account)
    requires cfg.Valid() && Run(cfg, home, Genesis(), es) && e1.NewBlock? && e2.NewBlock? && SendHeartbeat(m) !in quiet
    requires Enabled(cfg, After(cfg, home, Genesis(), es), e1)
    requires (After(cfg, home, Genesis(), es).block + 1) % cfg.heartbeatTimeout == 0
    requires Run(cfg, home, Next(cfg, home, After(cfg, home, Genesis(), es), e1), quiet)
    requires var c2 := After(cfg, home, Next(cfg, home, After(cfg, home, Genesis(), es), e1), quiet);
             Enabled(cfg, c2, e2) && (c2.block + 1) % cfg.heartbeatTimeout == 0
    ensures var c2 := After(cfg, home, Next(cfg, home, After(cfg, home, Genesis(), es), e1), quiet);
            && (m in c2.online ==> m in c2.timedOut && (m !in Next(cfg, home, c2, e2).online <==> IsDue(cfg, c2, m)))
            && (m in c2.network && |c2.timedOut| <= cfg.maxTimeouts ==> m !in Next(cfg, home, c2, e2).online)
  {
    hide Core, Timers, Beats, Run, After, Next, Enabled, IsDue;
    var c := After(cfg, home, Genesis(), es);
    var c1 := Next(cfg, home, c, e1);
    var c2 := After(cfg, home, c1, quiet);
    ReachableInv(cfg, home, es);
    StepKeeps(cfg, home, c, e1);
    StepMoves(cfg, home, c, e1, m);
    RunKeeps(cfg, home, c1, quiet);
    SilentRun(cfg, home, c1, quiet, m);
    StepMoves(cfg, home, c2, e2, m);
    if m in c2.online {
      OverdueIsListed(c2, m);
      if m in c2.network && |c2.timedOut| <= cfg.maxTimeouts {
        RoomForAll(cfg, c2, m);
      }
    }
  }
}
