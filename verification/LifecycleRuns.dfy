/** Every run of the members, elections and shards pallets: calls in any order, and blocks. */
module LifecycleRuns {
  import opened Options
  import opened LifecycleSpec
  import opened LifecycleInvariant
  import opened LifecycleSteps
  import opened LifecycleElections

  /** A failing call is an event that changes nothing. The lists are the orders storage is read in. */
  datatype Event =
    | RegisterMember(member: Account)
    | UnregisterMember(member: Account)
    | SendHeartbeat(member: Account)
    | SubmitCommitment(member: Account, shard: Shard, commitment: Polynomials.Commitment, genuine: bool,
                       order: seq<Account>)
    | ReportReady(member: Account, shard: Shard)
    | ForceOffline(shard: Shard)
    | NewBlock(networks: Networks, due: seq<Network>, beating: seq<Account>)

  /** The chain when the hooks of the next block begin. */
  function Advance(c: Chain): (c': Chain) {
    c.(block := c.block + 1)
  }

  ghost predicate Enabled(cfg: Config, c: Chain, e: Event) {
    match e
    case SubmitCommitment(_, sh, _, _, order) => Lists(order, MembersOf(c, sh))
    case NewBlock(networks, due, beating) =>
      && networks.Valid()
      && ListsNetworks(due, SplitTimedOut(c.timedOut, c.network, cfg.maxTimeouts).0, c.network)
      && multiset(beating) == multiset(c.heartbeat)
    case _ => true
  }

  /** The members hook runs every `heartbeatTimeout` blocks. */
  ghost function MembersHook(cfg: Config, c: Chain, due: seq<Network>, beating: seq<Account>): (c': Chain)
    requires cfg.Valid()
  {
    if c.block % cfg.heartbeatTimeout == 0 then TimeoutHeartbeats(cfg, c, due, beating) else c
  }

  /** What the elections hook of the next block starts from. */
  ghost function BeforeElections(cfg: Config, c: Chain, due: seq<Network>, beating: seq<Account>): (c': Chain)
    requires cfg.Valid()
  {
    var c1 := MembersHook(cfg, Advance(c), due, beating);
    TimeoutDkgs(c1, c1.block)
  }

  function Accepted(r: Option<Chain>, c: Chain): (c': Chain) {
    if r.Some? then r.value else c
  }

  ghost function Next(cfg: Config, home: Home, c: Chain, e: Event): (c': Chain)
    requires cfg.Valid() && Enabled(cfg, c, e)
  {
    match e
    case RegisterMember(m) => Register(c, m, home(m))
    case UnregisterMember(m) => Accepted(Unregister(c, m), c)
    case SendHeartbeat(m) => Accepted(Heartbeat(c, m), c)
    case SubmitCommitment(m, sh, commitment, genuine, order) =>
        Accepted(Commit(c, m, sh, commitment, genuine, order), c)
    case ReportReady(m, sh) => Accepted(MarkReady(c, m, sh), c)
    case ForceOffline(sh) => RemoveShards(c, {sh})
    case NewBlock(networks, due, beating) => ElectionsHook(cfg, BeforeElections(cfg, c, due, beating), networks)
  }

  ghost predicate Run(cfg: Config, home: Home, c: Chain, es: seq<Event>)
    requires cfg.Valid()
    decreases |es|
  {
    es == [] || (Enabled(cfg, c, es[0]) && Run(cfg, home, Next(cfg, home, c, es[0]), es[1..]))
  }

  ghost function After(cfg: Config, home: Home, c: Chain, es: seq<Event>): (c': Chain)
    requires cfg.Valid() && Run(cfg, home, c, es)
    decreases |es|
  {
    if es == [] then c else After(cfg, home, Next(cfg, home, c, es[0]), es[1..])
  }

  // --------------------------------------------------------------- the invariant

  lemma GenesisInv(cfg: Config, home: Home)
    ensures Inv(cfg, home, Genesis())
  {}

  lemma MembersHookKeeps(cfg: Config, home: Home, c: Chain, due: seq<Network>, beating: seq<Account>, lo: nat, hi: nat)
    requires cfg.Valid() && Core(home, c, {}) && Beats(c) && Timers(c, lo, hi)
    requires ListsNetworks(due, SplitTimedOut(c.timedOut, c.network, cfg.maxTimeouts).0, c.network)
    requires multiset(beating) == multiset(c.heartbeat)
    ensures var c' := MembersHook(cfg, c, due, beating);
            Core(home, c', {}) && Beats(c') && Timers(c', lo, hi) && c'.block == c.block
  {
    hide Core, Beats, Timers, TimeoutHeartbeats, SplitTimedOut, ListsNetworks;
    if c.block % cfg.heartbeatTimeout == 0 {
      TimeoutHeartbeatsKeeps(cfg, home, c, due, beating, lo, hi);
    }
  }

  /** Everything the elections hook needs: in particular nobody has used this block's timer slot yet. */
  lemma BeforeElectionsKeeps(cfg: Config, home: Home, c: Chain, e: Event)
    requires cfg.Valid() && Inv(cfg, home, c) && Enabled(cfg, c, e) && e.NewBlock?
    ensures var c' := BeforeElections(cfg, c, e.due, e.beating);
            && Core(home, c', {}) && Beats(c') && c'.block == c.block + 1
            && Timers(c', c'.block + 1, c'.block + cfg.dkgTimeout)
            && TimeoutCountAt(c', c'.block + cfg.dkgTimeout) == 0
  {
    hide Core, Beats, Timers, MembersHook, TimeoutDkgs, TimeoutCountAt, ListsNetworks, SplitTimedOut;
    var c0 := Advance(c);
    var hi := c.block + cfg.dkgTimeout;
    CoreFrame(home, c, c0);
    BeatsFrame(c, c0);
    TimersFrame(c, c0, c.block + 1, hi);
    MembersHookKeeps(cfg, home, c0, e.due, e.beating, c0.block, hi);
    var c1 := MembersHook(cfg, c0, e.due, e.beating);
    TimeoutDkgsKeeps(home, c1, c1.block, hi);
    TimersWiden(TimeoutDkgs(c1, c1.block), c1.block + 1, hi);
  }

  lemma TimersWiden(c: Chain, lo: nat, hi: nat)
    requires Timers(c, lo, hi)
    ensures Timers(c, lo, hi + 1) && TimeoutCountAt(c, hi + 1) == 0
  {
    hide HasTimer;
  }

  lemma NewBlockKeeps(cfg: Config, home: Home, c: Chain, e: Event)
    requires cfg.Valid() && Inv(cfg, home, c) && Enabled(cfg, c, e) && e.NewBlock?
    ensures Inv(cfg, home, Next(cfg, home, c, e))
  {
    hide Core, Beats, Timers, BeforeElections, ElectionsHook, TimeoutCountAt, ListsNetworks, SplitTimedOut;
    BeforeElectionsKeeps(cfg, home, c, e);
    var c1 := BeforeElections(cfg, c, e.due, e.beating);
    ElectionsHookKeeps(cfg, home, c1, e.networks, c1.block + 1, c1.block + cfg.dkgTimeout);
  }

  lemma StepKeeps(cfg: Config, home: Home, c: Chain, e: Event)
    requires cfg.Valid() && Inv(cfg, home, c) && Enabled(cfg, c, e)
    ensures Inv(cfg, home, Next(cfg, home, c, e))
  {
    hide Inv, Register, Unregister, Heartbeat, Commit, MarkReady, RemoveShards, ElectionsHook, BeforeElections, Lists;
    match e
    case RegisterMember(m) => RegisterKeeps(cfg, home, c, m);
    case UnregisterMember(m) =>
      if Unregister(c, m).Some? { UnregisterKeeps(cfg, home, c, m); }
    case SendHeartbeat(m) =>
      if Heartbeat(c, m).Some? { HeartbeatKeeps(cfg, home, c, m); }
    case SubmitCommitment(m, sh, commitment, genuine, order) =>
      if Commit(c, m, sh, commitment, genuine, order).Some? {
        CommitKeeps(cfg, home, c, m, sh, commitment, genuine, order);
      }
    case ReportReady(m, sh) =>
      if MarkReady(c, m, sh).Some? { ReadyKeeps(cfg, home, c, m, sh); }
    case ForceOffline(sh) => ForcedOfflineKeeps(cfg, home, c, sh);
    case NewBlock(_, _, _) => NewBlockKeeps(cfg, home, c, e);
  }

  lemma {:induction false} RunKeeps(cfg: Config, home: Home, c: Chain, es: seq<Event>)
    requires cfg.Valid() && Inv(cfg, home, c) && Run(cfg, home, c, es)
    ensures Inv(cfg, home, After(cfg, home, c, es))
    decreases |es|
  {
    hide Inv, Next, Enabled;
    if es != [] {
      StepKeeps(cfg, home, c, es[0]);
      RunKeeps(cfg, home, Next(cfg, home, c, es[0]), es[1..]);
    }
  }

  lemma ReachableInv(cfg: Config, home: Home, es: seq<Event>)
    requires cfg.Valid() && Run(cfg, home, Genesis(), es)
    ensures Inv(cfg, home, After(cfg, home, Genesis(), es))
  {
    hide Inv, Run, After;
    GenesisInv(cfg, home);
    RunKeeps(cfg, home, Genesis(), es);
  }
}
