/** Which shards the tasks pallet lists for a network, over whole runs. */
module TasksSites {
  import opened TasksSpec
  import opened TasksInvariant
  import opened TasksSteps
  import opened TasksSchedule
  import opened TasksRuns

  /** The last word of the events on whether a shard is online. */
  function Up(before: bool, es: seq<Event>, sh: Shard): (r: bool) {
    if es == [] then before
    else
      var e := es[|es| - 1];
      if e.ShardCameOnline? && e.shard == sh then true
      else if e.ShardWentOffline? && e.shard == sh then false
      else Up(before, es[..|es| - 1], sh)
  }

  lemma {:induction false} UpFirst(before: bool, es: seq<Event>, sh: Shard)
    requires es != []
    ensures Up(before, es, sh) == Up(Up(before, es[..1], sh), es[1..], sh)
  {
    if |es| == 1 {
      assert es[..1] == es && es[1..] == [];
    } else {
      var k := |es| - 1;
      UpFirst(before, es[..k], sh);
      assert es[..k][..1] == es[..1] && es[..k][1..] == es[1..][..k - 1] && es[1..][k - 1] == es[k];
    }
  }

  lemma GmpSites(s: Store, n: Network, events: seq<GmpEvent>)
    ensures SubmitGmpEvents(s, n, events).networkShards == s.networkShards
  {
    hide ProcessEvents, Forget;
    ForgetSame(s, events);
    EventsSites(Forget(s, events), n, events);
  }

  lemma {:induction false} EventsSites(s: Store, n: Network, events: seq<GmpEvent>)
    ensures ProcessEvents(s, n, events).networkShards == s.networkShards
  {
    hide ProcessEvent;
    if events != [] {
      var k := |events| - 1;
      EventsSites(s, n, events[..k]);
      EventSame(ProcessEvents(s, n, events[..k]), n, events[k]);
    }
  }

  lemma BlockSites(home: Home, h: History, s: Store, env: Env)
    requires Inv(home, h, s) && Lists(s, env) && Initialize(s, env).Some?
    ensures Initialize(s, env).value.s.networkShards == s.networkShards
  {
    hide Good, Sited, Sized, PrepareBatches, ScheduleTasks, Lists, Extends, Schedules;
    var h1 := PrepareKeeps(home, h, s, env, env.networks);
    var h' := InitializeKeeps(home, h, s, env);
    SchedulesConfig(home, PrepareBatches(s, env, env.networks).0, env, env.networks, Initialize(s, env).value);
  }

  lemma ResultSites(home: Home, h: History, s: Store, t: TaskId, result: TaskResult)
    requires Inv(home, h, s) && Enabled(home, s, TaskResultSubmitted(t, result))
    ensures Accepted(SubmitTaskResult(s, home, t, result), s).networkShards == s.networkShards
  {
    hide Good, Sited, SubmitTaskResult, OwnNetworks;
    if SubmitTaskResult(s, home, t, result).Some? {
      ResultConfig(home, h, s, t, result);
    }
  }

  /** Every event but a shard coming or going leaves the listed shards alone. */
  lemma OtherSites(home: Home, h: History, s: Store, e: Event)
    requires Inv(home, h, s) && Enabled(home, s, e) && !e.ShardCameOnline? && !e.ShardWentOffline?
    requires Next(home, s, e).Some?
    ensures Next(home, s, e).value.networkShards == s.networkShards
  {
    hide Good, Sited, SubmitTaskResult, SubmitGmpEvents, RemoveTask, RestartBatch, GatewayRegistered, Initialize;
    hide Lists, OwnNetworks;
    match e
    case TaskResultSubmitted(t, result) => ResultSites(home, h, s, t, result);
    case GmpEventsSubmitted(n, events) => GmpSites(s, n, events);
    case TaskRemoved(t) => RemoveConfig(s, t);
    case BatchRestarted(b) =>
      if RestartBatch(s, b).Some? { RestartConfig(s, b); }
    case GatewayAdded(n, block) => GatewaySites(s, n, block);
    case BlockInitialized(env) => BlockSites(home, h, s, env);
    case _ =>
  }

  lemma GatewaySites(s: Store, n: Network, block: nat)
    requires SizeOf(s, n) > 0
    ensures GatewayRegistered(s, n, block).networkShards == s.networkShards
  {}

  lemma StepSites(home: Home, h: History, s: Store, e: Event, sh: Shard)
    requires Inv(home, h, s) && Enabled(home, s, e) && Next(home, s, e).Some?
    ensures sh in ShardsOf(Next(home, s, e).value, home(sh)) <==> Up(sh in ShardsOf(s, home(sh)), [e], sh)
  {
    hide Good, Sited, Enabled;
    assert [e][..0] == [];
    if !e.ShardCameOnline? && !e.ShardWentOffline? {
      hide Next;
      OtherSites(home, h, s, e);
    }
  }

  /** In every run the shards listed for a network are those of its shards whose last event was coming online. */
  lemma {:induction false} RunSites(home: Home, h: History, s: Store, es: seq<Event>, sh: Shard)
    requires Inv(home, h, s) && Run(home, s, es) && After(home, s, es).Some?
    ensures sh in ShardsOf(After(home, s, es).value, home(sh)) <==> Up(sh in ShardsOf(s, home(sh)), es, sh)
    decreases |es|
  {
    hide Inv, Next, Enabled, Extends, StepTally, ShardsOf, Up;
    if es == [] {
      NoEvents(sh in ShardsOf(s, home(sh)), sh);
    } else {
      var h1 := StepKeeps(home, h, s, es[0]);
      StepSites(home, h, s, es[0], sh);
      RunSites(home, h1, Next(home, s, es[0]).value, es[1..], sh);
      assert es[..1] == [es[0]];
      UpFirst(sh in ShardsOf(s, home(sh)), es, sh);
    }
  }

  lemma NoEvents(before: bool, sh: Shard)
    ensures Up(before, [], sh) == before
  {}

  lemma ReachableSites(home: Home, es: seq<Event>, n: Network, sh: Shard)
    requires Run(home, Genesis(), es)
    ensures var r := After(home, Genesis(), es);
            r.Some? && (sh in ShardsOf(r.value, n) <==> home(sh) == n && Up(false, es, sh))
  {
    assert forall k :: ShardsOf(Genesis(), k) == {};
    hide Good, Run, After, Sized, Up;
    GenesisInv(home);
    var h := RunKeeps(home, History(map[], {}), Genesis(), es);
    RunSites(home, History(map[], {}), Genesis(), es, sh);
  }
}
