/** Every run of the tasks pallet: results, events, administration, shards coming and going, blocks. */
module TasksRuns {
  import opened Options
  import opened Sequences
  import opened TasksSpec
  import opened TasksInvariant
  import opened TasksSteps
  import opened TasksSchedule

  /** A failing call is an event that changes nothing. */
  datatype Event =
    | TaskResultSubmitted(task: TaskId, result: TaskResult)
    | GmpEventsSubmitted(network: Network, events: seq<GmpEvent>)
    | NetworkSynced(network: Network, block: nat)
    | NetworkStopped(network: Network)
    | TaskRemoved(task: TaskId)
    | BatchRestarted(batch: BatchId)
    | ShardCameOnline(shard: Shard, key: Option<Key>)
    | ShardWentOffline(shard: Shard, drained: seq<TaskId>, key: Option<Key>)
    | GatewayAdded(network: Network, block: nat)
    | Configured(network: Network, size: nat, offset: nat)
    | BlockInitialized(env: Env)

  /** The shards listed for a network belong to it. */
  ghost predicate Sited(home: Home, networkShards: map<Network, set<Shard>>) {
    forall n, sh :: n in networkShards && sh in networkShards[n] ==> home(sh) == n
  }

  ghost predicate Inv(home: Home, h: History, s: Store) {
    Good(home, h, s) && Sited(home, s.networkShards) && Sized(s)
  }

  /** The environment lists what storage holds when the hooks run, and counters are below 2^32. */
  ghost predicate Lists(s: Store, env: Env) {
    && NoDuplicates(env.networks) && Elements(env.networks) == s.readTask.Keys
    && (forall n :: NoDuplicates(env.Shards(n)) && Elements(env.Shards(n)) == ShardsOf(s, n))
    && Narrow(PrepareBatches(s, env, env.networks).0, env.networks)
  }

  /** Premises: executed batches are reported under their own network, and batch sizes are not zero. */
  ghost predicate Enabled(home: Home, s: Store, e: Event) {
    match e
    case TaskResultSubmitted(t, EventsRead(events, _)) =>
        t in s.taskShard ==> OwnNetworks(s, home(s.taskShard[t]), events)
    case GmpEventsSubmitted(n, events) => OwnNetworks(s, n, events)
    case ShardWentOffline(sh, drained, _) => Drains(s, sh, drained)
    case Configured(_, size, _) => size > 0
    case BlockInitialized(env) => Lists(s, env)
    case _ => true
  }

  /** `on_initialize`. */
  function Initialize(s: Store, env: Env): (r: Option<Progress>) {
    ScheduleTasks(PrepareBatches(s, env, env.networks).0, env, env.networks, 0)
  }

  function Accepted(r: Option<Store>, s: Store): (s': Store) {
    if r.Some? then r.value else s
  }

  /** None is an underflow in the scheduler. */
  ghost function Next(home: Home, s: Store, e: Event): (r: Option<Store>)
    requires Sized(s)
  {
    match e
    case TaskResultSubmitted(t, result) => Some(Accepted(SubmitTaskResult(s, home, t, result), s))
    case GmpEventsSubmitted(n, events) => Some(SubmitGmpEvents(s, n, events))
    case NetworkSynced(n, block) => Some(SyncNetwork(s, n, block))
    case NetworkStopped(n) => Some(StopNetwork(s, n))
    case TaskRemoved(t) => Some(Accepted(RemoveTask(s, t), s))
    case BatchRestarted(b) => Some(Accepted(RestartBatch(s, b), s))
    case ShardCameOnline(sh, key) => Some(ShardOnline(s, home(sh), sh, key))
    case ShardWentOffline(sh, drained, key) => Some(ShardOffline(s, home(sh), sh, drained, key))
    case GatewayAdded(n, block) => Some(GatewayRegistered(s, n, block))
    case Configured(n, size, offset) => Some(SetConfig(s, n, size, offset))
    case BlockInitialized(env) =>
      var p := Initialize(s, env);
      if p.Some? then Some(p.value.s) else None
  }

  /** What a task result counts: the batches it reports, and the task itself once it is done. */
  ghost function ResultTally(home: Home, s: Store, t: TaskId, result: TaskResult): (r: Tally)
    requires Sized(s)
  {
    if SubmitTaskResult(s, home, t, result).None? || t in s.output then []
    else
      var n := home(s.taskShard[t]);
      match s.tasks[t]
      case ReadEvents(start, end) => ReadTally(s, n, t, start, end, result.events)
      case SubmitBatch(_) => FinishTally(s, n, t)
  }

  /** The tasks an event counts as executed, in order. */
  ghost function StepTally(home: Home, s: Store, e: Event): (r: Tally)
    requires Sized(s)
  {
    match e
    case TaskResultSubmitted(t, result) => ResultTally(home, s, t, result)
    case GmpEventsSubmitted(n, events) => EventsTally(Forget(s, events), n, events)
    case _ => []
  }

  // ------------------------------------------------------------------------ each event

  /** Batch sizes and shard lists of the result, from those of the store. */
  ghost predicate SameConfig(s: Store, s': Store) {
    s'.batchSize == s.batchSize && s'.batchOffset == s.batchOffset && s'.networkShards == s.networkShards
  }

  lemma InvFrame(home: Home, h: History, h': History, s: Store, s': Store)
    requires Inv(home, h, s) && SameConfig(s, s') && Good(home, h', s')
    ensures Inv(home, h', s')
  {
    hide Good;
    assert forall n :: SizeOf(s', n) == SizeOf(s, n);
  }

  lemma CreateConfig(s: Store, n: Network, task: Task)
    ensures SameConfig(s, CreateTask(s, n, task))
  {}

  lemma AdvanceConfig(s: Store, n: Network, start: nat, end: nat)
    requires SizeOf(s, n) > 0
    ensures SameConfig(s, Advance(s, n, start, end))
  {
    hide CreateTask, RangeEnd;
    var s1 := s.(sync := if SyncOf(s, n) == start then s.sync[n := end] else s.sync);
    CreateConfig(s1, n, ReadEvents(SyncOf(s1, n), RangeEnd(s1, n)));
  }

  lemma ResultConfig(home: Home, h: History, s: Store, t: TaskId, result: TaskResult)
    requires Good(home, h, s) && Sized(s) && SubmitTaskResult(s, home, t, result).Some?
    requires result.EventsRead? && t in s.taskShard ==> OwnNetworks(s, home(s.taskShard[t]), result.events)
    ensures SameConfig(s, SubmitTaskResult(s, home, t, result).value)
  {
    hide Good, Advance, ProcessEvents, FinishTask, OwnNetworks;
    if t in s.tasks && t !in s.output && t in s.taskShard {
      var n := home(s.taskShard[t]);
      if s.tasks[t].ReadEvents? {
        var s1 := Advance(s, n, s.tasks[t].start, s.tasks[t].end);
        AdvanceConfig(s, n, s.tasks[t].start, s.tasks[t].end);
        AdvanceOwn(home, h, s, n, s.tasks[t].start, s.tasks[t].end, result.events);
        var h1 := AdvanceKeeps(home, h, s, n, s.tasks[t].start, s.tasks[t].end);
        var h2 := EventsKeep(home, h1, s1, n, result.events);
        FinishSame(ProcessEvents(s1, n, result.events), n, t, true);
      } else {
        var b := s.tasks[t].batch;
        FinishSame(s.(pending := s.pending - {b}, failed := s.failed + {b}), n, t, false);
      }
    }
  }

  lemma ResultKeeps(home: Home, h: History, s: Store, t: TaskId, result: TaskResult) returns (h': History)
    requires Inv(home, h, s)
    requires result.EventsRead? && t in s.taskShard ==> OwnNetworks(s, home(s.taskShard[t]), result.events)
    ensures Inv(home, h', Accepted(SubmitTaskResult(s, home, t, result), s))
    ensures Extends(h, h', ResultTally(home, s, t, result))
  {
    hide Good, Advance, ProcessEvents, FinishTask, OwnNetworks, Sized, Sited, Extends, ReadTally, FinishTally;
    h' := h;
    ExtendsItself(h);
    var r := SubmitTaskResult(s, home, t, result);
    if r.Some? {
      if t !in s.output {
        if s.tasks[t].ReadEvents? {
          h' := ReadKeeps(home, h, s, t, result.events);
          assert result == EventsRead(result.events, true);
        } else {
          h' := FailKeeps(home, h, s, t);
          assert result == BatchFailed(true);
        }
      }
      ResultConfig(home, h, s, t, result);
      InvFrame(home, h, h', s, r.value);
    }
  }

  lemma GmpKeeps(home: Home, h: History, s: Store, n: Network, events: seq<GmpEvent>) returns (h': History)
    requires Inv(home, h, s) && OwnNetworks(s, n, events)
    ensures Inv(home, h', SubmitGmpEvents(s, n, events))
    ensures Extends(h, h', EventsTally(Forget(s, events), n, events))
  {
    hide Good, OwnNetwork, Forget, ProcessEvents, Sized, Sited, Extends;
    h' := GmpEventsKeep(home, h, s, n, events);
    var s1 := Forget(s, events);
    ForgetSame(s, events);
    BatchedOf(home, h, s);
    BooksFrame(home, h, s, s1);
    forall e | e in events ensures OwnNetwork(s1, n, e) {
      SameOwn(s, s1, n, e);
    }
    var h2 := EventsKeep(home, h, s1, n, events);
    InvFrame(home, h, h', s, SubmitGmpEvents(s, n, events));
  }

  lemma RestartConfig(s: Store, b: BatchId)
    requires RestartBatch(s, b).Some?
    ensures SameConfig(s, RestartBatch(s, b).value)
  {}

  lemma AdminKeeps(home: Home, h: History, s: Store, e: Event) returns (h': History)
    requires Inv(home, h, s) && (e.NetworkSynced? || e.NetworkStopped? || e.TaskRemoved? || e.BatchRestarted?)
    ensures Inv(home, h', Next(home, s, e).value) && Extends(h, h', [])
  {
    hide Good, Sized, Sited, RestartBatch, RemoveTask, Extends;
    h' := h;
    ExtendsItself(h);
    match e
    case NetworkSynced(n, block) =>
      ElsewhereKeeps(home, h, s, SyncNetwork(s, n, block));
      InvFrame(home, h, h, s, SyncNetwork(s, n, block));
    case NetworkStopped(n) =>
      StopKeeps(home, h, s, n);
      InvFrame(home, h, h, s, StopNetwork(s, n));
    case TaskRemoved(t) =>
      RemoveConfig(s, t);
      if t in s.output {
        RemoveKeeps(home, h, s, t);
        InvFrame(home, h, h, s, RemoveTask(s, t).value);
      }
    case BatchRestarted(b) =>
      if RestartBatch(s, b).Some? {
        h' := RestartKeeps(home, h, s, b);
        RestartConfig(s, b);
        InvFrame(home, h, h', s, RestartBatch(s, b).value);
      }
  }

  lemma RemoveConfig(s: Store, t: TaskId)
    ensures RemoveTask(s, t).Some? <==> t in s.output
    ensures t in s.output ==> SameConfig(s, RemoveTask(s, t).value)
  {}

  lemma OnlineKeeps(home: Home, h: History, s: Store, sh: Shard, key: Option<Key>)
    requires Inv(home, h, s)
    ensures Inv(home, h, ShardOnline(s, home(sh), sh, key))
  {
    hide Good;
    var s' := ShardOnline(s, home(sh), sh, key);
    ElsewhereKeeps(home, h, s, s');
    assert forall n :: SizeOf(s', n) == SizeOf(s, n);
  }

  lemma GoneKeeps(home: Home, h: History, s: Store, sh: Shard, drained: seq<TaskId>, key: Option<Key>)
    requires Inv(home, h, s) && Drains(s, sh, drained)
    ensures Inv(home, h, ShardOffline(s, home(sh), sh, drained, key))
  {
    hide Good, Without, Elements, NoDuplicates;
    var s' := ShardOffline(s, home(sh), sh, drained, key);
    OfflineKeeps(home, h, s, home(sh), sh, drained, key);
    assert forall n :: SizeOf(s', n) == SizeOf(s, n);
  }

  lemma GatewayKeeps(home: Home, h: History, s: Store, n: Network, block: nat) returns (h': History)
    requires Inv(home, h, s)
    ensures Inv(home, h', GatewayRegistered(s, n, block)) && Extends(h, h', [])
  {
    hide Good, CreateTask, RangeEnd, Extends;
    var s1 := s.(sync := s.sync[n := block]);
    ElsewhereKeeps(home, h, s, s1);
    h' := Recorded(h, s1.lastTask + 1, n);
    FreshIds(home, h, s1);
    RecordedExtends(h, s1.lastTask + 1, n);
    CreateKeeps(home, h, s1, n, ReadEvents(SyncOf(s1, n), RangeEnd(s1, n)));
    CreateConfig(s1, n, ReadEvents(SyncOf(s1, n), RangeEnd(s1, n)));
    InvFrame(home, h, h', s, GatewayRegistered(s, n, block));
  }

  lemma ConfigKeeps(home: Home, h: History, s: Store, n: Network, size: nat, offset: nat)
    requires Inv(home, h, s) && size > 0
    ensures Inv(home, h, SetConfig(s, n, size, offset))
  {
    hide Good;
    var s' := SetConfig(s, n, size, offset);
    ElsewhereKeeps(home, h, s, s');
    forall k ensures SizeOf(s', k) > 0 {
      assert SizeOf(s, k) > 0;
    }
  }

  lemma ListingsHold(home: Home, s: Store, s1: Store, env: Env)
    requires Lists(s, env) && Sited(home, s.networkShards) && SameSites(s, s1)
    ensures Listings(home, s1, env, env.networks)
  {
    hide NoDuplicates, PrepareBatches;
    forall n | n in env.networks
      ensures n in s1.readTask && NoDuplicates(env.Shards(n)) && forall x :: x in env.Shards(n) ==> home(x) == n
    {
      assert n in Elements(env.networks);
      forall x | x in env.Shards(n) ensures home(x) == n {
        assert x in Elements(env.Shards(n));
        assert x in ShardsOf(s, n);
      }
    }
  }

  /** What a block's hooks do: batches are prepared, then the scheduler keeps its promises. */
  lemma InitializeKeeps(home: Home, h: History, s: Store, env: Env) returns (h': History)
    requires Inv(home, h, s) && Lists(s, env)
    ensures var r := Initialize(s, env);
            && r.Some? && Inv(home, h', r.value.s) && Extends(h, h', [])
            && Schedules(home, PrepareBatches(s, env, env.networks).0, env, env.networks, 0, r.value)
  {
    hide Good, Sized, Sited, PrepareBatches, ScheduleTasks, Listings, Narrow, Schedules, Extends;
    h' := PrepareKeeps(home, h, s, env, env.networks);
    var s1 := PrepareBatches(s, env, env.networks).0;
    ListingsHold(home, s, s1, env);
    SchedulerWorks(home, h', s1, env, env.networks, 0);
    SchedulesConfig(home, s1, env, env.networks, Initialize(s, env).value);
    InvFrame(home, h, h', s, Initialize(s, env).value.s);
  }

  lemma SchedulesConfig(home: Home, s: Store, env: Env, networks: seq<Network>, p: Progress)
    requires Schedules(home, s, env, networks, 0, p)
    ensures SameConfig(s, p.s)
  {
    hide Drained, CountOf, QueueOf;
  }

  lemma StepKeeps(home: Home, h: History, s: Store, e: Event) returns (h': History)
    requires Inv(home, h, s) && Enabled(home, s, e)
    ensures Next(home, s, e).Some? && Inv(home, h', Next(home, s, e).value)
    ensures Extends(h, h', StepTally(home, s, e))
  {
    hide Good, Sited, SubmitTaskResult, SubmitGmpEvents, ShardOnline, ShardOffline, GatewayRegistered, SetConfig;
    hide Initialize, Lists, OwnNetworks, Drains, Extends, ResultTally, EventsTally;
    h' := h;
    ExtendsItself(h);
    match e
    case TaskResultSubmitted(t, result) => h' := ResultKeeps(home, h, s, t, result);
    case GmpEventsSubmitted(n, events) => h' := GmpKeeps(home, h, s, n, events);
    case ShardCameOnline(sh, key) => OnlineKeeps(home, h, s, sh, key);
    case ShardWentOffline(sh, drained, key) => GoneKeeps(home, h, s, sh, drained, key);
    case GatewayAdded(n, block) => h' := GatewayKeeps(home, h, s, n, block);
    case Configured(n, size, offset) => ConfigKeeps(home, h, s, n, size, offset);
    case BlockInitialized(env) => h' := InitializeKeeps(home, h, s, env);
    case _ => h' := AdminKeeps(home, h, s, e);
  }

  // ------------------------------------------------------------------------ whole runs

  /** The events happen one after the other, each under the premises. */
  ghost predicate Run(home: Home, s: Store, es: seq<Event>)
    decreases |es|
  {
    es == [] || (Sized(s) && Enabled(home, s, es[0])
        && (Next(home, s, es[0]).Some? ==> Run(home, Next(home, s, es[0]).value, es[1..])))
  }

  /** The storage after a run; None if the scheduler underflowed on the way. */
  ghost function After(home: Home, s: Store, es: seq<Event>): (r: Option<Store>)
    requires Run(home, s, es)
    decreases |es|
  {
    if es == [] then Some(s)
    else if Next(home, s, es[0]).None? then None
    else After(home, Next(home, s, es[0]).value, es[1..])
  }

  /** The tasks a run counts as executed, in order. */
  ghost function RunTally(home: Home, s: Store, es: seq<Event>): (r: Tally)
    requires Run(home, s, es)
    decreases |es|
  {
    if es == [] then []
    else if Next(home, s, es[0]).None? then StepTally(home, s, es[0])
    else StepTally(home, s, es[0]) + RunTally(home, Next(home, s, es[0]).value, es[1..])
  }

  /** How many entries of the tally are on a network. */
  ghost function EntriesOn(tally: Tally, n: Network): (c: nat) {
    if tally == [] then 0
    else
      var k := |tally| - 1;
      EntriesOn(tally[..k], n) + if tally[k].1 == n then 1 else 0
  }

  lemma GenesisInv(home: Home)
    ensures Inv(home, History(map[], {}), Genesis())
  {
    var h := History(map[], {});
    forall n ensures CreatedOn(h, n) == {} && CountedOn(h, n) == {} {}
    forall n ensures QueueOk(h, n, map[], []) {}
  }

  /** No run underflows, and every run keeps the invariant for a history that its tally extends. */
  lemma {:induction false} RunKeeps(home: Home, h: History, s: Store, es: seq<Event>) returns (h': History)
    requires Inv(home, h, s) && Run(home, s, es)
    ensures After(home, s, es).Some? && Inv(home, h', After(home, s, es).value)
    ensures Extends(h, h', RunTally(home, s, es))
    decreases |es|
  {
    hide Inv, Next, Enabled, Extends, StepTally;
    if es == [] {
      h' := h;
      ExtendsItself(h);
    } else {
      var h1 := StepKeeps(home, h, s, es[0]);
      h' := RunKeeps(home, h1, Next(home, s, es[0]).value, es[1..]);
      ExtendsTrans(h, h1, h', StepTally(home, s, es[0]), RunTally(home, Next(home, s, es[0]).value, es[1..]));
    }
  }

  /** The assignment maps, the counts, the queues, the readers and the batch books agree. */
  ghost predicate Agrees(s: Store) {
    && (forall t, sh :: t in s.taskShard && s.taskShard[t] == sh <==> t in TasksOf(s, sh))
    && (forall sh :: CountOf(s, sh) == |TasksOf(s, sh)|)
    && (forall n :: NoDuplicates(QueueOf(s, n)))
    && (forall n, t :: t in QueueOf(s, n) ==> t !in s.taskShard)
    && (forall n, k, t :: t in QueueOf(s, n) && t in QueueOf(s, k) ==> n == k)
    && (forall n, k :: n in s.readTask ==> s.readTask[n] !in s.output && s.readTask[n] !in QueueOf(s, k))
    && s.pending !! s.failed
  }

  lemma GoodQueues(home: Home, h: History, s: Store)
    requires Good(home, h, s)
    ensures forall n :: NoDuplicates(QueueOf(s, n))
    ensures forall n, t :: t in QueueOf(s, n) ==> Waits(h, n, s.taskShard, t)
  {
    hide Links, Readers, Infos, Batched, Counters, Ids, Waits, NoDuplicates;
    forall n ensures QueueOk(h, n, s.taskShard, QueueOf(s, n)) {}
  }

  lemma GoodReaders(home: Home, h: History, s: Store)
    requires Good(home, h, s)
    ensures forall n, k :: n in s.readTask ==> s.readTask[n] !in s.output && s.readTask[n] !in QueueOf(s, k)
  {
    hide Links, Infos, Batched, Counters, Ids, NoDuplicates, Queues, QueueOf;
    GoodQueues(home, h, s);
    forall n, k | n in s.readTask ensures s.readTask[n] !in s.output && s.readTask[n] !in QueueOf(s, k) {
      assert ReaderOk(h, s, n, s.readTask[n]);
    }
  }

  lemma GoodAgrees(home: Home, h: History, s: Store)
    requires Good(home, h, s)
    ensures Agrees(s)
  {
    LinksOf(home, h, s);
    BatchedOf(home, h, s);
    hide Good, NoDuplicates, QueueOf, TasksOf, CountOf;
    GoodQueues(home, h, s);
    GoodReaders(home, h, s);
  }

  lemma ReachableAgree(home: Home, es: seq<Event>)
    requires Run(home, Genesis(), es)
    ensures After(home, Genesis(), es).Some? && Agrees(After(home, Genesis(), es).value)
  {
    hide Good, Run, After, Agrees, Sited, Sized;
    GenesisInv(home);
    var h := RunKeeps(home, History(map[], {}), Genesis(), es);
    GoodAgrees(home, h, After(home, Genesis(), es).value);
  }

  /** The counters of every network bound what is executed, queued, assigned or waiting to be read. */
  lemma ReachableAccounting(home: Home, es: seq<Event>, n: Network)
    requires Run(home, Genesis(), es)
    ensures var r := After(home, Genesis(), es);
            && r.Some?
            && CreatedCount(r.value, n) >= ExecutedCount(r.value, n) + |QueueOf(r.value, n)|
               + |PlacedOn(home, r.value, n)| + |IdleReader(r.value, n)|
            && (n in r.value.readTask ==> CreatedCount(r.value, n) > ExecutedCount(r.value, n))
  {
    hide Good, Run, After, Sited, Sized;
    GenesisInv(home);
    var h := RunKeeps(home, History(map[], {}), Genesis(), es);
    Accounting(home, h, After(home, Genesis(), es).value, n);
  }

  lemma {:induction false} EntriesSize(h: History, h': History, tally: Tally, n: Network)
    requires Extends(h, h', tally)
    ensures |CountedOn(h', n)| == |CountedOn(h'.(counted := h.counted), n)| + EntriesOn(tally, n)
    decreases |tally|
  {
    if tally == [] {
      assert h'.counted == h.counted;
    } else {
      var k := |tally| - 1;
      var t := tally[k].0;
      assert TasksIn(tally) == TasksIn(tally[..k]) + [t];
      SplitNoDuplicates(TasksIn(tally), k);
      assert TasksIn(tally)[..k] == TasksIn(tally[..k]) && t in TasksIn(tally)[k..];
      var h1 := h'.(counted := h.counted + Elements(TasksIn(tally[..k])));
      assert Extends(h, h1, tally[..k]) by {
        assert forall i :: 0 <= i < k ==> tally[..k][i] == tally[i];
      }
      EntriesSize(h, h1, tally[..k], n);
      assert t !in h1.counted && h'.counted == h1.counted + {t};
      CountedGrows(h1, t, n);
    }
  }

  /**
    Along every run each task is counted as executed at most once, under the network it was created on,
    and the executed counter of a network is the number of its tasks that were counted.
   */
  lemma CountedAtMostOnce(home: Home, es: seq<Event>, n: Network)
    requires Run(home, Genesis(), es)
    ensures var tally := RunTally(home, Genesis(), es);
            var r := After(home, Genesis(), es);
            && r.Some? && NoDuplicates(TasksIn(tally)) && ExecutedCount(r.value, n) == EntriesOn(tally, n)
            && forall i :: 0 <= i < |tally| && tally[i].0 in r.value.tasks ==>
                 tally[i].0 in r.value.taskNetwork && r.value.taskNetwork[tally[i].0] == tally[i].1
  {
    hide Good, Run, After, Sited, Sized, RunTally, NoDuplicates, TasksIn;
    GenesisInv(home);
    var h := History(map[], {});
    var h' := RunKeeps(home, h, Genesis(), es);
    var s := After(home, Genesis(), es).value;
    EntriesSize(h, h', RunTally(home, Genesis(), es), n);
    assert CountedOn(h'.(counted := {}), n) == {};
    CountersOf(home, h', s);
  }

  lemma CountersOf(home: Home, h: History, s: Store)
    requires Good(home, h, s)
    ensures Counters(h, s) && Infos(h, s)
  {}

  /** In every reachable state the hooks of a block run to the end and schedule as promised. */
  lemma ReachableScheduler(home: Home, es: seq<Event>, env: Env)
    requires Run(home, Genesis(), es) && After(home, Genesis(), es).Some?
             && Lists(After(home, Genesis(), es).value, env)
    ensures var s := After(home, Genesis(), es).value;
            var r := Initialize(s, env);
            r.Some? && Schedules(home, PrepareBatches(s, env, env.networks).0, env, env.networks, 0, r.value)
  {
    hide Good, Run, After, Sited, Sized, Schedules, PrepareBatches, Initialize, Lists;
    GenesisInv(home);
    var h := RunKeeps(home, History(map[], {}), Genesis(), es);
    var h' := InitializeKeeps(home, h, After(home, Genesis(), es).value, env);
  }
}
