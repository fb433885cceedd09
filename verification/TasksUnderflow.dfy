/**
  A run from genesis after which a batch reported under another network stops the scheduler. Networks 0 and
  1 are registered and configured, their shards come online and are registered, and one block sends a batch
  of each network and assigns all tasks. Then both batches are reported under network 0.
 */
module TasksUnderflow {
  import opened Options
  import opened Sequences
  import opened TasksSpec
  import opened TasksInvariant
  import opened TasksSteps
  import opened TasksSchedule
  import opened TasksRuns
  import opened TasksReports

  lemma {:induction false} RunStep(home: Home, s: Store, es: seq<Event>, e: Event)
    requires Run(home, s, es) && After(home, s, es).Some?
    requires var s1 := After(home, s, es).value; Sized(s1) && Enabled(home, s1, e)
    ensures Run(home, s, es + [e]) && After(home, s, es + [e]) == Next(home, After(home, s, es).value, e)
    decreases |es|
  {
    hide Sized, Enabled, Next;
    if es == [] {
      assert [] + [e] == [e] && [e][1..] == [];
    } else {
      assert (es + [e])[1..] == es[1..] + [e];
      RunStep(home, Next(home, s, es[0]).value, es[1..], e);
    }
  }

  /** Shards 0 and 1 serve the networks of the same number; shard m has key 5 + m. */
  const HOME: Home := (sh: Shard) => sh

  /** Both networks, each with its shard online. */
  function Both(): (env: Env) {
    Env([0, 1], map[0 := [0], 1 := [1]], map[], map[], map[0 := 5, 1 := 6], {0, 1}, 100, 10)
  }

  /** What all the states before the report share: batches of 32 blocks, nothing executed. */
  ghost predicate Plain(s: Store) {
    (forall n :: SizeOf(s, n) == 32) && s.executed == map[] && s.output == map[]
  }

  lemma PlainFrame(s: Store, s': Store)
    requires Plain(s) && s'.batchSize == s.batchSize && s'.executed == s.executed && s'.output == s.output
    ensures Plain(s')
  {
    forall k ensures SizeOf(s', k) == 32 {
      assert SizeOf(s, k) == 32;
    }
  }

  lemma Step(es: seq<Event>, s: Store, e: Event)
    requires Run(HOME, Genesis(), es) && After(HOME, Genesis(), es) == Some(s) && Plain(s)
             && (Sized(s) ==> Enabled(HOME, s, e))
    ensures Sized(s) && Run(HOME, Genesis(), es + [e]) && After(HOME, Genesis(), es + [e]) == Next(HOME, s, e)
  {
    hide Run, After, Next, Enabled;
    assert forall n :: SizeOf(s, n) == 32;
    RunStep(HOME, Genesis(), es, e);
  }

  // -------------------------------------------------------------- networks and shards join

  function Registering(s: Store, n: Network): (s': Store)
    requires SizeOf(s, n) > 0
  {
    SetConfig(GatewayRegistered(s, n, 0), n, 32, 0)
  }

  lemma RegisteringPlain(s: Store, n: Network)
    requires Plain(s)
    ensures SizeOf(s, n) > 0 && Plain(GatewayRegistered(s, n, 0)) && Plain(Registering(s, n))
  {
    forall k ensures SizeOf(GatewayRegistered(s, n, 0), k) == 32 && SizeOf(Registering(s, n), k) == 32 {
      assert SizeOf(s, k) == 32;
    }
  }

  /** Each network has its reader, and nothing else happened yet. */
  ghost predicate Joined(s: Store) {
    && Plain(s) && s.queue == map[] && s.taskShard == map[] && s.shardCount == map[] && s.batchTask == map[]
    && s.nextBatch == 0 && s.lastTask == 2 && s.readTask == map[0 := 1, 1 := 2] && s.taskCount == map[0 := 1, 1 := 1]
  }

  /** Registering a network adds its gateway, then its configuration. */
  lemma Register(es: seq<Event>, s: Store, n: Network) returns (es': seq<Event>)
    requires Run(HOME, Genesis(), es) && After(HOME, Genesis(), es) == Some(s) && Plain(s)
    ensures SizeOf(s, n) > 0 && Plain(Registering(s, n))
    ensures Run(HOME, Genesis(), es') && After(HOME, Genesis(), es') == Some(Registering(s, n))
  {
    RegisteringPlain(s, n);
    hide GatewayRegistered, SetConfig, Run, After, Plain, SizeOf;
    Step(es, s, GatewayAdded(n, 0));
    es' := es + [GatewayAdded(n, 0)];
    Step(es', GatewayRegistered(s, n, 0), Configured(n, 32, 0));
    es' := es' + [Configured(n, 32, 0)];
  }

  lemma JoinedFacts(s: Store)
    requires Plain(Genesis()) && Plain(Registering(Genesis(), 0)) && s == Registering(Registering(Genesis(), 0), 1)
    requires Plain(s)
    ensures Joined(s) && s.ops == map[] && s.networkShards == map[] && s.registered == {}
  {
    assert map[][0 := 1][1 := 2] == map[0 := 1, 1 := 2] && map[][0 := 1][1 := 1] == map[0 := 1, 1 := 1];
  }

  lemma Joins() returns (es: seq<Event>, s: Store)
    ensures Run(HOME, Genesis(), es) && After(HOME, Genesis(), es) == Some(s)
    ensures Joined(s) && s.ops == map[] && s.networkShards == map[] && s.registered == {}
  {
    assert Run(HOME, Genesis(), []) && After(HOME, Genesis(), []) == Some(Genesis());
    assert Plain(Genesis());
    hide Run, After, Registering, Plain, Joined;
    es := Register([], Genesis(), 0);
    es := Register(es, Registering(Genesis(), 0), 1);
    s := Registering(Registering(Genesis(), 0), 1);
    JoinedFacts(s);
  }

  lemma Registers(s: Store, n: Network, key: Key)
    ensures SubmitGmpEvents(s, n, [ShardRegistered(key)]) == s.(registered := s.registered + {key})
  {
    var e := ShardRegistered(key);
    assert [e][..0] == [];
    assert Forget(s, []) == s && Forget(s, [e]) == s;
    assert ProcessEvents(s, n, []) == s;
    assert ProcessEvents(s, n, [e]) == ProcessEvent(s, n, e);
  }

  function Opening(s: Store, m: Shard): (s': Store) {
    ShardOnline(s, m, m, Some(5 + m)).(registered := s.registered + {5 + m})
  }

  lemma OpeningPlain(s: Store, m: Shard)
    requires Plain(s)
    ensures Plain(ShardOnline(s, m, m, Some(5 + m))) && Plain(Opening(s, m))
  {
    PlainFrame(s, ShardOnline(s, m, m, Some(5 + m)));
    PlainFrame(s, Opening(s, m));
  }

  /** A shard comes online, and its gateway reports it as registered. */
  lemma Open(es: seq<Event>, s: Store, m: Shard) returns (es': seq<Event>)
    requires Run(HOME, Genesis(), es) && After(HOME, Genesis(), es) == Some(s) && Plain(s)
    ensures Plain(Opening(s, m))
    ensures Run(HOME, Genesis(), es') && After(HOME, Genesis(), es') == Some(Opening(s, m))
  {
    OpeningPlain(s, m);
    Registers(ShardOnline(s, m, m, Some(5 + m)), m, 5 + m);
    assert ShardOnline(s, m, m, Some(5 + m)).registered == s.registered;
    hide ShardOnline, SubmitGmpEvents, Run, After, Plain;
    Step(es, s, ShardCameOnline(m, Some(5 + m)));
    es' := es + [ShardCameOnline(m, Some(5 + m))];
    Step(es', ShardOnline(s, m, m, Some(5 + m)), GmpEventsSubmitted(m, [ShardRegistered(5 + m)]));
    es' := es' + [GmpEventsSubmitted(m, [ShardRegistered(5 + m)])];
  }

  /** The shards are online and registered, and each has its registration to send. */
  ghost predicate Opened(s: Store) {
    && Joined(s) && s.ops == map[0 := [RegisterShard(5)], 1 := [RegisterShard(6)]]
    && s.networkShards == map[0 := {0}, 1 := {1}] && s.registered == {5, 6}
  }

  lemma OpenedFacts(s: Store)
    requires Joined(s) && s.ops == map[] && s.networkShards == map[] && s.registered == {}
    requires Plain(Opening(Opening(s, 0), 1))
    ensures Opened(Opening(Opening(s, 0), 1))
  {
    assert [] + [RegisterShard(5)] == [RegisterShard(5)] && [] + [RegisterShard(6)] == [RegisterShard(6)];
    assert {} + {0} == {0} && {} + {1} == {1} && {} + {5} + {6} == {5, 6};
    assert map[][0 := {0}][1 := {1}] == map[0 := {0}, 1 := {1}];
  }

  lemma Opens() returns (es: seq<Event>, s: Store)
    ensures Run(HOME, Genesis(), es) && After(HOME, Genesis(), es) == Some(s) && Opened(s)
  {
    var s0: Store;
    es, s0 := Joins();
    assert Plain(s0);
    hide Run, After, Opening, Plain, Opened;
    es := Open(es, s0, 0);
    es := Open(es, Opening(s0, 0), 1);
    s := Opening(Opening(s0, 0), 1);
    OpenedFacts(s0);
  }

  // ------------------------------------------------------------------ a block sends batches

  lemma PreparesOne(s: Store, env: Env, n: Network, started: nat, op: Op)
    requires OpsOf(s, n) == [op] && started < env.Cap()
    ensures PrepareNetwork(s, env, n, started) == (StartBatch(s.(ops := s.ops[n := []]), n, [op]), started + 1)
  {
    hide StartBatch;
    assert [op][1..] == [] && [] + [op] == [op];
    assert Batches([], [op], env.Gas(n), started, env.Cap()) == ([[op]], []) && [] + [[op]] == [[op]];
    assert Batches([op], [], env.Gas(n), started, env.Cap()) == ([[op]], []);
    var s1 := s.(ops := s.ops[n := []]);
    assert [[op]][..0] == [] && StartBatches(s1, n, []) == s1;
    assert StartBatches(s1, n, [[op]]) == StartBatch(s1, n, [op]);
  }

  function Sending(s: Store, m: Shard): (s': Store) {
    StartBatch(s.(ops := s.ops[m := []]), m, [RegisterShard(5 + m)])
  }

  /** What starting the batch of a network leaves alone. */
  ghost predicate Leaves(s: Store, s': Store) {
    && s'.batchSize == s.batchSize && s'.executed == s.executed && s'.output == s.output
    && s'.readTask == s.readTask && s'.networkShards == s.networkShards && s'.registered == s.registered
    && s'.taskShard == s.taskShard && s'.shardCount == s.shardCount
  }

  /** And what it changes. */
  ghost predicate Sends(s: Store, m: Shard, s': Store) {
    var t := s.lastTask + 1;
    && s'.nextBatch == s.nextBatch + 1 && s'.batchTask == s.batchTask[s.nextBatch := t]
    && s'.lastTask == t && s'.taskCount == s.taskCount[m := CreatedCount(s, m) + 1]
    && s'.ops == s.ops[m := []] && s'.queue == s.queue[m := QueueOf(s, m) + [t]]
    && s'.taskNetwork == s.taskNetwork[t := m]
  }

  lemma SendingSends(s: Store, m: Shard)
    ensures Sends(s, m, Sending(s, m))
  {}

  lemma SendingLeaves(s: Store, m: Shard)
    ensures Leaves(s, Sending(s, m))
  {}

  lemma Prepares(s: Store)
    requires Opened(s)
    ensures PrepareBatches(s, Both(), [0, 1]).0 == Sending(Sending(s, 0), 1)
  {
    var env := Both();
    PreparesOne(s, env, 0, 0, RegisterShard(5));
    SendingSends(s, 0);
    hide PrepareNetwork, StartBatch, Plain;
    PreparesOne(Sending(s, 0), env, 1, 1, RegisterShard(6));
    hide Opened;
    assert [0, 1][..1] == [0] && [0][..0] == [];
    assert PrepareBatches(s, env, []) == (s, 0);
    assert PrepareBatches(s, env, [0]) == (Sending(s, 0), 1);
  }

  /** Batch 0 of network 0 has task 3, batch 1 of network 1 has task 4. */
  ghost predicate Sent(s: Store) {
    && Plain(s) && s.batchTask == map[0 := 3, 1 := 4] && 4 in s.taskNetwork && s.taskNetwork[4] == 1
    && s.readTask == map[0 := 1, 1 := 2] && s.taskCount == map[0 := 2, 1 := 2] && s.ops == map[0 := [], 1 := []]
    && s.networkShards == map[0 := {0}, 1 := {1}] && s.registered == {5, 6}
  }

  /** Nothing is assigned, and both tasks are queued. */
  ghost predicate Waiting(s: Store) {
    s.taskShard == map[] && s.shardCount == map[] && s.queue == map[0 := [3], 1 := [4]]
  }

  ghost predicate HalfSent(s: Store) {
    && Plain(s) && s.batchTask == map[0 := 3] && s.nextBatch == 1 && s.lastTask == 3
    && s.readTask == map[0 := 1, 1 := 2] && s.taskCount == map[0 := 2, 1 := 1]
    && s.ops == map[0 := [], 1 := [RegisterShard(6)]]
    && s.networkShards == map[0 := {0}, 1 := {1}] && s.registered == {5, 6}
  }

  lemma SendsFirst(s: Store)
    requires Opened(s)
    ensures HalfSent(Sending(s, 0))
  {
    hide Plain, Sending;
    SendingSends(s, 0);
    SendingLeaves(s, 0);
    PlainFrame(s, Sending(s, 0));
    assert s.batchTask[0 := 3] == map[0 := 3] && s.taskCount[0 := 2] == map[0 := 2, 1 := 1];
    assert s.ops[0 := []] == map[0 := [], 1 := [RegisterShard(6)]];
  }

  lemma SendsSecond(s: Store)
    requires HalfSent(s)
    ensures Sent(Sending(s, 1))
  {
    hide Plain, Sending;
    SendingSends(s, 1);
    SendingLeaves(s, 1);
    PlainFrame(s, Sending(s, 1));
    assert s.batchTask[1 := 4] == map[0 := 3, 1 := 4] && s.taskCount[1 := 2] == map[0 := 2, 1 := 2];
    assert s.ops[1 := []] == map[0 := [], 1 := []];
  }

  lemma SendsLater(s: Store)
    requires Opened(s)
    ensures Waiting(Sending(Sending(s, 0), 1))
  {
    hide Plain, Sending;
    SendingSends(s, 0);
    SendingLeaves(s, 0);
    SendingSends(Sending(s, 0), 1);
    SendingLeaves(Sending(s, 0), 1);
    assert s.queue[0 := [3]][1 := [4]] == map[0 := [3], 1 := [4]] && [] + [3] == [3] && [] + [4] == [4];
  }

  // ----------------------------------------------------------------- and assigns the tasks

  function WithReader(s: Store, m: Shard, reader: TaskId): (s': Store) {
    AssignTask(s, m, reader)
  }

  function WithBatch(s: Store, m: Shard, reader: TaskId, t: TaskId): (s': Store) {
    var s1 := WithReader(s, m, reader);
    AssignTask(s1.(queue := s1.queue[m := []]), m, t)
  }

  lemma ListsOne(s: Store, m: Shard)
    requires m < 2 && 5 + m in s.registered
    ensures Registered(s, Both(), [m]) == [m]
  {
    assert [m][..0] == [];
  }

  lemma FillsOne(s: Store, m: Shard, reader: TaskId, t: TaskId)
    requires QueueOf(s, m) == [t]
    ensures ScheduleShard(WithReader(s, m, reader), m, m, 1) == (WithBatch(s, m, reader, t), 1)
  {
    assert QueueOf(WithReader(s, m, reader), m) == [t] && [t][1..] == [];
    hide AssignTask, WithReader;
    assert ScheduleShard(WithBatch(s, m, reader, t), m, m, 0) == (WithBatch(s, m, reader, t), 0);
  }

  /** Network m has two tasks: its unassigned reader and a queued batch. */
  ghost predicate Ready(s: Store, m: Shard, reader: TaskId, t: TaskId) {
    && m in s.readTask && s.readTask[m] == reader && reader !in s.taskShard && QueueOf(s, m) == [t]
    && CountOf(s, m) == 0 && CreatedCount(s, m) == 2 && ExecutedCount(s, m) == 0 && 5 + m in s.registered
  }

  lemma Fills(s: Store, m: Shard, reader: TaskId, t: TaskId, placed: nat)
    requires m < 2 && placed < 90 && Ready(s, m, reader, t)
    ensures ScheduleNetwork(s, Both(), m, placed) == Some(Progress(WithBatch(s, m, reader, t), placed + 2, false))
  {
    var env, s1 := Both(), WithReader(s, m, reader);
    assert ScheduleReader(s, env, m, [m], placed) == Progress(s1, placed + 1, false);
    assert CreatedCount(s1, m) == 2 && ExecutedCount(s1, m) == 0 && CountOf(s1, m) == 1 && 5 + m in s1.registered;
    FillsOne(s, m, reader, t);
    ListsOne(s1, m);
    hide AssignTask, ScheduleShard, Registered, WithReader, WithBatch, Ready;
    assert [m][1..] == [];
    assert FillShards(s1, env, m, [m], 2, placed + 1) == Progress(WithBatch(s, m, reader, t), placed + 2, false);
  }

  lemma ReadyFirst(s: Store)
    requires Sent(s) && Waiting(s)
    ensures Ready(s, 0, 1, 3)
  {}

  lemma ReadySecond(s: Store)
    requires Sent(s) && Waiting(s)
    ensures Ready(WithBatch(s, 0, 1, 3), 1, 2, 4)
  {}

  /** All tasks are with the shards of their networks. */
  ghost predicate Assigned(s: Store) {
    Sent(s) && 3 in s.taskShard && 4 in s.taskShard
  }

  lemma StaysSent(s: Store, m: Shard, reader: TaskId, t: TaskId)
    requires Sent(s)
    ensures var s' := WithBatch(s, m, reader, t);
            Sent(s') && t in s'.taskShard && forall x :: x in s.taskShard ==> x in s'.taskShard
  {
    PlainFrame(s, WithBatch(s, m, reader, t));
    hide Plain, TasksOf, CountOf;
  }

  lemma BlockAssigns(s: Store)
    requires Sent(s) && Waiting(s)
    ensures var r := ScheduleTasks(s, Both(), [0, 1], 0); r.Some? && Assigned(r.value.s)
  {
    hide ScheduleNetwork, WithBatch, Sent, Waiting, Ready;
    var s1 := WithBatch(s, 0, 1, 3);
    ReadyFirst(s);
    ReadySecond(s);
    Fills(s, 0, 1, 3, 0);
    Fills(s1, 1, 2, 4, 2);
    StaysSent(s, 0, 1, 3);
    StaysSent(s1, 1, 2, 4);
    assert [0, 1][1..] == [1] && [1][1..] == [];
    assert ScheduleTasks(s1, Both(), [1], 2) == Some(Progress(WithBatch(s1, 1, 2, 4), 4, false));
  }

  lemma ListsBoth(s: Store)
    requires s.networkShards == map[0 := {0}, 1 := {1}] && s.readTask.Keys == {0, 1}
    requires Narrow(PrepareBatches(s, Both(), [0, 1]).0, [0, 1])
    ensures Lists(s, Both())
  {
    hide PrepareBatches, Narrow;
    var env := Both();
    forall n ensures NoDuplicates(env.Shards(n)) && Elements(env.Shards(n)) == ShardsOf(s, n) {}
    assert Elements([0, 1]) == {0, 1};
  }

  lemma BlockSends(s: Store)
    requires Opened(s)
    ensures var s1 := PrepareBatches(s, Both(), [0, 1]).0; Sent(s1) && Waiting(s1)
  {
    hide Opened, Sending, Sent, Waiting, HalfSent, PrepareBatches;
    Prepares(s);
    SendsFirst(s);
    SendsSecond(Sending(s, 0));
    SendsLater(s);
  }

  lemma OpenedLists(s: Store)
    requires Opened(s)
    ensures Lists(s, Both())
  {
    hide PrepareBatches, Lists, Sent, Waiting, Plain;
    BlockSends(s);
    SentNarrow(PrepareBatches(s, Both(), [0, 1]).0);
    assert s.readTask.Keys == {0, 1};
    ListsBoth(s);
  }

  lemma SentNarrow(s: Store)
    requires Sent(s)
    ensures Narrow(s, [0, 1])
  {}

  lemma OpenedPlain(s: Store)
    requires Opened(s)
    ensures Plain(s)
  {}

  /** A run that ends with the batches of both networks assigned. */
  lemma Story() returns (es: seq<Event>, s: Store)
    ensures Run(HOME, Genesis(), es) && After(HOME, Genesis(), es) == Some(s) && Assigned(s)
  {
    hide Run, After, PrepareBatches, ScheduleTasks, Lists, Sent, Waiting, Opened, Assigned, Plain;
    var s0: Store;
    es, s0 := Opens();
    OpenedPlain(s0);
    OpenedLists(s0);
    BlockSends(s0);
    BlockAssigns(PrepareBatches(s0, Both(), [0, 1]).0);
    Step(es, s0, BlockInitialized(Both()));
    es, s := es + [BlockInitialized(Both())], Initialize(s0, Both()).value.s;
  }

  // ------------------------------------------------------------------------- the reports

  lemma {:induction false} NothingToPrepare(s: Store, env: Env, networks: seq<Network>)
    requires forall n :: OpsOf(s, n) == []
    ensures var (s1, started) := PrepareBatches(s, env, networks);
            started == 0 && s1 == s.(ops := s1.ops) && forall n :: OpsOf(s1, n) == []
  {
    if networks != [] {
      var k := |networks| - 1;
      NothingToPrepare(s, env, networks[..k]);
      var (s1, started) := PrepareBatches(s, env, networks[..k]);
      assert OpsOf(s1, networks[k]) == [];
      var s2 := s1.(ops := s1.ops[networks[k] := []]);
      assert PrepareBatches(s, env, networks) == (s2, 0);
      forall n ensures OpsOf(s2, n) == [] {
        assert OpsOf(s1, n) == [];
      }
    }
  }

  /** What reports of batches leave alone. */
  ghost predicate SameBooks(s: Store, s': Store) {
    s'.ops == s.ops && s'.registered == s.registered && s'.networkShards == s.networkShards
  }

  lemma BatchBooks(s: Store, n: Network, b: BatchId)
    ensures SameBooks(s, ProcessEvent(s, n, BatchExecuted(b)))
  {
    var s1 := s.(pending := s.pending - {b});
    if b in s.batchTask {
      FinishBooks(s1, n, s.batchTask[b]);
      hide FinishTask;
    }
  }

  lemma FinishBooks(s: Store, n: Network, t: TaskId)
    ensures SameBooks(s, FinishTask(s, n, t, true))
  {
    if t !in s.output && t in s.taskShard {
      hide FinishTask, TasksOf, CountOf, ExecutedCount;
      FinishUnplaces(s, n, t, true);
    }
  }

  lemma {:induction false} ReportBooks(s: Store, n: Network, events: seq<GmpEvent>)
    requires forall e :: e in events ==> e.BatchExecuted?
    ensures SameBooks(s, ProcessEvents(s, n, events))
  {
    if events != [] {
      hide ProcessEvent;
      var k := |events| - 1;
      ReportBooks(s, n, events[..k]);
      assert events[k] in events;
      BatchBooks(ProcessEvents(s, n, events[..k]), n, events[k].batch);
    }
  }

  /** Both batches, reported by network 0. */
  const REPORTS: seq<GmpEvent> := [BatchExecuted(0), BatchExecuted(1)]

  lemma BothHeld(s: Store)
    requires Assigned(s)
    ensures Held(s, REPORTS) == {3, 4}
  {
    assert BatchExecuted(0) in REPORTS && BatchExecuted(1) in REPORTS;
    assert Reported(s, REPORTS) == {3, 4};
  }

  lemma ReportFacts(s: Store)
    requires Assigned(s)
    ensures var s' := SubmitGmpEvents(s, 0, REPORTS);
            && SameBooks(s, s') && Counts(s, s', 0, 2, 2)
  {
    SubmittedReports(s, 0, REPORTS);
    BothHeld(s);
    ForgetsReported(s, REPORTS);
    ReportBooks(Forget(s, REPORTS), 0, REPORTS);
    hide Forget, ProcessEvents, Held, Counts;
  }

  /** Network 0 still has its registered shard, and two tasks created. */
  ghost predicate Overcounted(s: Store) {
    s.registered == {5, 6} && CreatedCount(s, 0) == 2 && CreatedCount(s, 1) == 2
  }

  lemma OvercountedReaches(s: Store)
    requires Overcounted(s)
    ensures Reaches(s, Both(), [0, 1], 0, 0)
  {
    hide AssignTask, CountOf;
    var p := ScheduleReader(s, Both(), 0, [0], 0);
    AssignBooks(s, 0);
    assert [0][1..] == [];
    assert ScheduleReader(s, Both(), 0, [], 0) == Progress(s, 0, false);
    assert !p.stopped && p.s.registered == s.registered;
    ListsOne(p.s, 0);
  }

  lemma OvercountedTwo(s: Store)
    requires Overcounted(s)
    ensures CreatedCount(s, 0) == 2
  {}

  lemma AssignBooks(s: Store, sh: Shard)
    ensures forall t :: AssignTask(s, sh, t).registered == s.registered
  {}

  lemma ReportPrepares(s: Store, s': Store)
    requires Assigned(s) && SameBooks(s, s') && Counts(s, s', 0, 2, 2)
    ensures Overcounted(PrepareBatches(s', Both(), [0, 1]).0)
  {
    hide PrepareBatches, Plain;
    NothingToPrepare(s', Both(), [0, 1]);
    assert CreatedCount(s', 1) == CreatedCount(s, 1);
  }

  lemma ReportLists(s: Store, s': Store)
    requires Assigned(s) && SameBooks(s, s') && Counts(s, s', 0, 2, 2)
    ensures Lists(s', Both())
  {
    hide PrepareBatches, Lists, Plain;
    ReportPrepares(s, s');
    assert s'.readTask.Keys == {0, 1};
    ListsBoth(s');
  }

  lemma NotItsOwn(s: Store)
    requires Assigned(s)
    ensures !OwnNetworks(s, 0, REPORTS) && ExecutedCount(s, 0) == 0
  {
    assert !OwnNetwork(s, 0, BatchExecuted(1)) && BatchExecuted(1) in REPORTS;
  }

  /**
    A batch of network 1 reported under network 0, beside network 0's own, in a state reached from genesis,
    stops the scheduler of the next block. So the premise that batches are reported under their own network
    cannot be dropped.
   */
  lemma ForeignReportUnderflows()
    returns (es: seq<Event>, s: Store, n: Network, events: seq<GmpEvent>, env: Env)
    ensures Run(HOME, Genesis(), es) && After(HOME, Genesis(), es) == Some(s) && !OwnNetworks(s, n, events)
    ensures Lists(SubmitGmpEvents(s, n, events), env) && Initialize(SubmitGmpEvents(s, n, events), env).None?
  {
    hide OwnNetworks, ExecutedCount, CreatedCount, Run, After, SubmitGmpEvents, Initialize, Lists, PrepareBatches,
         Reaches, Assigned, Counts, SameBooks, Held;
    es, s := Story();
    n, events, env := 0, REPORTS, Both();
    var s' := SubmitGmpEvents(s, 0, REPORTS);
    NotItsOwn(s);
    ReportFacts(s);
    BothHeld(s);
    ReportLists(s, s');
    ReportPrepares(s, s');
    OvercountedReaches(PrepareBatches(s', Both(), [0, 1]).0);
    OvercountedTwo(PrepareBatches(s', Both(), [0, 1]).0);
    ReachableReports(HOME, es, 0, REPORTS, Both());
  }
}
