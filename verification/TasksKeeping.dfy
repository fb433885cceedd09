/** No batch task is ever lost: until it has an outcome it waits in the queue of its network or is with a shard. */
module TasksKeeping {
  import opened Options
  import opened Sequences
  import opened TasksSpec
  import opened TasksInvariant
  import opened TasksSteps
  import opened TasksSchedule
  import opened TasksRuns
  import opened TasksReports

  /** The batch task is with a shard, or waits in the queue of its network. */
  ghost predicate Somewhere(s: Store, t: TaskId) {
    t in s.taskShard || (t in s.taskNetwork && t in QueueOf(s, s.taskNetwork[t]))
  }

  ghost predicate Unfinished(s: Store, t: TaskId) {
    t in s.tasks && s.tasks[t].SubmitBatch? && t !in s.output
  }

  ghost predicate Kept(s: Store) {
    forall t :: Unfinished(s, t) ==> Somewhere(s, t)
  }

  // ------------------------------------------------------------------- tasks that come

  lemma CreatesKept(s: Store, n: Network, task: Task, s': Store)
    requires Kept(s) && Creates(s, n, task, s')
    ensures Kept(s')
  {
    hide QueueOf, CreatedCount;
    forall t | Unfinished(s', t) ensures Somewhere(s', t) {
      if t == s.lastTask + 1 {
        assert t in QueueOf(s, n) + [t];
      } else {
        assert Unfinished(s, t);
      }
    }
  }

  lemma CreateKept(s: Store, n: Network, task: Task)
    requires Kept(s)
    ensures Kept(CreateTask(s, n, task))
  {
    hide CreateTask, Kept;
    CreateCreates(s, n, task);
    CreatesKept(s, n, task, CreateTask(s, n, task));
  }

  /** What may change without a task getting lost. */
  lemma KeptFrame(s: Store, s': Store)
    requires Kept(s) && s'.tasks == s.tasks && s'.taskNetwork == s.taskNetwork && s'.queue == s.queue
    requires forall t :: t in s.output ==> t in s'.output
    requires forall t :: t in s.taskShard && t !in s'.output ==> t in s'.taskShard
    ensures Kept(s')
  {
    forall t | Unfinished(s', t) ensures Somewhere(s', t) {
      assert Unfinished(s, t);
    }
  }

  lemma StartKept(s: Store, n: Network, ops: seq<Op>)
    requires Kept(s)
    ensures Kept(StartBatch(s, n, ops))
  {
    hide Kept, CreateTask;
    var b := s.nextBatch;
    var s0 := s.(nextBatch := b + 1, batchOps := s.batchOps[b := ops]);
    var s1 := CreateTask(s0, n, SubmitBatch(b));
    KeptFrame(s, s0);
    CreateKept(s0, n, SubmitBatch(b));
    KeptFrame(s1, StartBatch(s, n, ops));
  }

  lemma {:induction false} StartsKept(s: Store, n: Network, batches: seq<seq<Op>>)
    requires Kept(s)
    ensures Kept(StartBatches(s, n, batches))
  {
    hide Kept, StartBatch;
    if batches != [] {
      var k := |batches| - 1;
      StartsKept(s, n, batches[..k]);
      StartKept(StartBatches(s, n, batches[..k]), n, batches[k]);
    }
  }

  lemma {:induction false} PrepareKept(s: Store, env: Env, networks: seq<Network>)
    requires Kept(s)
    ensures Kept(PrepareBatches(s, env, networks).0)
  {
    hide Kept, StartBatches, Batches;
    if networks != [] {
      var k := |networks| - 1;
      PrepareKept(s, env, networks[..k]);
      var (s1, started) := PrepareBatches(s, env, networks[..k]);
      var n := networks[k];
      var (batches, rest) := Batches(OpsOf(s1, n), [], env.Gas(n), started, env.Cap());
      KeptFrame(s1, s1.(ops := s1.ops[n := rest]));
      StartsKept(s1.(ops := s1.ops[n := rest]), n, batches);
    }
  }

  // -------------------------------------------------------------------- tasks assigned

  lemma AssignKept(s: Store, sh: Shard, t: TaskId)
    requires Kept(s)
    ensures Kept(AssignTask(s, sh, t))
  {
    hide Kept;
    KeptFrame(s, AssignTask(s, sh, t));
  }

  /** A task popped from the queue is kept if the same step assigns it. */
  lemma PopKept(s: Store, n: Network, sh: Shard)
    requires Kept(s) && QueueOf(s, n) != []
    ensures Kept(AssignTask(Popped(s, n), sh, QueueOf(s, n)[0]))
  {
    var q := QueueOf(s, n);
    var s' := AssignTask(Popped(s, n), sh, q[0]);
    AssignPlaces(Popped(s, n), sh, q[0]);
    hide AssignTask, CountOf, TasksOf;
    assert q == [q[0]] + q[1..];
    forall t | Unfinished(s', t) ensures Somewhere(s', t) {
      assert Unfinished(s, t);
    }
  }

  lemma {:induction false} ShardKept(s: Store, n: Network, sh: Shard, capacity: nat)
    requires Kept(s)
    ensures Kept(ScheduleShard(s, n, sh, capacity).0)
    decreases capacity
  {
    hide Kept, AssignTask;
    if capacity != 0 && QueueOf(s, n) != [] {
      PopKept(s, n, sh);
      ShardKept(AssignTask(Popped(s, n), sh, QueueOf(s, n)[0]), n, sh, capacity - 1);
    }
  }

  lemma {:induction false} FillKept(s: Store, env: Env, n: Network, shards: seq<Shard>, each: nat, placed: nat)
    requires Kept(s)
    ensures Kept(FillShards(s, env, n, shards, each, placed).s)
    decreases |shards|
  {
    hide Kept, ScheduleShard;
    if shards != [] {
      var capacity := Minus(each, CountOf(s, shards[0]));
      ShardKept(s, n, shards[0], capacity);
      ShardKept(s, n, shards[0], Minus(env.maxTasks, placed));
      var (s1, k) := ScheduleShard(s, n, shards[0], capacity);
      FillKept(s1, env, n, shards[1..], each, placed + k);
    }
  }

  lemma {:induction false} ReaderKept(s: Store, env: Env, n: Network, shards: seq<Shard>, placed: nat)
    requires Kept(s)
    ensures Kept(ScheduleReader(s, env, n, shards, placed).s)
    decreases |shards|
  {
    hide Kept, AssignTask, CountOf;
    if n in s.readTask && s.readTask[n] !in s.taskShard && shards != [] {
      AssignKept(s, shards[0], s.readTask[n]);
      ReaderKept(s, env, n, shards[1..], placed);
    }
  }

  lemma NetworkKept(s: Store, env: Env, n: Network, placed: nat)
    requires Kept(s) && ScheduleNetwork(s, env, n, placed).Some?
    ensures Kept(ScheduleNetwork(s, env, n, placed).value.s)
  {
    hide Kept, FillShards, ScheduleReader, Registered, TasksPerShard;
    ReaderKept(s, env, n, env.Shards(n), placed);
    var p := ScheduleReader(s, env, n, env.Shards(n), placed);
    var shards := Registered(p.s, env, env.Shards(n));
    if !p.stopped && shards != [] {
      var each := TasksPerShard(CreatedCount(p.s, n), ExecutedCount(p.s, n), |shards|, env.Limit(n));
      FillKept(p.s, env, n, shards, each.value, p.placed);
    }
  }

  lemma {:induction false} ScheduleKept(s: Store, env: Env, networks: seq<Network>, placed: nat)
    requires Kept(s) && ScheduleTasks(s, env, networks, placed).Some?
    ensures Kept(ScheduleTasks(s, env, networks, placed).value.s)
    decreases |networks|
  {
    hide Kept, ScheduleNetwork;
    if networks != [] {
      NetworkKept(s, env, networks[0], placed);
      var p := ScheduleNetwork(s, env, networks[0], placed).value;
      if !p.stopped {
        ScheduleKept(p.s, env, networks[1..], p.placed);
      }
    }
  }

  // --------------------------------------------------------------------- tasks that end

  /** The part of the storage that says which tasks there are and which wait. */
  ghost predicate SameWaiting(s: Store, s': Store) {
    s'.tasks == s.tasks && s'.taskNetwork == s.taskNetwork && s'.queue == s.queue
  }

  lemma UnplacesKept(s: Store, n: Network, t: TaskId, ok: bool, s': Store)
    requires Kept(s) && t in s.taskShard && Unplaces(s, n, t, ok, s')
    ensures Kept(s') && SameWaiting(s, s')
  {
    hide Kept, TasksOf, CountOf, ExecutedCount;
    KeptFrame(s, s');
  }

  lemma UnplacesWaiting(s: Store, n: Network, t: TaskId, ok: bool, s': Store)
    requires t in s.taskShard && Unplaces(s, n, t, ok, s')
    ensures SameWaiting(s, s')
  {
    hide TasksOf, CountOf, ExecutedCount;
  }

  lemma FinishWaiting(s: Store, n: Network, t: TaskId, ok: bool)
    ensures SameWaiting(s, FinishTask(s, n, t, ok))
  {
    if t !in s.output && t in s.taskShard {
      hide FinishTask, Unplaces;
      FinishUnplaces(s, n, t, ok);
      UnplacesWaiting(s, n, t, ok, FinishTask(s, n, t, ok));
    }
  }

  lemma FinishKept(s: Store, n: Network, t: TaskId, ok: bool)
    requires Kept(s)
    ensures Kept(FinishTask(s, n, t, ok))
  {
    hide Kept, Unplaces;
    if t !in s.output {
      if t in s.taskShard {
        hide FinishTask;
        FinishUnplaces(s, n, t, ok);
        UnplacesKept(s, n, t, ok, FinishTask(s, n, t, ok));
      } else {
        KeptFrame(s, s.(output := s.output[t := ok]));
      }
    }
  }

  lemma BatchWaiting(s: Store, n: Network, b: BatchId)
    ensures SameWaiting(s, ProcessEvent(s, n, BatchExecuted(b)))
  {
    hide FinishTask;
    if b in s.batchTask {
      FinishWaiting(s.(pending := s.pending - {b}), n, s.batchTask[b], true);
    }
  }

  lemma EventWaiting(s: Store, n: Network, e: GmpEvent)
    ensures SameWaiting(s, ProcessEvent(s, n, e))
  {
    if e.BatchExecuted? {
      hide ProcessEvent;
      BatchWaiting(s, n, e.batch);
    } else {
      hide FinishTask;
    }
  }

  lemma {:induction false} EventsWaiting(s: Store, n: Network, events: seq<GmpEvent>)
    ensures SameWaiting(s, ProcessEvents(s, n, events))
  {
    hide ProcessEvent;
    if events != [] {
      var k := |events| - 1;
      EventsWaiting(s, n, events[..k]);
      EventWaiting(ProcessEvents(s, n, events[..k]), n, events[k]);
    }
  }

  /** Reports give every reported task an outcome, whether or not the outcomes were forgotten before. */
  lemma ReportsKept(s: Store, s1: Store, s': Store, n: Network, reported: set<TaskId>)
    requires Kept(s) && SameWaiting(s, s1) && SameWaiting(s1, s') && s1.taskShard == s.taskShard
    requires forall t :: t in s.output && t !in s1.output ==> t in reported
    requires Reports(s1, s', n, reported)
    ensures Kept(s')
  {
    hide ExecutedCount;
    forall t | Unfinished(s', t) ensures Somewhere(s', t) {
      assert t !in reported && t !in s1.output;
      assert Unfinished(s, t);
    }
  }

  lemma EventsKept(s: Store, n: Network, events: seq<GmpEvent>)
    requires Kept(s)
    ensures Kept(ProcessEvents(s, n, events))
  {
    hide Kept, ProcessEvents, Reports, Reported;
    EventsReport(s, n, events);
    EventsWaiting(s, n, events);
    ReportsKept(s, s, ProcessEvents(s, n, events), n, Reported(s, events));
  }

  lemma GmpKept(s: Store, n: Network, events: seq<GmpEvent>)
    requires Kept(s)
    ensures Kept(SubmitGmpEvents(s, n, events))
  {
    var s1 := Forget(s, events);
    ForgetsReported(s, events);
    assert Reported(s1, events) == Reported(s, events);
    hide Kept, ProcessEvents, Reports, Reported, Forget;
    forall t | t in s.output && t !in s1.output ensures t in Reported(s, events) {
      assert t in s.output.Keys && t !in s1.output.Keys;
    }
    EventsReport(s1, n, events);
    EventsWaiting(s1, n, events);
    ReportsKept(s, s1, SubmitGmpEvents(s, n, events), n, Reported(s, events));
  }

  lemma AdvanceKept(s: Store, n: Network, start: nat, end: nat)
    requires Kept(s) && SizeOf(s, n) > 0
    ensures Kept(Advance(s, n, start, end))
  {
    hide Kept, CreateTask, RangeEnd;
    var s1 := s.(sync := if SyncOf(s, n) == start then s.sync[n := end] else s.sync);
    KeptFrame(s, s1);
    CreateKept(s1, n, ReadEvents(SyncOf(s1, n), RangeEnd(s1, n)));
  }

  lemma ResultKept(home: Home, s: Store, t: TaskId, result: TaskResult)
    requires Kept(s) && Sized(s)
    ensures Kept(Accepted(SubmitTaskResult(s, home, t, result), s))
  {
    hide Kept, Advance, ProcessEvents, FinishTask;
    if SubmitTaskResult(s, home, t, result).Some? && t !in s.output {
      var n := home(s.taskShard[t]);
      if s.tasks[t].ReadEvents? {
        var s1 := Advance(s, n, s.tasks[t].start, s.tasks[t].end);
        AdvanceKept(s, n, s.tasks[t].start, s.tasks[t].end);
        EventsKept(s1, n, result.events);
        FinishKept(ProcessEvents(s1, n, result.events), n, t, true);
      } else {
        var b := s.tasks[t].batch;
        var s1 := s.(pending := s.pending - {b}, failed := s.failed + {b});
        KeptFrame(s, s1);
        FinishKept(s1, n, t, false);
      }
    }
  }

  // ---------------------------------------------------------------- tasks sent back

  /** The tasks of the shard, all but the current reader of the network. */
  ghost predicate Returns(s: Store, n: Network, sh: Shard, t: TaskId) {
    t in TasksOf(s, sh) && !(n in s.readTask && t == s.readTask[n])
  }

  lemma OfflineQueue(s: Store, n: Network, sh: Shard, drained: seq<TaskId>, key: Option<Key>)
    requires Drains(s, sh, drained)
    ensures var q, q' := QueueOf(s, n), QueueOf(ShardOffline(s, n, sh, drained, key), n);
            q <= q' && forall t :: t in q'[|q|..] <==> Returns(s, n, sh, t)
  {
    hide NoDuplicates, TasksOf;
    var back := Without(drained, Reader(s, n));
    WithoutKeeps(drained, Reader(s, n));
    assert QueueOf(ShardOffline(s, n, sh, drained, key), n) == QueueOf(s, n) + back;
    assert (QueueOf(s, n) + back)[|QueueOf(s, n)|..] == back;
    forall t ensures t in drained <==> t in TasksOf(s, sh) {
      assert t in Elements(drained) <==> t in TasksOf(s, sh);
    }
  }

  lemma OfflineElsewhere(s: Store, n: Network, sh: Shard, drained: seq<TaskId>, key: Option<Key>)
    requires Drains(s, sh, drained)
    ensures var s' := ShardOffline(s, n, sh, drained, key);
            && (forall m :: m != n ==> QueueOf(s', m) == QueueOf(s, m))
            && (forall t :: t in TasksOf(s, sh) ==> t !in s'.taskShard)
            && (forall t :: t in s.taskShard && t !in TasksOf(s, sh) ==>
                  t in s'.taskShard && s'.taskShard[t] == s.taskShard[t])
  {
    hide NoDuplicates, TasksOf, Without, Elements;
  }

  /**
    A shard that goes offline returns all its tasks but the current reader to the queue of its network, each
    once, behind the tasks that wait there already; other shards and networks are not affected.
   */
  lemma OfflineReturns(home: Home, h: History, s: Store, sh: Shard, drained: seq<TaskId>, key: Option<Key>)
    requires Good(home, h, s) && Drains(s, sh, drained)
    ensures var n := home(sh);
            var s' := ShardOffline(s, n, sh, drained, key);
            var q, q' := QueueOf(s, n), QueueOf(s', n);
            && q <= q' && NoDuplicates(q') && (forall t :: t in q'[|q|..] <==> Returns(s, n, sh, t))
            && (forall m :: m != n ==> QueueOf(s', m) == QueueOf(s, m))
            && (forall t :: t in TasksOf(s, sh) ==> t !in s'.taskShard)
            && (forall t :: t in s.taskShard && t !in TasksOf(s, sh) ==>
                  t in s'.taskShard && s'.taskShard[t] == s.taskShard[t])
  {
    hide Good, NoDuplicates, Waits, ShardOffline, Drains, QueueOf, TasksOf, Returns;
    var n := home(sh);
    OfflineKeeps(home, h, s, n, sh, drained, key);
    GoodQueues(home, h, ShardOffline(s, n, sh, drained, key));
    OfflineQueue(s, n, sh, drained, key);
    OfflineElsewhere(s, n, sh, drained, key);
  }

  lemma HeldFacts(home: Home, h: History, s: Store, sh: Shard, t: TaskId)
    requires Good(home, h, s) && t in TasksOf(s, sh) && Unfinished(s, t)
    ensures t in s.taskNetwork && s.taskNetwork[t] == home(sh)
    ensures forall k :: k in s.readTask ==> t != s.readTask[k]
  {
    hide Counters, Queues;
    forall k | k in s.readTask ensures t != s.readTask[k] {
      assert ReaderOk(h, s, k, s.readTask[k]);
    }
  }

  lemma OfflineKept(home: Home, h: History, s: Store, sh: Shard, drained: seq<TaskId>, key: Option<Key>)
    requires Good(home, h, s) && Kept(s) && Drains(s, sh, drained)
    ensures Kept(ShardOffline(s, home(sh), sh, drained, key))
  {
    hide Good, Drains, QueueOf;
    OfflineReturns(home, h, s, sh, drained, key);
    var s' := ShardOffline(s, home(sh), sh, drained, key);
    assert s'.tasks == s.tasks && s'.output == s.output && s'.taskNetwork == s.taskNetwork;
    hide ShardOffline;
    forall t | Unfinished(s', t) ensures Somewhere(s', t) {
      assert Unfinished(s, t) && Somewhere(s, t);
      if t in TasksOf(s, sh) {
        HeldFacts(home, h, s, sh, t);
        assert Returns(s, home(sh), sh, t);
        assert t in QueueOf(s', home(sh))[|QueueOf(s, home(sh))|..];
      }
    }
  }

  // ------------------------------------------------------------------------ whole runs

  lemma RemoveFields(s: Store, t: TaskId)
    requires RemoveTask(s, t).Some?
    ensures var s' := RemoveTask(s, t).value;
            && s'.tasks == s.tasks - {t} && s'.taskNetwork == s.taskNetwork - {t} && s'.output == s.output - {t}
            && s'.queue == s.queue && s'.taskShard == s.taskShard
  {}

  lemma RemoveKept(s: Store, t: TaskId)
    requires Kept(s)
    ensures Kept(Accepted(RemoveTask(s, t), s))
  {
    hide RemoveTask;
    if RemoveTask(s, t).Some? {
      RemoveFields(s, t);
      var s' := RemoveTask(s, t).value;
      forall x | Unfinished(s', x) ensures Somewhere(s', x) {
        assert Unfinished(s, x);
      }
    }
  }

  lemma RestartKept(s: Store, b: BatchId)
    requires Kept(s)
    ensures Kept(Accepted(RestartBatch(s, b), s))
  {
    hide Kept, CreateTask;
    if RestartBatch(s, b).Some? {
      var n := s.taskNetwork[s.batchTask[b]];
      CreateKept(s, n, SubmitBatch(b));
      KeptFrame(CreateTask(s, n, SubmitBatch(b)), RestartBatch(s, b).value);
    }
  }

  lemma StepKept(home: Home, h: History, s: Store, e: Event)
    requires Inv(home, h, s) && Enabled(home, s, e) && Kept(s) && Next(home, s, e).Some?
    ensures Kept(Next(home, s, e).value)
  {
    hide Good, Sited, Kept, SubmitTaskResult, SubmitGmpEvents, ShardOffline, RemoveTask, RestartBatch, CreateTask;
    hide RangeEnd, PrepareBatches, ScheduleTasks, Lists, OwnNetworks, Drains;
    match e
    case TaskResultSubmitted(t, result) => ResultKept(home, s, t, result);
    case GmpEventsSubmitted(n, events) => GmpKept(s, n, events);
    case NetworkSynced(n, block) => KeptFrame(s, SyncNetwork(s, n, block));
    case NetworkStopped(n) => KeptFrame(s, StopNetwork(s, n));
    case TaskRemoved(t) => RemoveKept(s, t);
    case BatchRestarted(b) => RestartKept(s, b);
    case ShardCameOnline(sh, key) => KeptFrame(s, ShardOnline(s, home(sh), sh, key));
    case ShardWentOffline(sh, drained, key) => OfflineKept(home, h, s, sh, drained, key);
    case GatewayAdded(n, block) =>
      var s1 := s.(sync := s.sync[n := block]);
      KeptFrame(s, s1);
      assert SizeOf(s1, n) == SizeOf(s, n) > 0;
      CreateKept(s1, n, ReadEvents(SyncOf(s1, n), RangeEnd(s1, n)));
    case Configured(n, size, offset) => KeptFrame(s, SetConfig(s, n, size, offset));
    case BlockInitialized(env) =>
      PrepareKept(s, env, env.networks);
      ScheduleKept(PrepareBatches(s, env, env.networks).0, env, env.networks, 0);
  }

  lemma {:induction false} RunKept(home: Home, h: History, s: Store, es: seq<Event>)
    requires Inv(home, h, s) && Run(home, s, es) && Kept(s) && After(home, s, es).Some?
    ensures Kept(After(home, s, es).value)
    decreases |es|
  {
    hide Inv, Next, Enabled, Kept, Extends, StepTally;
    if es != [] {
      var h1 := StepKeeps(home, h, s, es[0]);
      StepKept(home, h, s, es[0]);
      RunKept(home, h1, Next(home, s, es[0]).value, es[1..]);
    }
  }

  /** Either with one shard or once in the queue of its network, and in no other. */
  ghost predicate InOnePlace(s: Store, t: TaskId) {
    && t in s.taskNetwork
    && (t in s.taskShard <==> t !in QueueOf(s, s.taskNetwork[t]))
    && multiset(QueueOf(s, s.taskNetwork[t]))[t] <= 1
    && (forall n :: t in QueueOf(s, n) ==> n == s.taskNetwork[t])
    && (forall sh :: t in TasksOf(s, sh) <==> t in s.taskShard && s.taskShard[t] == sh)
  }

  lemma KeptInOnePlace(home: Home, h: History, s: Store, t: TaskId)
    requires Good(home, h, s) && Kept(s) && Unfinished(s, t)
    ensures InOnePlace(s, t)
  {
    GoodAgrees(home, h, s);
    CountersOf(home, h, s);
    assert Somewhere(s, t);
    GoodQueues(home, h, s);
    assert t in s.taskNetwork && s.taskNetwork[t] == h.net[t];
    forall n | t in QueueOf(s, n) ensures n == s.taskNetwork[t] {
      assert Waits(h, n, s.taskShard, t);
    }
    assert NoDuplicates(QueueOf(s, s.taskNetwork[t]));
  }

  /** In every reachable state every batch task without an outcome is in exactly one place. */
  lemma BatchTasksAreKept(home: Home, es: seq<Event>, t: TaskId)
    requires Run(home, Genesis(), es)
    ensures var r := After(home, Genesis(), es); r.Some? && (Unfinished(r.value, t) ==> InOnePlace(r.value, t))
  {
    assert Kept(Genesis());
    hide Good, Run, After, Sited, Sized, Kept, InOnePlace, Unfinished;
    GenesisInv(home);
    var h := RunKeeps(home, History(map[], {}), Genesis(), es);
    RunKept(home, History(map[], {}), Genesis(), es);
    var s := After(home, Genesis(), es).value;
    if Unfinished(s, t) {
      KeptInOnePlace(home, h, s, t);
    }
  }
}
