/** The tasks pallet as it runs: storage changed in place, loops over queues, shards and networks. */
module TasksMachine {
  import opened Options
  import opened Sequences
  import opened TasksSpec
  import opened TasksInvariant
  import opened TasksSteps
  import opened TasksSchedule
  import opened TasksBatches
  import opened TasksRuns

  /** The batch builder. Nothing ever adds to `gas`, so it stays zero. */
  class BatchBuilder {
    const limit: nat
    var gas: nat
    var ops: seq<Op>

    ghost predicate Valid()
      reads this
    {
      gas == 0
    }

    constructor (batchGasLimit: nat)
      ensures Valid() && limit == batchGasLimit && ops == []
    {
      limit, gas, ops := batchGasLimit, 0, [];
    }

    method TakeBatch() returns (batch: Option<seq<Op>>)
      modifies this
      ensures Valid() || (old(ops) == [] && gas == old(gas))
      ensures ops == [] && batch == if old(ops) == [] then None else Some(old(ops))
    {
      if ops == [] {
        return None;
      }
      gas := 0;
      batch := Some(ops);
      ops := [];
    }

    method Push(op: Op) returns (batch: Option<seq<Op>>)
      requires Valid()
      modifies this
      ensures Valid()
      ensures var closes := op.Gas() > limit && old(ops) != [];
              && batch == (if closes then Some(old(ops)) else None)
              && ops == (if closes then [op] else old(ops) + [op])
    {
      batch := None;
      if gas + op.Gas() > limit {
        batch := TakeBatch();
      }
      ops := ops + [op];
    }
  }

  // ------------------------------------------------------------------- loops over batches

  lemma {:induction false} StartsIgnoreOps(s: Store, ops: map<Network, seq<Op>>, n: Network, batches: seq<seq<Op>>)
    ensures StartBatches(s.(ops := ops), n, batches) == StartBatches(s, n, batches).(ops := ops)
    ensures StartBatches(s, n, batches).ops == s.ops
  {
    if batches != [] {
      hide CreateTask;
      var k := |batches| - 1;
      StartsIgnoreOps(s, ops, n, batches[..k]);
      StartIgnoresOps(StartBatches(s, n, batches[..k]), ops, n, batches[k]);
      hide StartBatch;
    }
  }

  lemma CreateIgnoresOps(s: Store, ops: map<Network, seq<Op>>, n: Network, task: Task)
    ensures CreateTask(s.(ops := ops), n, task) == CreateTask(s, n, task).(ops := ops)
            && CreateTask(s, n, task).ops == s.ops
  {}

  lemma StartIgnoresOps(s: Store, ops: map<Network, seq<Op>>, n: Network, batch: seq<Op>)
    ensures StartBatch(s.(ops := ops), n, batch) == StartBatch(s, n, batch).(ops := ops)
            && StartBatch(s, n, batch).ops == s.ops
  {
    hide CreateTask;
    CreateIgnoresOps(Numbered(s, batch), ops, n, SubmitBatch(s.nextBatch));
  }

  lemma OneMoreStarted(s: Store, n: Network, batches: seq<seq<Op>>, batch: seq<Op>)
    ensures StartBatches(s, n, batches + [batch]) == StartBatch(StartBatches(s, n, batches), n, batch)
  {
    assert (batches + [batch])[..|batches|] == batches;
  }

  /** The batches made so far, followed by those still to be made, are the batches of the whole queue. */
  ghost predicate OnTheWay(goal: (seq<seq<Op>>, seq<Op>), done: seq<seq<Op>>, queue: seq<Op>, ops: seq<Op>, limit: nat,
                           started: nat, cap: nat) {
    var (more, rest) := Batches(queue, ops, limit, started, cap);
    goal == (done + more, rest)
  }

  lemma BatchStep(goal: (seq<seq<Op>>, seq<Op>), done: seq<seq<Op>>, queue: seq<Op>, ops: seq<Op>, limit: nat,
                  started: nat, cap: nat)
    requires queue != [] && OnTheWay(goal, done, queue, ops, limit, started, cap)
    ensures var closes := queue[0].Gas() > limit && ops != [];
            var done' := if closes then done + [ops] else done;
            var ops' := if closes then [queue[0]] else ops + [queue[0]];
            var started' := if closes then started + 1 else started;
            if started' == cap then goal == (done' + [ops'], queue[1..])
            else OnTheWay(goal, done', queue[1..], ops', limit, started', cap)
  {
    var closes := queue[0].Gas() > limit && ops != [];
    var first := if closes then [ops] else [];
    var ops' := if closes then [queue[0]] else ops + [queue[0]];
    var more := Batches(queue[1..], ops', limit, started + |first|, cap).0;
    assert done + (first + more) == (if closes then done + [ops] else done) + more;
    assert done + (first + [ops']) == (if closes then done + [ops] else done) + [ops'];
  }

  /** The outcomes of `submit_task_result`, case by case. */
  lemma ResultCases(s: Store, home: Home, t: TaskId, result: TaskResult)
    requires Sized(s)
    ensures var r := SubmitTaskResult(s, home, t, result);
            if t !in s.tasks then r == None
            else if t in s.output then r == Some(s)
            else if t !in s.taskShard then r == None
            else if s.tasks[t].ReadEvents? && result.EventsRead? then
              var n := home(s.taskShard[t]);
              var s1 := ProcessEvents(Advance(s, n, s.tasks[t].start, s.tasks[t].end), n, result.events);
              r == if !result.genuine then None else if |result.events| == MAX_GMP_EVENTS then Some(s1)
                  else Some(FinishTask(s1, n, t, true))
            else if s.tasks[t].SubmitBatch? && result.BatchFailed? then
              var b := s.tasks[t].batch;
              r == if !result.genuine then None
                  else Some(FinishTask(s.(pending := s.pending - {b}, failed := s.failed + {b}), home(s.taskShard[t]),
                                       t, false))
            else r == None
  {
    hide FinishTask, ProcessEvents, Advance;
  }

  class TasksPallet {
    var store: Store

    constructor ()
      ensures store == Genesis()
    {
      store := Genesis();
    }

    method CreateTask(n: Network, task: Task) returns (t: TaskId)
      modifies this
      ensures store == TasksSpec.CreateTask(old(store), n, task) && t == store.lastTask
    {
      t := store.lastTask + 1;
      if task.ReadEvents? {
        store := store.(tasks := store.tasks[t := task], taskNetwork := store.taskNetwork[t := n], lastTask := t,
                        readTask := store.readTask[n := t],
                        taskCount := store.taskCount[n := CreatedCount(store, n) + 1]);
      } else {
        store := store.(tasks := store.tasks[t := task], taskNetwork := store.taskNetwork[t := n], lastTask := t,
                        queue := store.queue[n := QueueOf(store, n) + [t]],
                        taskCount := store.taskCount[n := CreatedCount(store, n) + 1]);
      }
    }

    method FinishTask(n: Network, t: TaskId, ok: bool)
      modifies this
      ensures store == TasksSpec.FinishTask(old(store), n, t, ok)
    {
      if t in store.output {
        return;
      }
      if t !in store.taskShard {
        store := store.(output := store.output[t := ok]);
      } else {
        var sh := store.taskShard[t];
        store := store.(output := store.output[t := ok],
                        taskShard := store.taskShard - {t},
                        shardTasks := store.shardTasks[sh := TasksOf(store, sh) - {t}],
                        shardCount := store.shardCount[sh := if CountOf(store, sh) > 0 then CountOf(store, sh) - 1
                            else 0],
                        executed := store.executed[n := ExecutedCount(store, n) + 1]);
      }
    }

    method AssignTask(sh: Shard, t: TaskId)
      modifies this
      ensures store == TasksSpec.AssignTask(old(store), sh, t)
    {
      store := store.(shardTasks := store.shardTasks[sh := TasksOf(store, sh) + {t}],
                      taskShard := store.taskShard[t := sh],
                      shardCount := store.shardCount[sh := CountOf(store, sh) + 1]);
    }

    method ReadGatewayEvents(n: Network)
      requires SizeOf(store, n) > 0
      modifies this
      ensures store == TasksSpec.ReadGatewayEvents(old(store), n)
    {
      var block := SyncOf(store, n);
      var size := NextBatchSize(SizeOf(store, n), OffsetOf(store, n), block);
      var t := CreateTask(n, ReadEvents(block, block + size));
    }

    method GatewayRegistered(n: Network, block: nat)
      requires SizeOf(store, n) > 0
      modifies this
      ensures store == TasksSpec.GatewayRegistered(old(store), n, block)
    {
      store := store.(sync := store.sync[n := block]);
      ReadGatewayEvents(n);
    }

    method ProcessEvents(n: Network, events: seq<GmpEvent>)
      modifies this
      ensures store == TasksSpec.ProcessEvents(old(store), n, events)
    {
      hide TasksSpec.FinishTask;
      for i := 0 to |events|
        invariant store == TasksSpec.ProcessEvents(old(store), n, events[..i])
      {
        assert events[..i + 1][..i] == events[..i];
        match events[i] {
          case ShardRegistered(key) => store := store.(registered := store.registered + {key});
          case ShardUnregistered(key) => store := store.(registered := store.registered - {key});
          case MessageReceived(m, d, cost) =>
              store := store.(ops := store.ops[d := OpsOf(store, d) + [SendMessage(m, d, cost)]]);
          case MessageExecuted(_) =>
          case BatchExecuted(b) =>
            store := store.(pending := store.pending - {b});
            if b in store.batchTask {
              FinishTask(n, store.batchTask[b], true);
            }
        }
      }
      assert events[..|events|] == events;
    }

    /** A reader's result moves the sync height and starts the next reader. */
    method Advance(n: Network, start: nat, end: nat)
      requires SizeOf(store, n) > 0
      modifies this
      ensures store == TasksSpec.Advance(old(store), n, start, end)
    {
      hide TasksSpec.ReadGatewayEvents;
      if SyncOf(store, n) == start {
        store := store.(sync := store.sync[n := end]);
      }
      if n in store.readTask {
        ReadGatewayEvents(n);
      }
    }

    /** Returns whether the call succeeds. */
    method SubmitTaskResult(home: Home, t: TaskId, result: TaskResult) returns (ok: bool)
      requires Sized(store)
      modifies this
      ensures var r := TasksSpec.SubmitTaskResult(old(store), home, t, result);
              ok == r.Some? && store == Accepted(r, old(store))
    {
      ResultCases(store, home, t, result);
      hide TasksSpec.FinishTask, TasksSpec.ProcessEvents, TasksSpec.Advance, TasksSpec.SubmitTaskResult;
      if t !in store.tasks {
        return false;
      }
      if t in store.output {
        return true;
      }
      if t !in store.taskShard {
        return false;
      }
      var n, task := home(store.taskShard[t]), store.tasks[t];
      if task.ReadEvents? && result.EventsRead? {
        if !result.genuine {
          return false;
        }
        Advance(n, task.start, task.end);
        ProcessEvents(n, result.events);
        if |result.events| != MAX_GMP_EVENTS {
          FinishTask(n, t, true);
        }
        return true;
      } else if task.SubmitBatch? && result.BatchFailed? {
        if !result.genuine {
          return false;
        }
        store := store.(pending := store.pending - {task.batch}, failed := store.failed + {task.batch});
        FinishTask(n, t, false);
        return true;
      }
      return false;
    }

    method SubmitGmpEvents(n: Network, events: seq<GmpEvent>)
      modifies this
      ensures store == TasksSpec.SubmitGmpEvents(old(store), n, events)
    {
      for i := 0 to |events|
        invariant store == Forget(old(store), events[..i])
      {
        assert events[..i + 1][..i] == events[..i];
        var e := events[i];
        if e.BatchExecuted? {
          store := store.(failed := store.failed - {e.batch});
          if e.batch in store.batchTask {
            store := store.(output := store.output - {store.batchTask[e.batch]});
          }
        }
      }
      assert events[..|events|] == events;
      ProcessEvents(n, events);
    }

    method RemoveTask(t: TaskId) returns (ok: bool)
      modifies this
      ensures var r := TasksSpec.RemoveTask(old(store), t); ok == r.Some? && store == Accepted(r, old(store))
    {
      ok := t in store.output;
      if ok {
        store := store.(output := store.output - {t});
        if t in store.tasks && store.tasks[t].SubmitBatch? {
          var b := store.tasks[t].batch;
          store := store.(batchOps := store.batchOps - {b}, batchTask := store.batchTask - {b});
        }
        store := store.(tasks := store.tasks - {t}, taskNetwork := store.taskNetwork - {t});
      }
    }

    method RestartBatch(b: BatchId) returns (ok: bool)
      modifies this
      ensures var r := TasksSpec.RestartBatch(old(store), b); ok == r.Some? && store == Accepted(r, old(store))
    {
      hide TasksSpec.CreateTask;
      ok := b in store.batchTask && store.batchTask[b] in store.taskNetwork;
      if ok {
        var t := CreateTask(store.taskNetwork[store.batchTask[b]], SubmitBatch(b));
        store := store.(batchTask := store.batchTask[b := t], pending := store.pending + {b},
                        failed := store.failed - {b});
      }
    }

    method ShardOnline(n: Network, sh: Shard, key: Option<Key>)
      modifies this
      ensures store == TasksSpec.ShardOnline(old(store), n, sh, key)
    {
      store := store.(networkShards := store.networkShards[n := ShardsOf(store, n) + {sh}]);
      if key.Some? {
        store := store.(ops := store.ops[n := OpsOf(store, n) + [RegisterShard(key.value)]]);
      }
    }

    method ShardOffline(n: Network, sh: Shard, key: Option<Key>) returns (ghost drained: seq<TaskId>)
      modifies this
      ensures Drains(old(store), sh, drained) && store == TasksSpec.ShardOffline(old(store), n, sh, drained, key)
    {
      hide NoDuplicates, Elements, Without, ListsOnce;
      ghost var s, all := store, TasksOf(store, sh);
      store := store.(networkShards := store.networkShards[n := ShardsOf(store, n) - {sh}],
                      queue := store.queue[n := QueueOf(store, n)]);
      ghost var s1 := store;
      drained := [];
      var reader, left := Reader(store, n), TasksOf(store, sh);
      NoneDrained(s, n, reader);
      assert all - left == {};
      while left != {}
        invariant left <= all && ListsOnce(drained, all - left)
        invariant store == s1.(taskShard := s.taskShard - Elements(drained),
                               queue := s.queue[n := QueueOf(s, n) + Without(drained, reader)])
      {
        var t :| t in left;
        OneMoreDrained(s, n, reader, drained, t);
        ListsOneMore(drained, all, left, t);
        store := store.(taskShard := store.taskShard - {t});
        if t !in reader {
          store := store.(queue := store.queue[n := store.queue[n] + [t]]);
        }
        drained := drained + [t];
        left := left - {t};
      }
      assert all - left == all;
      ListsOnceDistinct(drained, all);
      store := store.(shardTasks := store.shardTasks - {sh}, shardCount := store.shardCount[sh := 0]);
      if key.Some? {
        store := store.(ops := store.ops[n := OpsOf(store, n) + [UnregisterShard(key.value)]]);
      }
    }

    method ScheduleShard(n: Network, sh: Shard, capacity: nat) returns (k: nat)
      modifies this
      ensures (store, k) == TasksSpec.ScheduleShard(old(store), n, sh, capacity)
    {
      hide TasksSpec.AssignTask;
      ghost var goal := TasksSpec.ScheduleShard(store, n, sh, capacity);
      k := 0;
      for i := 0 to capacity
        invariant k == i
        invariant var r := TasksSpec.ScheduleShard(store, n, sh, capacity - i); goal == (r.0, r.1 + k)
      {
        if QueueOf(store, n) == [] {
          break;
        }
        var t := QueueOf(store, n)[0];
        store := store.(queue := store.queue[n := QueueOf(store, n)[1..]]);
        AssignTask(sh, t);
        k := k + 1;
      }
    }

    /** The first loop over the shards of a network, for its reader. */
    method ScheduleReader(env: Env, n: Network, soFar: nat) returns (placed: nat, stopped: bool)
      modifies this
      ensures Progress(store, placed, stopped) == TasksSpec.ScheduleReader(old(store), env, n, env.Shards(n), soFar)
    {
      hide TasksSpec.AssignTask;
      placed, stopped := soFar, false;
      if n in store.readTask && store.readTask[n] !in store.taskShard {
        var shards := env.Shards(n);
        assert shards[0..] == shards;
        for j := 0 to |shards|
          invariant store == old(store) && placed == soFar && !stopped
          invariant TasksSpec.ScheduleReader(store, env, n, shards[j..], soFar)
                    == TasksSpec.ScheduleReader(store, env, n, shards, soFar)
        {
          assert shards[j..][0] == shards[j] && shards[j..][1..] == shards[j + 1..];
          if CountOf(store, shards[j]) < env.Limit(n) {
            if placed == env.maxTasks {
              stopped := true;
              return;
            }
            AssignTask(shards[j], store.readTask[n]);
            placed := placed + 1;
            return;
          }
        }
      }
    }

    method RegisteredShards(env: Env, n: Network) returns (shards: seq<Shard>)
      ensures shards == Registered(store, env, env.Shards(n))
    {
      var all := env.Shards(n);
      shards := [];
      for j := 0 to |all|
        invariant shards == Registered(store, env, all[..j])
      {
        assert all[..j + 1][..j] == all[..j];
        var sh := all[j];
        if sh in env.keys && env.keys[sh] in store.registered && sh in env.online {
          shards := shards + [sh];
        }
      }
      assert all[..|all|] == all;
    }

    /** The second loop over the shards of a network. */
    method FillShards(env: Env, n: Network, shards: seq<Shard>, each: nat, soFar: nat)
        returns (placed: nat, stopped: bool)
      modifies this
      ensures Progress(store, placed, stopped) == TasksSpec.FillShards(old(store), env, n, shards, each, soFar)
    {
      hide TasksSpec.ScheduleShard;
      ghost var goal := TasksSpec.FillShards(store, env, n, shards, each, soFar);
      placed, stopped := soFar, false;
      assert shards[0..] == shards;
      for j := 0 to |shards|
        invariant !stopped && goal == TasksSpec.FillShards(store, env, n, shards[j..], each, placed)
      {
        assert shards[j..][0] == shards[j] && shards[j..][1..] == shards[j + 1..];
        var capacity := Minus(each, CountOf(store, shards[j]));
        if env.maxTasks > placed + capacity {
          var k := ScheduleShard(n, shards[j], capacity);
          placed := placed + k;
        } else {
          var k := ScheduleShard(n, shards[j], Minus(env.maxTasks, placed));
          placed, stopped := placed + k, true;
          return;
        }
      }
    }

    /** The body of the loop of `schedule_tasks`. Neither subtraction underflows. */
    method ScheduleNetwork(env: Env, n: Network, soFar: nat, ghost home: Home, ghost h: History)
        returns (placed: nat, stopped: bool)
      requires Good(home, h, store) && n in store.readTask && soFar <= env.maxTasks
      requires NoDuplicates(env.Shards(n)) && forall x :: x in env.Shards(n) ==> home(x) == n
      requires CreatedCount(store, n) - ExecutedCount(store, n) < U32
      modifies this
      ensures TasksSpec.ScheduleNetwork(old(store), env, n, soFar) == Some(Progress(store, placed, stopped))
    {
      hide Good, NoDuplicates, TasksSpec.ScheduleReader, TasksSpec.FillShards, Registered, Within, QueueOf,
           CreatedCount, ExecutedCount;
      ghost var s := store;
      ReaderFacts(home, h, s, env, n, env.Shards(n), soFar);
      placed, stopped := ScheduleReader(env, n, soFar);
      if stopped {
        return;
      }
      var shards := RegisteredShards(env, n);
      if shards == [] {
        return;
      }
      WithinCounts(home, s, env, n, soFar, Progress(store, placed, false));
      Accounting(home, h, store, n);
      SmallMod(CreatedCount(store, n) - ExecutedCount(store, n), U32);
      var assignable: nat := CreatedCount(store, n) - ExecutedCount(store, n);
      var low: nat := assignable % U32 - 1;
      var each := low / |shards| + 1;
      each := if each < env.Limit(n) then each else env.Limit(n);
      placed, stopped := FillShards(env, n, shards, each, placed);
    }

    /** `schedule_tasks`. */
    method ScheduleTasks(env: Env, ghost home: Home, ghost h: History) returns (placed: nat, stopped: bool)
      requires Good(home, h, store) && Listings(home, store, env, env.networks) && Narrow(store, env.networks)
      modifies this
      ensures TasksSpec.ScheduleTasks(old(store), env, env.networks, 0) == Some(Progress(store, placed, stopped))
    {
      hide Good, NoDuplicates, Listings, Narrow, TasksSpec.ScheduleNetwork, Within, Drained, QueueOf, CreatedCount,
           ExecutedCount;
      ghost var goal := TasksSpec.ScheduleTasks(store, env, env.networks, 0);
      placed, stopped := 0, false;
      assert env.networks[0..] == env.networks;
      for i := 0 to |env.networks|
        invariant !stopped && placed <= env.maxTasks
                  && goal == TasksSpec.ScheduleTasks(store, env, env.networks[i..], placed)
        invariant Good(home, h, store) && Listings(home, store, env, env.networks[i..])
                  && Narrow(store, env.networks[i..])
      {
        ghost var nets, s, before := env.networks[i..], store, placed;
        var n := env.networks[i];
        assert nets[0] == n && nets[1..] == env.networks[i + 1..];
        ListingsFirst(home, s, env, nets);
        NetworkFacts(home, h, s, env, n, placed);
        placed, stopped := ScheduleNetwork(env, n, placed, home, h);
        NarrowFrame(home, s, env, n, before, Progress(store, placed, stopped), nets);
        PlacedBound(home, s, env, n, before, Progress(store, placed, stopped));
        if stopped {
          return;
        }
      }
      assert env.networks[|env.networks|..] == [];
    }

    /** `prepare_batches`. */
    method PrepareBatches(env: Env)
      modifies this
      ensures store == TasksSpec.PrepareBatches(old(store), env, env.networks).0
    {
      hide TasksSpec.PrepareNetwork;
      var started := 0;
      for i := 0 to |env.networks|
        invariant (store, started) == TasksSpec.PrepareBatches(old(store), env, env.networks[..i])
      {
        assert env.networks[..i + 1][..i] == env.networks[..i];
        started := PrepareNetwork(env, env.networks[i], started);
      }
      assert env.networks[..|env.networks|] == env.networks;
    }

    /** `on_initialize`. */
    method OnInitialize(env: Env, ghost home: Home, ghost h: History) returns (ghost h': History)
      requires Inv(home, h, store) && Lists(store, env)
      modifies this
      ensures Next(home, old(store), BlockInitialized(env)) == Some(store) && Inv(home, h', store)
    {
      hide Good, Sited, Sized, Lists, Narrow, Listings, TasksSpec.PrepareBatches, TasksSpec.ScheduleTasks;
      ghost var s := store;
      ghost var h1 := PrepareKeeps(home, h, s, env, env.networks);
      ListingsHold(home, s, TasksSpec.PrepareBatches(s, env, env.networks).0, env);
      ListsNarrow(s, env);
      PrepareBatches(env);
      var placed, stopped := ScheduleTasks(env, home, h1);
      h' := InitializeKeeps(home, h, s, env);
    }

    method StartBatch(n: Network, ops: seq<Op>)
      modifies this
      ensures store == TasksSpec.StartBatch(old(store), n, ops)
    {
      hide TasksSpec.CreateTask;
      var b := store.nextBatch;
      store := store.(nextBatch := b + 1, batchOps := store.batchOps[b := ops]);
      var t := CreateTask(n, SubmitBatch(b));
      store := store.(pending := store.pending + {b}, batchTask := store.batchTask[b := t]);
    }

    /** Takes the oldest operation off the queue. */
    method PopOp(n: Network, ghost s: Store, ghost done: seq<seq<Op>>) returns (op: Op)
      requires OpsOf(store, n) != [] && Underway(s, store, n, done)
      modifies this
      ensures Underway(s, store, n, done)
      ensures op == OpsOf(old(store), n)[0] && OpsOf(store, n) == OpsOf(old(store), n)[1..]
    {
      hide StartBatches;
      op := OpsOf(store, n)[0];
      StartsIgnoreOps(s.(ops := store.ops), store.ops[n := OpsOf(store, n)[1..]], n, done);
      store := store.(ops := store.ops[n := OpsOf(store, n)[1..]]);
    }

    method StartNext(n: Network, batch: seq<Op>, ghost s: Store, ghost done: seq<seq<Op>>)
      requires Underway(s, store, n, done)
      modifies this
      ensures Underway(s, store, n, done + [batch]) && OpsOf(store, n) == OpsOf(old(store), n)
    {
      hide StartBatches, TasksSpec.StartBatch;
      OneMoreStarted(s.(ops := store.ops), n, done, batch);
      StartIgnoresOps(store, store.ops, n, batch);
      StartBatch(n, batch);
    }

    /** The loop of `prepare_batches` for one network. */
    method PrepareNetwork(env: Env, n: Network, started: nat) returns (num: nat)
      modifies this
      ensures (store, num) == TasksSpec.PrepareNetwork(old(store), env, n, started)
    {
      hide Batches, StartBatches, OnTheWay, Underway, OpsOf;
      ghost var s := store;
      store := store.(ops := store.ops[n := OpsOf(store, n)]);
      var cap := env.Cap();
      ghost var goal := Batches(OpsOf(s, n), [], env.Gas(n), started, cap);
      ghost var done: seq<seq<Op>> := [];
      var batcher := new BatchBuilder(env.Gas(n));
      num := started;
      NothingDone(s, store, n, env.Gas(n), started, cap);
      var stopped := false;
      while OpsOf(store, n) != []
        invariant !stopped && num == started + |done| && batcher.Valid() && batcher.limit == env.Gas(n)
                  && fresh(batcher)
        invariant OnTheWay(goal, done, OpsOf(store, n), batcher.ops, env.Gas(n), num, cap)
        invariant Underway(s, store, n, done)
        decreases |OpsOf(store, n)|
      {
        BatchStep(goal, done, OpsOf(store, n), batcher.ops, env.Gas(n), num, cap);
        var op := PopOp(n, s, done);
        var batch := batcher.Push(op);
        if batch.Some? {
          StartNext(n, batch.value, s, done);
          num := num + 1;
          done := done + [batch.value];
        }
        if num == cap {
          stopped := true;
          break;
        }
      }
      if !stopped {
        LastStep(goal, done, OpsOf(store, n), batcher.ops, env.Gas(n), num, cap);
      }
      var batch := batcher.TakeBatch();
      if batch.Some? {
        StartNext(n, batch.value, s, done);
        num := num + 1;
        done := done + [batch.value];
      }
      assert goal == (done, OpsOf(store, n));
      AllDone(s, store, env, n, started, done);
    }
  }

  /** The batches `done` were started, and apart from the queue of n nothing else happened. */
  ghost predicate Underway(s: Store, s': Store, n: Network, done: seq<seq<Op>>) {
    && s' == StartBatches(s.(ops := s'.ops), n, done)
    && n in s'.ops && s'.ops == s.ops[n := s'.ops[n]]
  }

  lemma NoneDrained(s: Store, n: Network, reader: set<TaskId>)
    ensures s.taskShard - Elements([]) == s.taskShard && QueueOf(s, n) + Without([], reader) == QueueOf(s, n)
            && ListsOnce([], {})
  {
    ListsOnceNothing();
    assert Elements([]) == {};
  }

  lemma OneMoreDrained(s: Store, n: Network, reader: set<TaskId>, drained: seq<TaskId>, t: TaskId)
    ensures s.taskShard - Elements(drained + [t]) == (s.taskShard - Elements(drained)) - {t}
    ensures QueueOf(s, n) + Without(drained + [t], reader)
            == if t in reader then QueueOf(s, n) + Without(drained, reader)
               else QueueOf(s, n) + Without(drained, reader) + [t]
  {
    hide Without;
    assert Elements(drained + [t]) == Elements(drained) + {t};
    WithoutOneMore(drained, reader, t);
  }

  lemma WithinCounts(home: Home, s: Store, env: Env, n: Network, placed: nat, p: Progress)
    requires Within(home, s, env, n, placed, p)
    ensures CreatedCount(p.s, n) == CreatedCount(s, n) && ExecutedCount(p.s, n) == ExecutedCount(s, n)
            && p.s.readTask == s.readTask
  {
    hide CountOf, QueueOf;
  }

  lemma ListingsFirst(home: Home, s: Store, env: Env, networks: seq<Network>)
    requires networks != [] && Listings(home, s, env, networks) && Narrow(s, networks)
    ensures var n := networks[0];
            && n in s.readTask && NoDuplicates(env.Shards(n)) && (forall x :: x in env.Shards(n) ==> home(x) == n)
            && CreatedCount(s, n) - ExecutedCount(s, n) < U32
  {
    hide NoDuplicates;
  }

  lemma ListsNarrow(s: Store, env: Env)
    requires Lists(s, env)
    ensures Narrow(PrepareBatches(s, env, env.networks).0, env.networks)
  {
    hide PrepareBatches, NoDuplicates, Narrow;
  }

  lemma AllDone(s: Store, s': Store, env: Env, n: Network, started: nat, done: seq<seq<Op>>)
    requires Underway(s, s', n, done)
             && Batches(OpsOf(s, n), [], env.Gas(n), started, env.Cap()) == (done, OpsOf(s', n))
    ensures PrepareNetwork(s, env, n, started) == (s', started + |done|)
  {
    hide Batches, StartBatches;
  }

  lemma NothingDone(s: Store, s': Store, n: Network, limit: nat, started: nat, cap: nat)
    requires s' == s.(ops := s.ops[n := OpsOf(s, n)])
    ensures OnTheWay(Batches(OpsOf(s, n), [], limit, started, cap), [], OpsOf(s', n), [], limit, started, cap)
    ensures Underway(s, s', n, [])
  {
    hide Batches;
    var (more, rest) := Batches(OpsOf(s, n), [], limit, started, cap);
    assert [] + more == more;
  }

  lemma LastStep(goal: (seq<seq<Op>>, seq<Op>), done: seq<seq<Op>>, queue: seq<Op>, ops: seq<Op>, limit: nat,
                 started: nat, cap: nat)
    requires queue == [] && OnTheWay(goal, done, queue, ops, limit, started, cap)
    ensures goal == (if ops == [] then done else done + [ops], [])
  {
    assert done + [] == done;
  }
}
