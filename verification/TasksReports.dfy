/**
  Why executed batches must be reported under their own network: what a list of reports counts, and
  exactly when the scheduler underflows after it.
 */
module TasksReports {
  import opened FiniteSets
  import opened Sequences
  import opened TasksSpec
  import opened TasksInvariant
  import opened TasksSteps
  import opened TasksSchedule
  import opened TasksRuns

  /** The tasks of the batches that the events report as executed. */
  ghost function Reported(s: Store, events: seq<GmpEvent>): (r: set<TaskId>) {
    set e | e in events && e.BatchExecuted? && e.batch in s.batchTask :: s.batchTask[e.batch]
  }

  /** The reported tasks that a shard holds. */
  ghost function Held(s: Store, events: seq<GmpEvent>): (r: set<TaskId>) {
    set t | t in Reported(s, events) && t in s.taskShard
  }

  /** The tasks that reports finish while a shard holds them. */
  ghost function Finishes(s: Store, reported: set<TaskId>): (r: set<TaskId>) {
    set t | t in reported && t in s.taskShard && t !in s.output
  }

  // ----------------------------------------------------------------- what reports count

  /** What reports of these tasks do: each gets an outcome, and is counted if a shard held it. */
  ghost predicate Reports(s: Store, s': Store, n: Network, reported: set<TaskId>) {
    && s'.batchTask == s.batchTask && s'.readTask == s.readTask && s'.taskCount == s.taskCount
    && (forall t :: t in s'.taskShard <==> t in s.taskShard && t !in Finishes(s, reported))
    && (forall t :: t in s'.output <==> t in s.output || t in reported)
    && ExecutedCount(s', n) == ExecutedCount(s, n) + |Finishes(s, reported)|
    && (forall k :: k != n ==> ExecutedCount(s', k) == ExecutedCount(s, k))
  }

  lemma OneReported(s: Store, e: GmpEvent)
    ensures Reported(s, [e]) == if e.BatchExecuted? && e.batch in s.batchTask then {s.batchTask[e.batch]} else {}
  {
    assert e in [e];
  }

  lemma UnplacesReports(s: Store, n: Network, t: TaskId, s': Store)
    requires t in s.taskShard && t !in s.output && Unplaces(s, n, t, true, s')
    ensures Reports(s, s', n, {t})
  {
    hide TasksOf, CountOf, ExecutedCount;
    assert Finishes(s, {t}) == {t};
  }

  lemma OutcomeReports(s: Store, n: Network, t: TaskId, output: map<TaskId, bool>)
    requires (t !in s.taskShard || t in s.output) && output.Keys == s.output.Keys + {t}
    ensures Reports(s, s.(output := output), n, {t})
  {
    assert Finishes(s, {t}) == {};
    forall x ensures x in output <==> x in s.output || x == t {
      assert x in output.Keys <==> x in s.output.Keys + {t};
    }
  }

  lemma FinishReports(s: Store, n: Network, t: TaskId)
    ensures Reports(s, FinishTask(s, n, t, true), n, {t})
  {
    hide Unplaces, Reports;
    if t in s.output {
      assert s.output.Keys == s.output.Keys + {t};
      OutcomeReports(s, n, t, s.output);
    } else if t in s.taskShard {
      hide FinishTask;
      FinishUnplaces(s, n, t, true);
      UnplacesReports(s, n, t, FinishTask(s, n, t, true));
    } else {
      OutcomeReports(s, n, t, s.output[t := true]);
    }
  }

  lemma NothingReported(s: Store, s': Store, n: Network)
    requires s'.batchTask == s.batchTask && s'.taskShard == s.taskShard && s'.output == s.output
    requires s'.readTask == s.readTask && s'.taskCount == s.taskCount && s'.executed == s.executed
    ensures Reports(s, s', n, {})
  {
    assert Finishes(s, {}) == {};
  }

  lemma BatchReports(s: Store, n: Network, b: BatchId)
    requires b in s.batchTask
    ensures Reports(s, ProcessEvent(s, n, BatchExecuted(b)), n, {s.batchTask[b]})
  {
    hide FinishTask, Reports;
    var s1 := s.(pending := s.pending - {b});
    NothingReported(s, s1, n);
    FinishReports(s1, n, s.batchTask[b]);
    ReportsTrans(s, s1, ProcessEvent(s, n, BatchExecuted(b)), n, {}, {s.batchTask[b]});
    assert {} + {s.batchTask[b]} == {s.batchTask[b]};
  }

  lemma EventReports(s: Store, n: Network, e: GmpEvent)
    ensures Reports(s, ProcessEvent(s, n, e), n, Reported(s, [e]))
  {
    OneReported(s, e);
    hide Reported, Reports, FinishTask;
    var s' := ProcessEvent(s, n, e);
    if e.BatchExecuted? && e.batch in s.batchTask {
      BatchReports(s, n, e.batch);
    } else {
      NothingReported(s, s', n);
    }
    hide ProcessEvent;
  }

  lemma FinishesMore(s: Store, s1: Store, n: Network, a: set<TaskId>, b: set<TaskId>)
    requires Reports(s, s1, n, a)
    ensures Finishes(s, a + b) == Finishes(s, a) + Finishes(s1, b) && Finishes(s, a) !! Finishes(s1, b)
  {
    hide CreatedCount, ExecutedCount;
  }

  lemma ReportsTrans(s: Store, s1: Store, s2: Store, n: Network, a: set<TaskId>, b: set<TaskId>)
    requires Reports(s, s1, n, a) && Reports(s1, s2, n, b)
    ensures Reports(s, s2, n, a + b)
  {
    FinishesMore(s, s1, n, a, b);
    hide CreatedCount, ExecutedCount, Finishes;
  }

  /** A list of reports counts every task it finishes while a shard holds it, once, whatever it repeats. */
  lemma {:induction false} EventsReport(s: Store, n: Network, events: seq<GmpEvent>)
    ensures Reports(s, ProcessEvents(s, n, events), n, Reported(s, events))
  {
    if events == [] {
      NothingReported(s, s, n);
      assert Reported(s, []) == {};
    } else {
      hide ProcessEvent, CreatedCount, ExecutedCount, Finishes;
      var k := |events| - 1;
      var s1 := ProcessEvents(s, n, events[..k]);
      EventsReport(s, n, events[..k]);
      EventReports(s1, n, events[k]);
      ReportsTrans(s, s1, ProcessEvents(s, n, events), n, Reported(s, events[..k]), Reported(s1, [events[k]]));
      MoreReported(s, s1, events[..k], events[k]);
      assert events == events[..k] + [events[k]];
    }
  }

  lemma MoreReported(s: Store, s1: Store, before: seq<GmpEvent>, e: GmpEvent)
    requires s1.batchTask == s.batchTask
    ensures Reported(s, before + [e]) == Reported(s, before) + Reported(s1, [e])
  {}

  lemma {:induction false} ForgetsReported(s: Store, events: seq<GmpEvent>)
    ensures var s1 := Forget(s, events);
            && s1 == s.(failed := s1.failed, output := s1.output)
            && s1.output.Keys == s.output.Keys - Reported(s, events)
  {
    if events == [] {
      assert Reported(s, []) == {};
    } else {
      var k := |events| - 1;
      ForgetsReported(s, events[..k]);
      assert events == events[..k] + [events[k]];
      OneReported(s, events[k]);
      MoreReported(s, s, events[..k], events[k]);
    }
  }

  /** What a call does to the counters: those of n are given, the executed ones of other networks stay. */
  ghost predicate Counts(s: Store, s': Store, n: Network, created: nat, executed: nat) {
    && s'.readTask.Keys == s.readTask.Keys
    && CreatedCount(s', n) == created && ExecutedCount(s', n) == executed
    && (forall k :: k != n ==> CreatedCount(s', k) == CreatedCount(s, k) && ExecutedCount(s', k) == ExecutedCount(s, k))
  }

  lemma ReportsCount(s: Store, s': Store, n: Network, reported: set<TaskId>)
    requires Reports(s, s', n, reported)
    ensures Counts(s, s', n, CreatedCount(s, n), ExecutedCount(s, n) + |Finishes(s, reported)|)
  {
    hide Finishes, ExecutedCount;
  }

  lemma SubmittedReports(s: Store, n: Network, events: seq<GmpEvent>)
    ensures Counts(s, SubmitGmpEvents(s, n, events), n, CreatedCount(s, n), ExecutedCount(s, n) + |Held(s, events)|)
  {
    hide ProcessEvents, Forget;
    var s1 := Forget(s, events);
    ForgetsReported(s, events);
    EventsReport(s1, n, events);
    ReportsCount(s1, SubmitGmpEvents(s, n, events), n, Reported(s1, events));
    hide Reports;
    assert Reported(s1, events) == Reported(s, events);
    assert Finishes(s1, Reported(s1, events)) == Held(s, events);
  }

  // ------------------------------------------------------- what batching and scheduling count

  ghost predicate SameCounts(s: Store, s': Store) {
    s'.taskCount == s.taskCount && s'.executed == s.executed
  }

  lemma AssignCounts(s: Store, sh: Shard, t: TaskId)
    ensures SameCounts(s, AssignTask(s, sh, t))
  {}

  lemma {:induction false} ShardCounts(s: Store, n: Network, sh: Shard, capacity: nat)
    ensures SameCounts(s, ScheduleShard(s, n, sh, capacity).0)
    decreases capacity
  {
    hide AssignTask;
    if capacity != 0 && QueueOf(s, n) != [] {
      var t := QueueOf(s, n)[0];
      var s1 := s.(queue := s.queue[n := QueueOf(s, n)[1..]]);
      AssignCounts(s1, sh, t);
      ShardCounts(AssignTask(s1, sh, t), n, sh, capacity - 1);
    }
  }

  lemma {:induction false} FillCounts(s: Store, env: Env, n: Network, shards: seq<Shard>, each: nat, placed: nat)
    ensures SameCounts(s, FillShards(s, env, n, shards, each, placed).s)
    decreases |shards|
  {
    hide ScheduleShard;
    if shards != [] {
      var capacity := Minus(each, CountOf(s, shards[0]));
      ShardCounts(s, n, shards[0], capacity);
      ShardCounts(s, n, shards[0], Minus(env.maxTasks, placed));
      var (s1, k) := ScheduleShard(s, n, shards[0], capacity);
      FillCounts(s1, env, n, shards[1..], each, placed + k);
    }
  }

  lemma {:induction false} ReaderCounts(s: Store, env: Env, n: Network, shards: seq<Shard>, placed: nat)
    ensures SameCounts(s, ScheduleReader(s, env, n, shards, placed).s)
    decreases |shards|
  {
    hide AssignTask, CountOf;
    if n in s.readTask && s.readTask[n] !in s.taskShard && shards != [] {
      AssignCounts(s, shards[0], s.readTask[n]);
      ReaderCounts(s, env, n, shards[1..], placed);
    }
  }

  lemma NetworkCounts(s: Store, env: Env, n: Network, placed: nat)
    requires ScheduleNetwork(s, env, n, placed).Some?
    ensures SameCounts(s, ScheduleNetwork(s, env, n, placed).value.s)
  {
    hide FillShards, ScheduleReader, Registered, TasksPerShard;
    ReaderCounts(s, env, n, env.Shards(n), placed);
    var p := ScheduleReader(s, env, n, env.Shards(n), placed);
    var shards := Registered(p.s, env, env.Shards(n));
    if !p.stopped && shards != [] {
      var each := TasksPerShard(CreatedCount(p.s, n), ExecutedCount(p.s, n), |shards|, env.Limit(n));
      FillCounts(p.s, env, n, shards, each.value, p.placed);
    }
  }

  /** Preparing batches executes nothing, and never lowers the number of tasks created. */
  ghost predicate OnlyCreates(s: Store, s': Store) {
    s'.executed == s.executed && forall k :: CreatedCount(s', k) >= CreatedCount(s, k)
  }

  lemma {:induction false} StartCounts(s: Store, n: Network, batches: seq<seq<Op>>)
    ensures OnlyCreates(s, StartBatches(s, n, batches))
  {
    if batches != [] {
      var k := |batches| - 1;
      StartCounts(s, n, batches[..k]);
      StartCount(StartBatches(s, n, batches[..k]), n, batches[k]);
      hide StartBatch, CreatedCount;
    }
  }

  lemma StartCount(s: Store, n: Network, ops: seq<Op>)
    ensures OnlyCreates(s, StartBatch(s, n, ops))
  {}

  lemma {:induction false} PrepareCounts(s: Store, env: Env, networks: seq<Network>)
    ensures OnlyCreates(s, PrepareBatches(s, env, networks).0)
  {
    hide Batches, StartBatches;
    if networks != [] {
      var k := |networks| - 1;
      PrepareCounts(s, env, networks[..k]);
      var (s1, started) := PrepareBatches(s, env, networks[..k]);
      var (batches, rest) := Batches(OpsOf(s1, networks[k]), [], env.Gas(networks[k]), started, env.Cap());
      var s2 := s1.(ops := s1.ops[networks[k] := rest]);
      StartCounts(s2, networks[k], batches);
      assert forall m :: CreatedCount(s2, m) == CreatedCount(s1, m);
    }
  }

  // ------------------------------------------------------------- exactly when it underflows

  /** The scheduler gets to the subtraction for the network: it has room, and a registered shard to fill. */
  ghost predicate Divides(s: Store, env: Env, n: Network, placed: nat) {
    var p := ScheduleReader(s, env, n, env.Shards(n), placed);
    !p.stopped && Registered(p.s, env, env.Shards(n)) != []
  }

  lemma UnderflowsExactly(s: Store, env: Env, n: Network, placed: nat)
    requires CreatedCount(s, n) - ExecutedCount(s, n) < U32
    ensures ScheduleNetwork(s, env, n, placed).None?
            <==> Divides(s, env, n, placed) && CreatedCount(s, n) <= ExecutedCount(s, n)
  {
    hide FillShards, Registered;
    ReaderCounts(s, env, n, env.Shards(n), placed);
    if CreatedCount(s, n) >= ExecutedCount(s, n) {
      SmallMod(CreatedCount(s, n) - ExecutedCount(s, n), U32);
    }
  }

  /** The scheduler comes to network n without returning early, and gets to its subtraction. */
  ghost predicate Reaches(s: Store, env: Env, networks: seq<Network>, placed: nat, n: Network)
    decreases |networks|
  {
    && networks != []
    && if networks[0] == n then Divides(s, env, n, placed)
       else
         var p := ScheduleNetwork(s, env, networks[0], placed);
         p.Some? && !p.value.stopped && Reaches(p.value.s, env, networks[1..], p.value.placed, n)
  }

  lemma {:induction false} NotListed(s: Store, env: Env, networks: seq<Network>, placed: nat, n: Network)
    requires n !in networks
    ensures !Reaches(s, env, networks, placed, n)
    decreases |networks|
  {
    hide ScheduleNetwork;
    if networks != [] {
      var p := ScheduleNetwork(s, env, networks[0], placed);
      if p.Some? {
        NotListed(p.value.s, env, networks[1..], p.value.placed, n);
      }
    }
  }

  /** The listed networks other than n have unexecuted tasks. */
  ghost predicate OthersBusy(s: Store, networks: seq<Network>, n: Network) {
    forall k :: k in networks && k != n ==> CreatedCount(s, k) > ExecutedCount(s, k)
  }

  lemma CountsStay(s: Store, s': Store, networks: seq<Network>, n: Network)
    requires networks != [] && SameCounts(s, s') && NoDuplicates(networks) && Narrow(s, networks)
             && OthersBusy(s, networks, n)
    ensures NoDuplicates(networks[1..]) && Narrow(s', networks[1..]) && OthersBusy(s', networks[1..], n)
    ensures networks[0] !in networks[1..]
    ensures CreatedCount(s', n) == CreatedCount(s, n) && ExecutedCount(s', n) == ExecutedCount(s, n)
  {
    SplitNoDuplicates(networks, 1);
    hide NoDuplicates;
    assert networks[0] in networks[..1];
    assert forall k :: CreatedCount(s', k) == CreatedCount(s, k) && ExecutedCount(s', k) == ExecutedCount(s, k);
  }

  /** Over all networks, in any order: only n can underflow, and it does exactly when it is reached. */
  lemma {:induction false} ScheduleUnderflowsExactly(s: Store, env: Env, networks: seq<Network>, placed: nat,
                                                     n: Network)
    requires NoDuplicates(networks) && Narrow(s, networks) && OthersBusy(s, networks, n)
    ensures ScheduleTasks(s, env, networks, placed).None?
            <==> Reaches(s, env, networks, placed, n) && CreatedCount(s, n) <= ExecutedCount(s, n)
    decreases |networks|
  {
    hide ScheduleNetwork, Divides, CreatedCount, ExecutedCount, NoDuplicates;
    if networks != [] {
      UnderflowsExactly(s, env, networks[0], placed);
      var r := ScheduleNetwork(s, env, networks[0], placed);
      if r.Some? && !r.value.stopped {
        NetworkCounts(s, env, networks[0], placed);
        CountsStay(s, r.value.s, networks, n);
        ScheduleUnderflowsExactly(r.value.s, env, networks[1..], r.value.placed, n);
        if networks[0] == n {
          NotListed(r.value.s, env, networks[1..], r.value.placed, n);
        }
      }
    }
  }

  /** After a call that counts so much, the block that prepares batches and schedules underflows exactly then. */
  lemma CountsUnderflowExactly(s: Store, s': Store, n: Network, created: nat, executed: nat, env: Env,
                               networks: seq<Network>, placed: nat)
    requires Counts(s, s', n, created, executed) && NoDuplicates(networks) && OthersBusy(s, networks, n)
    requires Narrow(PrepareBatches(s', env, networks).0, networks)
    ensures var s1 := PrepareBatches(s', env, networks).0;
            ScheduleTasks(s1, env, networks, placed).None?
            <==> Reaches(s1, env, networks, placed, n) && CreatedCount(s1, n) <= executed
  {
    hide PrepareBatches, ScheduleTasks, Reaches, NoDuplicates, Narrow;
    var s1 := PrepareBatches(s', env, networks).0;
    PrepareCounts(s', env, networks);
    forall k | k in networks && k != n ensures CreatedCount(s1, k) > ExecutedCount(s1, k) {
      assert CreatedCount(s', k) > ExecutedCount(s', k) == ExecutedCount(s1, k);
    }
    ScheduleUnderflowsExactly(s1, env, networks, placed, n);
  }

  /**
    Reports submitted by hand: the next block, which prepares batches and then schedules the networks in any
    order, underflows exactly when the scheduler reaches the subtraction for the reporting network and the
    reported tasks that shards hold are at least as many as the unexecuted tasks of that network.
   */
  lemma ReportsUnderflowExactly(s: Store, n: Network, events: seq<GmpEvent>, env: Env, networks: seq<Network>,
                                placed: nat)
    requires NoDuplicates(networks) && OthersBusy(s, networks, n)
    requires Narrow(PrepareBatches(SubmitGmpEvents(s, n, events), env, networks).0, networks)
    ensures var s1 := PrepareBatches(SubmitGmpEvents(s, n, events), env, networks).0;
            ScheduleTasks(s1, env, networks, placed).None?
            <==> Reaches(s1, env, networks, placed, n) && |Held(s, events)| >= CreatedCount(s1, n) - ExecutedCount(s, n)
  {
    hide SubmitGmpEvents, PrepareBatches, ScheduleTasks, Reaches, Held, Narrow, OthersBusy, NoDuplicates, Counts;
    SubmittedReports(s, n, events);
    CountsUnderflowExactly(s, SubmitGmpEvents(s, n, events), n, CreatedCount(s, n),
                           ExecutedCount(s, n) + |Held(s, events)|, env, networks, placed);
  }

  /** How many readers the result of a reader makes: the next one, unless the network was stopped. */
  ghost function NextReaders(s: Store, n: Network): (r: nat) {
    if n in s.readTask then 1 else 0
  }

  lemma AdvanceFrame(s: Store, n: Network, start: nat, end: nat)
    requires SizeOf(s, n) > 0
    ensures var s1 := Advance(s, n, start, end);
            && s1.batchTask == s.batchTask && s1.taskShard == s.taskShard && s1.output == s.output
            && s1.executed == s.executed && s1.readTask.Keys == s.readTask.Keys
  {
    hide CreateTask, RangeEnd, QueueOf, CreatedCount;
    var s1 := s.(sync := if SyncOf(s, n) == start then s.sync[n := end] else s.sync);
    CreateCreates(s1, n, ReadEvents(SyncOf(s1, n), RangeEnd(s1, n)));
    assert n in s.readTask ==> s.readTask[n := s.lastTask + 1].Keys == s.readTask.Keys;
  }

  lemma AdvanceCounts(s: Store, n: Network, start: nat, end: nat)
    requires SizeOf(s, n) > 0
    ensures Counts(s, Advance(s, n, start, end), n, CreatedCount(s, n) + NextReaders(s, n), ExecutedCount(s, n))
  {
    AdvanceFrame(s, n, start, end);
    hide CreateTask, RangeEnd;
    var s1 := s.(sync := if SyncOf(s, n) == start then s.sync[n := end] else s.sync);
    CreateCreates(s1, n, ReadEvents(SyncOf(s1, n), RangeEnd(s1, n)));
    var s' := Advance(s, n, start, end);
    forall k ensures CreatedCount(s1, k) == CreatedCount(s, k) && ExecutedCount(s', k) == ExecutedCount(s, k) {}
  }

  lemma CountsTrans(s: Store, s1: Store, s2: Store, n: Network, a: nat, b: nat, c: nat, d: nat)
    requires Counts(s, s1, n, a, b) && Counts(s1, s2, n, c, d)
    ensures Counts(s, s2, n, c, d)
  {
    hide CreatedCount, ExecutedCount;
  }

  /** Whether a result with these events finishes its reader. */
  ghost function Done(events: seq<GmpEvent>): (d: nat) {
    if |events| == MAX_GMP_EVENTS then 0 else 1
  }

  lemma ReaderReports(s: Store, s1: Store, n: Network, t: TaskId, reported: set<TaskId>)
    requires Reports(s, s1, n, reported) && t !in reported && t in s.taskShard && t !in s.output
    ensures Counts(s, FinishTask(s1, n, t, true), n, CreatedCount(s, n),
                   ExecutedCount(s, n) + |Finishes(s, reported)| + 1)
  {
    hide FinishTask, CreatedCount, ExecutedCount;
    FinishReports(s1, n, t);
    assert Finishes(s1, {t}) == {t};
    ReportsCount(s, s1, n, reported);
    ReportsCount(s1, FinishTask(s1, n, t, true), n, {t});
  }

  lemma ReaderNotReported(s: Store, t: TaskId, events: seq<GmpEvent>)
    requires Batched(s) && t in s.tasks && s.tasks[t].ReadEvents?
    ensures t !in Reported(s, events)
  {}

  lemma SameReported(s: Store, s1: Store, events: seq<GmpEvent>)
    requires s1.batchTask == s.batchTask && s1.taskShard == s.taskShard && s1.output == s.output
    ensures Reported(s1, events) == Reported(s, events)
    ensures Finishes(s1, Reported(s1, events)) == Finishes(s, Reported(s, events))
  {}

  lemma PageReports(s: Store, s1: Store, n: Network, t: TaskId, events: seq<GmpEvent>)
    requires Batched(s) && t in s.tasks && s.tasks[t].ReadEvents? && t !in s.output && t in s.taskShard
    requires s1.batchTask == s.batchTask && s1.taskShard == s.taskShard && s1.output == s.output
    ensures var s2 := ProcessEvents(s1, n, events);
            Counts(s1, if |events| == MAX_GMP_EVENTS then s2 else FinishTask(s2, n, t, true), n, CreatedCount(s1, n),
                   ExecutedCount(s1, n) + |Finishes(s, Reported(s, events))| + Done(events))
  {
    hide ProcessEvents, FinishTask, CreatedCount, ExecutedCount, Counts, Finishes, Reported, Reports, Batched;
    var s2 := ProcessEvents(s1, n, events);
    var reported := Reported(s1, events);
    SameReported(s, s1, events);
    ReaderNotReported(s, t, events);
    EventsReport(s1, n, events);
    ReportsCount(s1, s2, n, reported);
    ReaderReports(s1, s2, n, t, reported);
  }

  /** A reader's result counts the reader too, unless it read a full page of events, and makes the next reader. */
  lemma ReadReports(home: Home, s: Store, t: TaskId, events: seq<GmpEvent>)
    requires Sized(s) && Batched(s) && t in s.tasks && s.tasks[t].ReadEvents? && t !in s.output && t in s.taskShard
    ensures var n := home(s.taskShard[t]);
            var r := SubmitTaskResult(s, home, t, EventsRead(events, true));
            && r.Some?
            && Counts(s, r.value, n, CreatedCount(s, n) + NextReaders(s, n),
                   ExecutedCount(s, n) + |Finishes(s, Reported(s, events))| + Done(events))
  {
    hide Advance, ProcessEvents, FinishTask, CreatedCount, ExecutedCount, Finishes, Reported;
    var n := home(s.taskShard[t]);
    var s1 := Advance(s, n, s.tasks[t].start, s.tasks[t].end);
    AdvanceFrame(s, n, s.tasks[t].start, s.tasks[t].end);
    AdvanceCounts(s, n, s.tasks[t].start, s.tasks[t].end);
    assert CreatedCount(s1, n) == CreatedCount(s, n) + NextReaders(s, n) && ExecutedCount(s1, n) == ExecutedCount(s, n);
    hide Counts;
    PageReports(s, s1, n, t, events);
    var s' := SubmitTaskResult(s, home, t, EventsRead(events, true)).value;
    CountsTrans(s, s1, s', n, CreatedCount(s, n) + NextReaders(s, n), ExecutedCount(s, n),
                CreatedCount(s, n) + NextReaders(s, n),
                ExecutedCount(s, n) + |Finishes(s, Reported(s, events))| + Done(events));
  }

  /** The same for reports that a reader's result brings. */
  lemma ReadUnderflowsExactly(home: Home, s: Store, t: TaskId, events: seq<GmpEvent>, env: Env, networks: seq<Network>,
                              placed: nat)
    requires Sized(s) && Batched(s) && t in s.tasks && s.tasks[t].ReadEvents? && t !in s.output && t in s.taskShard
    requires NoDuplicates(networks) && OthersBusy(s, networks, home(s.taskShard[t]))
    requires var s' := SubmitTaskResult(s, home, t, EventsRead(events, true)).value;
             Narrow(PrepareBatches(s', env, networks).0, networks)
    ensures var s' := SubmitTaskResult(s, home, t, EventsRead(events, true)).value;
            var n := home(s.taskShard[t]);
            var s1 := PrepareBatches(s', env, networks).0;
            ScheduleTasks(s1, env, networks, placed).None?
            <==> Reaches(s1, env, networks, placed, n)
                 && |Finishes(s, Reported(s, events))| + Done(events) >= CreatedCount(s1, n) - ExecutedCount(s, n)
  {
    hide SubmitTaskResult, PrepareBatches, ScheduleTasks, Reaches, Finishes, Reported, Batched, Sized, Narrow;
    hide OthersBusy, NoDuplicates, Counts, CreatedCount, ExecutedCount;
    ReadReports(home, s, t, events);
    var n := home(s.taskShard[t]);
    var s' := SubmitTaskResult(s, home, t, EventsRead(events, true)).value;
    CountsUnderflowExactly(s, s', n, CreatedCount(s, n) + NextReaders(s, n),
                           ExecutedCount(s, n) + |Finishes(s, Reported(s, events))| + Done(events), env, networks,
                           placed);
  }

  /** Reports under their own network always leave the reader unexecuted. */
  lemma OwnReportsLeaveReader(home: Home, h: History, s: Store, n: Network, events: seq<GmpEvent>)
    requires Good(home, h, s) && n in s.readTask && OwnNetworks(s, n, events)
    ensures |Held(s, events)| < CreatedCount(s, n) - ExecutedCount(s, n)
  {
    hide Good, CreatedCount, ExecutedCount, QueueOf;
    var reader := s.readTask[n];
    forall t | t in Held(s, events) ensures t in PlacedOn(home, s, n) && t != reader {
      var e :| e in events && e.BatchExecuted? && e.batch in s.batchTask && s.batchTask[e.batch] == t;
      assert OwnNetwork(s, n, e);
      BatchTaskFacts(home, h, s, e.batch);
      PlacedTask(home, h, s, t);
    }
    ReaderSomewhere(home, h, s, n);
    Accounting(home, h, s, n);
    SubsetSize(Held(s, events) + {reader}, PlacedOn(home, s, n) + IdleReader(s, n));
    assert |PlacedOn(home, s, n) + IdleReader(s, n)| <= |PlacedOn(home, s, n)| + |IdleReader(s, n)|;
  }

  // ------------------------------------------------------------------- in reachable states

  lemma OthersAreBusy(home: Home, h: History, s: Store, networks: seq<Network>, n: Network)
    requires Good(home, h, s) && forall k :: k in networks ==> k in s.readTask
    ensures OthersBusy(s, networks, n)
  {
    hide Good, CreatedCount, ExecutedCount;
    forall k | k in networks && k != n ensures CreatedCount(s, k) > ExecutedCount(s, k) {
      Accounting(home, h, s, k);
    }
  }

  lemma ListedAreRead(s: Store, env: Env)
    requires Lists(s, env)
    ensures NoDuplicates(env.networks) && Narrow(PrepareBatches(s, env, env.networks).0, env.networks)
    ensures forall k :: k in env.networks <==> k in s.readTask
  {
    hide PrepareBatches, Narrow, NoDuplicates;
    assert forall k :: k in env.networks <==> k in Elements(env.networks);
  }

  /** Whatever is reported in a reachable state, and in whatever order storage lists the networks. */
  lemma ReachableReports(home: Home, es: seq<Event>, n: Network, events: seq<GmpEvent>, env: Env)
    requires Run(home, Genesis(), es) && After(home, Genesis(), es).Some?
    requires Lists(SubmitGmpEvents(After(home, Genesis(), es).value, n, events), env)
    ensures var s := After(home, Genesis(), es).value;
            var s' := SubmitGmpEvents(s, n, events);
            var s1 := PrepareBatches(s', env, env.networks).0;
            Initialize(s', env).None?
            <==> Reaches(s1, env, env.networks, 0, n) && |Held(s, events)| >= CreatedCount(s1, n) - ExecutedCount(s, n)
  {
    hide Run, After, Good, Sited, Sized, SubmitGmpEvents, PrepareBatches, ScheduleTasks, Reaches, Held, Lists;
    hide Narrow, OthersBusy, NoDuplicates, CreatedCount, ExecutedCount;
    var s := After(home, Genesis(), es).value;
    GenesisInv(home);
    var h := RunKeeps(home, History(map[], {}), Genesis(), es);
    SubmittedReports(s, n, events);
    ListedAreRead(SubmitGmpEvents(s, n, events), env);
    OthersAreBusy(home, h, s, env.networks, n);
    ReportsUnderflowExactly(s, n, events, env, env.networks, 0);
  }

  lemma BatchedStore(home: Home, h: History, s: Store)
    requires Good(home, h, s)
    ensures Batched(s)
  {}

  /** The same for the genuine result of a reader. */
  lemma ReachableReads(home: Home, es: seq<Event>, t: TaskId, events: seq<GmpEvent>, env: Env)
    requires Run(home, Genesis(), es) && After(home, Genesis(), es).Some? && Sized(After(home, Genesis(), es).value)
    requires var s := After(home, Genesis(), es).value;
             && t in s.tasks && s.tasks[t].ReadEvents? && t !in s.output && t in s.taskShard
             && Lists(SubmitTaskResult(s, home, t, EventsRead(events, true)).value, env)
    ensures var s := After(home, Genesis(), es).value;
            var n := home(s.taskShard[t]);
            var s' := SubmitTaskResult(s, home, t, EventsRead(events, true)).value;
            var s1 := PrepareBatches(s', env, env.networks).0;
            Initialize(s', env).None?
            <==> Reaches(s1, env, env.networks, 0, n)
                 && |Finishes(s, Reported(s, events))| + Done(events) >= CreatedCount(s1, n) - ExecutedCount(s, n)
  {
    hide Run, After, Good, Sited, PrepareBatches, ScheduleTasks, Reaches, Finishes, Reported, Lists;
    hide Narrow, OthersBusy, NoDuplicates, CreatedCount, ExecutedCount, ProcessEvents, Advance, FinishTask, Batched;
    var s := After(home, Genesis(), es).value;
    GenesisInv(home);
    var h := RunKeeps(home, History(map[], {}), Genesis(), es);
    BatchedStore(home, h, s);
    ReadReports(home, s, t, events);
    ListedAreRead(SubmitTaskResult(s, home, t, EventsRead(events, true)).value, env);
    OthersAreBusy(home, h, s, env.networks, home(s.taskShard[t]));
    ReadUnderflowsExactly(home, s, t, events, env, env.networks, 0);
  }
}
