/** Over whole runs, the operations queued for a network are the ones batched for it and the ones left. */
module TasksOperations {
  import opened Sequences
  import opened TasksSpec
  import opened TasksInvariant
  import opened TasksSteps
  import opened TasksSchedule
  import opened TasksRuns
  import opened TasksBatches
  import opened TasksEvents

  /** A result of a reader that is accepted and not a repetition. */
  predicate Reads(s: Store, t: TaskId) {
    t in s.tasks && s.tasks[t].ReadEvents? && t !in s.output && t in s.taskShard
  }

  /** The operations an event adds to the queue of network n. */
  function Queued(home: Home, s: Store, e: Event, n: Network): (r: seq<Op>) {
    match e
    case TaskResultSubmitted(t, EventsRead(events, true)) => if Reads(s, t) then MessagesTo(events, n) else []
    case GmpEventsSubmitted(_, events) => MessagesTo(events, n)
    case ShardCameOnline(sh, Some(key)) => if home(sh) == n then [RegisterShard(key)] else []
    case ShardWentOffline(sh, _, Some(key)) => if home(sh) == n then [UnregisterShard(key)] else []
    case _ => []
  }

  /** The operations of the batches started for network n between two states, in batch order. */
  ghost function Batched(s: Store, s': Store, n: Network): (r: seq<Op>) {
    if s.nextBatch <= s'.nextBatch then OpsBetween(s', s.nextBatch, s'.nextBatch, n) else []
  }

  ghost predicate Balances(s: Store, queued: seq<Op>, s': Store, n: Network) {
    OpsOf(s, n) + queued == Batched(s, s', n) + OpsOf(s', n)
  }

  lemma QueuedBalances(s: Store, queued: seq<Op>, s': Store, n: Network)
    requires OpsOf(s', n) == OpsOf(s, n) + queued && s'.nextBatch == s.nextBatch
    ensures Balances(s, queued, s', n)
  {
    assert [] + OpsOf(s', n) == OpsOf(s', n);
  }

  lemma FinishOps(s: Store, n: Network, t: TaskId, ok: bool)
    ensures var s' := FinishTask(s, n, t, ok); s'.ops == s.ops && s'.nextBatch == s.nextBatch
  {
    if t !in s.output && t in s.taskShard {
      hide FinishTask, TasksOf, CountOf, ExecutedCount;
      FinishUnplaces(s, n, t, ok);
    }
  }

  lemma CreateOps(s: Store, n: Network, task: Task)
    ensures var s' := CreateTask(s, n, task); s'.ops == s.ops && s'.nextBatch == s.nextBatch
  {}

  lemma AdvanceOps(s: Store, n: Network, start: nat, end: nat)
    requires SizeOf(s, n) > 0
    ensures var s' := Advance(s, n, start, end); s'.ops == s.ops && s'.nextBatch == s.nextBatch
  {
    hide CreateTask, RangeEnd;
    var s1 := s.(sync := if SyncOf(s, n) == start then s.sync[n := end] else s.sync);
    CreateOps(s1, n, ReadEvents(SyncOf(s1, n), RangeEnd(s1, n)));
  }

  lemma EventsOps(s: Store, n: Network, events: seq<GmpEvent>, m: Network)
    ensures var s' := ProcessEvents(s, n, events);
            OpsOf(s', m) == OpsOf(s, m) + MessagesTo(events, m) && s'.nextBatch == s.nextBatch
  {
    hide ProcessEvents, MessagesTo, OpsOf, RegisteredAfter;
    EventsProcessed(s, n, events);
  }

  lemma ReadOps(home: Home, s: Store, t: TaskId, events: seq<GmpEvent>, n: Network)
    requires Sized(s) && Reads(s, t)
    ensures var r := SubmitTaskResult(s, home, t, EventsRead(events, true));
            && r.Some? && r.value.nextBatch == s.nextBatch
            && OpsOf(r.value, n) == OpsOf(s, n) + MessagesTo(events, n)
  {
    hide ProcessEvents, MessagesTo, Advance, FinishTask;
    var k := home(s.taskShard[t]);
    assert SizeOf(s, k) > 0;
    hide Sized;
    AdvanceOps(s, k, s.tasks[t].start, s.tasks[t].end);
    var s1 := Advance(s, k, s.tasks[t].start, s.tasks[t].end);
    EventsOps(s1, k, events, n);
    FinishOps(ProcessEvents(s1, k, events), k, t, true);
  }

  lemma ResultOps(home: Home, s: Store, t: TaskId, result: TaskResult, n: Network)
    requires Sized(s)
    ensures var s' := Accepted(SubmitTaskResult(s, home, t, result), s);
            && s'.nextBatch == s.nextBatch
            && OpsOf(s', n) == OpsOf(s, n) + Queued(home, s, TaskResultSubmitted(t, result), n)
  {
    hide ProcessEvents, MessagesTo, Advance, FinishTask, Sized;
    if result.EventsRead? && result.genuine && Reads(s, t) {
      ReadOps(home, s, t, result.events, n);
    } else {
      assert Queued(home, s, TaskResultSubmitted(t, result), n) == [];
      var r := SubmitTaskResult(s, home, t, result);
      if r.Some? && t !in s.output {
        var b := s.tasks[t].batch;
        FinishOps(s.(pending := s.pending - {b}, failed := s.failed + {b}), home(s.taskShard[t]), t, false);
      }
    }
  }

  lemma RestartOps(s: Store, b: BatchId)
    ensures var s' := Accepted(RestartBatch(s, b), s); s'.ops == s.ops && s'.nextBatch == s.nextBatch
  {
    hide CreateTask;
    if RestartBatch(s, b).Some? {
      CreateOps(s, s.taskNetwork[s.batchTask[b]], SubmitBatch(b));
    }
  }

  lemma GatewayOps(s: Store, n: Network, block: nat)
    requires SizeOf(s, n) > 0
    ensures var s' := GatewayRegistered(s, n, block); s'.ops == s.ops && s'.nextBatch == s.nextBatch
  {
    hide CreateTask, RangeEnd;
    var s1 := s.(sync := s.sync[n := block]);
    CreateOps(s1, n, ReadEvents(SyncOf(s1, n), RangeEnd(s1, n)));
  }

  lemma BlockBalances(home: Home, h: History, s: Store, env: Env, n: Network)
    requires Inv(home, h, s) && Lists(s, env) && Initialize(s, env).Some?
    ensures Balances(s, [], Initialize(s, env).value.s, n)
  {
    hide Good, Sited, Sized, PrepareBatches, ScheduleTasks, Lists, Extends, OpsBetween, Schedules;
    var s1, p := PrepareBatches(s, env, env.networks).0, Initialize(s, env).value;
    var h' := InitializeKeeps(home, h, s, env);
    PrepareConserves(s, env, env.networks, n);
    SchedulesOps(home, s1, env, env.networks, p);
    OpsSame(s1, p.s, s.nextBatch, s1.nextBatch, n);
    assert OpsOf(s, n) + [] == OpsOf(s, n);
  }

  lemma SchedulesOps(home: Home, s: Store, env: Env, networks: seq<Network>, p: Progress)
    requires Schedules(home, s, env, networks, 0, p)
    ensures OnlySchedules(s, p.s)
  {
    hide Drained, CountOf, QueueOf, GivenSomewhere;
  }

  lemma {:induction false} OpsSame(s: Store, s': Store, lo: BatchId, hi: BatchId, n: Network)
    requires lo <= hi && OnlySchedules(s, s')
    ensures OpsBetween(s', lo, hi, n) == OpsBetween(s, lo, hi, n)
    decreases hi - lo
  {
    if lo < hi {
      OpsSame(s, s', lo, hi - 1, n);
    }
  }

  lemma SmallOps(home: Home, s: Store, e: Event, n: Network)
    requires Sized(s)
    requires e.NetworkSynced? || e.NetworkStopped? || e.TaskRemoved? || e.ShardCameOnline? || e.ShardWentOffline?
             || e.Configured?
    ensures var s' := Next(home, s, e).value;
            s'.nextBatch == s.nextBatch && OpsOf(s', n) == OpsOf(s, n) + Queued(home, s, e, n)
  {
    hide Sized, Elements, Without, ShardsOf;
  }

  /** Every event but a block only adds to the queues; a block moves operations from the queues into batches. */
  lemma StepBalances(home: Home, h: History, s: Store, e: Event, n: Network)
    requires Inv(home, h, s) && Enabled(home, s, e) && Next(home, s, e).Some?
    ensures var s' := Next(home, s, e).value;
            Balances(s, Queued(home, s, e, n), s', n) && (e.BlockInitialized? || s'.nextBatch == s.nextBatch)
  {
    hide Good, Sited, SubmitTaskResult, ProcessEvents, Forget, RestartBatch, GatewayRegistered, Initialize;
    hide Lists, OwnNetworks, Drains, MessagesTo, Reads, ShardOnline, ShardOffline, RemoveTask, Balances;
    var s' := Next(home, s, e).value;
    match e
    case TaskResultSubmitted(t, result) =>
      ResultOps(home, s, t, result, n);
      QueuedBalances(s, Queued(home, s, e, n), s', n);
    case GmpEventsSubmitted(k, events) =>
      ForgetsFailed(s, events);
      EventsOps(Forget(s, events), k, events, n);
      QueuedBalances(s, Queued(home, s, e, n), s', n);
    case BatchRestarted(b) =>
      RestartOps(s, b);
      QueuedBalances(s, [], s', n);
    case GatewayAdded(k, block) =>
      GatewayOps(s, k, block);
      QueuedBalances(s, [], s', n);
    case BlockInitialized(env) => BlockBalances(home, h, s, env, n);
    case _ =>
      SmallOps(home, s, e, n);
      QueuedBalances(s, Queued(home, s, e, n), s', n);
  }

  // ------------------------------------------------------------------------------ runs

  /** All operations queued for network n in a run, in order. */
  ghost function RunQueued(home: Home, s: Store, es: seq<Event>, n: Network): (r: seq<Op>)
    requires Run(home, s, es)
    decreases |es|
  {
    if es == [] || Next(home, s, es[0]).None? then []
    else Queued(home, s, es[0], n) + RunQueued(home, Next(home, s, es[0]).value, es[1..], n)
  }

  /** All operations batched for network n in a run, in order. */
  ghost function RunBatched(home: Home, s: Store, es: seq<Event>, n: Network): (r: seq<Op>)
    requires Run(home, s, es)
    decreases |es|
  {
    if es == [] || Next(home, s, es[0]).None? then []
    else
      var s1 := Next(home, s, es[0]).value;
      Batched(s, s1, n) + RunBatched(home, s1, es[1..], n)
  }

  lemma Chain(ops: seq<Op>, q: seq<Op>, q1: seq<Op>, b: seq<Op>, b1: seq<Op>, ops1: seq<Op>, ops2: seq<Op>)
    requires ops + q == b + ops1 && ops1 + q1 == b1 + ops2
    ensures ops + (q + q1) == (b + b1) + ops2
  {
    assert ops + (q + q1) == ops + q + q1 == b + (ops1 + q1);
    assert b + (b1 + ops2) == (b + b1) + ops2;
  }

  lemma {:induction false} RunBalances(home: Home, h: History, s: Store, es: seq<Event>, n: Network)
    requires Inv(home, h, s) && Run(home, s, es) && After(home, s, es).Some?
    ensures OpsOf(s, n) + RunQueued(home, s, es, n) == RunBatched(home, s, es, n) + OpsOf(After(home, s, es).value, n)
    decreases |es|
  {
    hide Inv, Next, Enabled, Extends, StepTally, Batched, Queued, OpsOf;
    if es == [] {
      assert OpsOf(s, n) + [] == OpsOf(s, n) == [] + OpsOf(s, n);
    } else {
      var h1 := StepKeeps(home, h, s, es[0]);
      var s1 := Next(home, s, es[0]).value;
      StepBalances(home, h, s, es[0], n);
      RunBalances(home, h1, s1, es[1..], n);
      Chain(OpsOf(s, n), Queued(home, s, es[0], n), RunQueued(home, s1, es[1..], n), Batched(s, s1, n),
            RunBatched(home, s1, es[1..], n), OpsOf(s1, n), OpsOf(After(home, s, es).value, n));
    }
  }

  /**
    In every run from genesis, the operations ever queued for a network, in order, are the operations of the
    batches started for it, in order, followed by the ones that still wait.
   */
  lemma OperationsAreConserved(home: Home, es: seq<Event>, n: Network)
    requires Run(home, Genesis(), es)
    ensures var r := After(home, Genesis(), es);
            && r.Some?
            && RunQueued(home, Genesis(), es, n) == RunBatched(home, Genesis(), es, n) + OpsOf(r.value, n)
  {
    assert OpsOf(Genesis(), n) == [];
    hide Good, Run, After, Sized, RunQueued, RunBatched, OpsOf;
    GenesisInv(home);
    var h := RunKeeps(home, History(map[], {}), Genesis(), es);
    RunBalances(home, History(map[], {}), Genesis(), es, n);
    assert [] + RunQueued(home, Genesis(), es, n) == RunQueued(home, Genesis(), es, n);
  }
}
