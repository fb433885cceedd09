/** Outcomes of tasks and the books of pending and failed batches agree. */
module TasksOutcomes {
  import opened TasksSpec
  import opened TasksInvariant
  import opened TasksSteps
  import opened TasksSchedule
  import opened TasksRuns

  /** The task of a batch is there to submit that batch. */
  ghost predicate Owned(s: Store) {
    forall b :: b in s.batchTask ==> s.batchTask[b] in s.tasks && s.tasks[s.batchTask[b]] == SubmitBatch(b)
  }

  /** Once the task of a batch has an outcome the batch is not pending, and failed if the outcome is. */
  ghost predicate BatchSettled(s: Store, b: BatchId) {
    b in s.batchTask && s.batchTask[b] in s.output ==> b !in s.pending && (!s.output[s.batchTask[b]] ==> b in s.failed)
  }

  /** Readers never fail. */
  ghost predicate ReaderSettled(s: Store, t: TaskId) {
    t in s.output && t in s.tasks && s.tasks[t].ReadEvents? ==> s.output[t]
  }

  ghost predicate Outcomes(s: Store) {
    (forall b :: BatchSettled(s, b)) && (forall t :: ReaderSettled(s, t))
  }

  lemma OwnedOf(home: Home, h: History, s: Store)
    requires Good(home, h, s)
    ensures Owned(s)
  {}

  lemma OwnedFrame(s: Store, s': Store)
    requires Owned(s) && s'.tasks == s.tasks && s'.batchTask == s.batchTask
    ensures Owned(s')
  {}

  lemma OutcomesFrame(s: Store, s': Store)
    requires Outcomes(s) && s'.tasks == s.tasks && s'.output == s.output && s'.batchTask == s.batchTask
    requires s'.pending <= s.pending && s.failed <= s'.failed
    ensures Outcomes(s')
  {
    forall b ensures BatchSettled(s', b) {
      assert BatchSettled(s, b);
    }
    forall t ensures ReaderSettled(s', t) {
      assert ReaderSettled(s, t);
    }
  }

  // ------------------------------------------------------------------------- finishing

  /** Giving a task its outcome, when the books of its batch are already right. */
  lemma OutcomeSettles(s: Store, s': Store, t: TaskId, ok: bool)
    requires Outcomes(s) && Owned(s) && s'.tasks == s.tasks && s'.batchTask == s.batchTask
    requires s'.output == s.output[t := ok] && s'.pending == s.pending && s'.failed == s.failed
    requires t in s.tasks
    requires s.tasks[t].SubmitBatch? ==> s.tasks[t].batch !in s.pending && (!ok ==> s.tasks[t].batch in s.failed)
    requires s.tasks[t].ReadEvents? ==> ok
    ensures Outcomes(s')
  {
    forall b ensures BatchSettled(s', b) {
      assert BatchSettled(s, b);
    }
    forall x ensures ReaderSettled(s', x) {
      assert ReaderSettled(s, x);
    }
  }

  /** What finishing does to the books. */
  lemma FinishFields(s: Store, n: Network, t: TaskId, ok: bool)
    ensures var s' := FinishTask(s, n, t, ok);
            && s'.tasks == s.tasks && s'.batchTask == s.batchTask && s'.pending == s.pending && s'.failed == s.failed
            && s'.output == if t in s.output then s.output else s.output[t := ok]
  {
    if t !in s.output && t in s.taskShard {
      hide FinishTask, TasksOf, CountOf, ExecutedCount;
      FinishUnplaces(s, n, t, ok);
    }
  }

  lemma FinishSettles(s: Store, n: Network, t: TaskId, ok: bool)
    requires Outcomes(s) && Owned(s) && t in s.tasks
    requires s.tasks[t].SubmitBatch? ==> s.tasks[t].batch !in s.pending && (!ok ==> s.tasks[t].batch in s.failed)
    requires s.tasks[t].ReadEvents? ==> ok
    ensures Outcomes(FinishTask(s, n, t, ok)) && Owned(FinishTask(s, n, t, ok))
  {
    hide FinishTask, Outcomes;
    FinishFields(s, n, t, ok);
    var s' := FinishTask(s, n, t, ok);
    if t in s.output {
      OutcomesFrame(s, s');
    } else {
      OutcomeSettles(s, s', t, ok);
    }
  }

  lemma EventSettles(s: Store, n: Network, e: GmpEvent)
    requires Outcomes(s) && Owned(s)
    ensures Outcomes(ProcessEvent(s, n, e)) && Owned(ProcessEvent(s, n, e))
  {
    hide FinishTask, Outcomes;
    if e.BatchExecuted? {
      var s1 := s.(pending := s.pending - {e.batch});
      OutcomesFrame(s, s1);
      if e.batch in s.batchTask {
        FinishSettles(s1, n, s.batchTask[e.batch], true);
      }
    } else {
      OutcomesFrame(s, ProcessEvent(s, n, e));
    }
  }

  lemma {:induction false} EventsSettle(s: Store, n: Network, events: seq<GmpEvent>)
    requires Outcomes(s) && Owned(s)
    ensures Outcomes(ProcessEvents(s, n, events)) && Owned(ProcessEvents(s, n, events))
  {
    hide ProcessEvent, Outcomes, Owned;
    if events != [] {
      var k := |events| - 1;
      EventsSettle(s, n, events[..k]);
      EventSettles(ProcessEvents(s, n, events[..k]), n, events[k]);
    }
  }

  lemma {:induction false} ForgetSettles(s: Store, events: seq<GmpEvent>)
    requires Outcomes(s) && Owned(s)
    ensures Outcomes(Forget(s, events)) && Owned(Forget(s, events))
  {
    if events != [] {
      var k := |events| - 1;
      ForgetSettles(s, events[..k]);
      var s1, s' := Forget(s, events[..k]), Forget(s, events);
      forall b ensures BatchSettled(s', b) {
        assert BatchSettled(s1, b);
      }
      forall t ensures ReaderSettled(s', t) {
        assert ReaderSettled(s1, t);
      }
    }
  }

  // -------------------------------------------------------------------------- creating

  lemma CreatesSettles(s: Store, n: Network, task: Task, s': Store)
    requires Outcomes(s) && Owned(s) && Creates(s, n, task, s') && s.lastTask + 1 !in s.output
    requires s.lastTask + 1 !in s.tasks
    ensures Outcomes(s') && Owned(s')
  {
    hide QueueOf, CreatedCount;
    forall b ensures BatchSettled(s', b) {
      assert BatchSettled(s, b);
    }
    forall t ensures ReaderSettled(s', t) {
      assert ReaderSettled(s, t);
    }
  }

  /** The next task number is new. */
  lemma NextIsNew(home: Home, h: History, s: Store)
    requires Good(home, h, s)
    ensures s.lastTask + 1 !in s.output && s.lastTask + 1 !in s.tasks && s.lastTask + 1 !in h.net
  {
    hide Counters, Links, Queues, Readers, Batched, Placed;
    FreshIds(home, h, s);
  }

  lemma CreateSettles(s: Store, n: Network, task: Task)
    requires Outcomes(s) && Owned(s) && s.lastTask + 1 !in s.output && s.lastTask + 1 !in s.tasks
    ensures Outcomes(CreateTask(s, n, task)) && Owned(CreateTask(s, n, task))
    ensures CreateTask(s, n, task).lastTask !in CreateTask(s, n, task).output
  {
    hide CreateTask, Outcomes, Owned;
    CreateCreates(s, n, task);
    CreatesSettles(s, n, task, CreateTask(s, n, task));
    CreatedOutput(s, n, task, CreateTask(s, n, task));
  }

  lemma CreatedOutput(s: Store, n: Network, task: Task, s': Store)
    requires Creates(s, n, task, s')
    ensures s'.output == s.output && s'.lastTask == s.lastTask + 1
  {
    hide QueueOf, CreatedCount;
  }

  /** A batch gets a task without an outcome. */
  lemma HandSettles(s: Store, s': Store, b: BatchId, t: TaskId)
    requires Outcomes(s) && t !in s.output && s'.tasks == s.tasks && s'.output == s.output
    requires s'.batchTask == s.batchTask[b := t] && s'.pending == s.pending + {b} && s.failed - {b} <= s'.failed
    ensures Outcomes(s')
  {
    forall x ensures BatchSettled(s', x) {
      assert BatchSettled(s, x);
    }
    forall x ensures ReaderSettled(s', x) {
      assert ReaderSettled(s, x);
    }
  }

  lemma StartSettles(home: Home, h: History, s: Store, n: Network, ops: seq<Op>)
    requires Good(home, h, s) && Outcomes(s)
    ensures Outcomes(StartBatch(s, n, ops))
  {
    hide Good, Outcomes, CreateTask, Owned;
    OwnedOf(home, h, s);
    NextIsNew(home, h, s);
    OwnedFrame(s, s.(nextBatch := s.nextBatch + 1, batchOps := s.batchOps[s.nextBatch := ops]));
    var b := s.nextBatch;
    var s0 := s.(nextBatch := b + 1, batchOps := s.batchOps[b := ops]);
    var s1 := CreateTask(s0, n, SubmitBatch(b));
    OutcomesFrame(s, s0);
    CreateSettles(s0, n, SubmitBatch(b));
    HandSettles(s1, StartBatch(s, n, ops), b, s1.lastTask);
  }

  lemma {:induction false} StartsSettle(home: Home, h: History, s: Store, n: Network, batches: seq<seq<Op>>)
    requires Good(home, h, s) && Outcomes(s)
    ensures Outcomes(StartBatches(s, n, batches))
  {
    hide Good, Outcomes, StartBatch, Extends;
    if batches != [] {
      var k := |batches| - 1;
      StartsSettle(home, h, s, n, batches[..k]);
      var h1 := StartAllKeep(home, h, s, n, batches[..k]);
      StartSettles(home, h1, StartBatches(s, n, batches[..k]), n, batches[k]);
    }
  }

  lemma {:induction false} PrepareSettles(home: Home, h: History, s: Store, env: Env, networks: seq<Network>)
    requires Good(home, h, s) && Outcomes(s)
    ensures Outcomes(PrepareBatches(s, env, networks).0)
  {
    hide Good, Outcomes, StartBatches, Batches, Extends, SameSites;
    if networks != [] {
      var k := |networks| - 1;
      var n := networks[k];
      PrepareSettles(home, h, s, env, networks[..k]);
      var h1 := PrepareKeeps(home, h, s, env, networks[..k]);
      var (s1, started) := PrepareBatches(s, env, networks[..k]);
      var (batches, rest) := Batches(OpsOf(s1, n), [], env.Gas(n), started, env.Cap());
      var s2 := s1.(ops := s1.ops[n := rest]);
      OutcomesFrame(s1, s2);
      ElsewhereKeeps(home, h1, s1, s2);
      StartsSettle(home, h1, s2, n, batches);
    }
  }

  lemma AdvanceSettles(home: Home, h: History, s: Store, n: Network, start: nat, end: nat)
    requires Good(home, h, s) && Outcomes(s) && SizeOf(s, n) > 0
    ensures Outcomes(Advance(s, n, start, end)) && Owned(Advance(s, n, start, end))
  {
    hide Good, Outcomes, CreateTask, RangeEnd, Owned;
    OwnedOf(home, h, s);
    NextIsNew(home, h, s);
    var s1 := s.(sync := if SyncOf(s, n) == start then s.sync[n := end] else s.sync);
    OwnedFrame(s, s1);
    OutcomesFrame(s, s1);
    CreateSettles(s1, n, ReadEvents(SyncOf(s1, n), RangeEnd(s1, n)));
  }

  lemma AdvanceTasks(s: Store, n: Network, start: nat, end: nat, t: TaskId)
    requires SizeOf(s, n) > 0 && t in s.tasks && t != s.lastTask + 1
    ensures var s1 := Advance(s, n, start, end); t in s1.tasks && s1.tasks[t] == s.tasks[t]
  {
    hide RangeEnd, CreateTask, QueueOf, CreatedCount;
    var s1 := s.(sync := if SyncOf(s, n) == start then s.sync[n := end] else s.sync);
    CreateCreates(s1, n, ReadEvents(SyncOf(s1, n), RangeEnd(s1, n)));
  }

  // ------------------------------------------------------------------------------ calls

  /**
    A result is accepted only for a known task: without effect if it has an outcome, otherwise only if a
    shard holds it, the result is of its kind and the signature or the signer checks out.
   */
  lemma ResultsAreChecked(home: Home, s: Store, t: TaskId, result: TaskResult)
    requires Sized(s)
    ensures var r := SubmitTaskResult(s, home, t, result);
            && (r.Some? <==> t in s.tasks && (t in s.output || Fits(s, t, result)))
            && (r.Some? && !Fits(s, t, result) ==> r.value == s)
  {
    hide Advance, ProcessEvents, FinishTask;
  }

  ghost predicate Fits(s: Store, t: TaskId, result: TaskResult) {
    && t in s.tasks && t !in s.output && t in s.taskShard && result.genuine
    && (s.tasks[t].ReadEvents? <==> result.EventsRead?)
  }

  lemma ResultSettles(home: Home, h: History, s: Store, t: TaskId, result: TaskResult)
    requires Good(home, h, s) && Sized(s) && Outcomes(s)
    ensures Outcomes(Accepted(SubmitTaskResult(s, home, t, result), s))
  {
    hide Good, Outcomes, Advance, ProcessEvents, FinishTask, Owned;
    OwnedOf(home, h, s);
    NextIsNew(home, h, s);
    if SubmitTaskResult(s, home, t, result).Some? && t !in s.output {
      var n := home(s.taskShard[t]);
      if s.tasks[t].ReadEvents? {
        var s1 := Advance(s, n, s.tasks[t].start, s.tasks[t].end);
        AdvanceSettles(home, h, s, n, s.tasks[t].start, s.tasks[t].end);
        AdvanceTasks(s, n, s.tasks[t].start, s.tasks[t].end, t);
        EventsSettle(s1, n, result.events);
        EventsTasks(s1, n, result.events);
        FinishSettles(ProcessEvents(s1, n, result.events), n, t, true);
      } else {
        var b := s.tasks[t].batch;
        var s1 := s.(pending := s.pending - {b}, failed := s.failed + {b});
        OutcomesFrame(s, s1);
        OwnedFrame(s, s1);
        FinishSettles(s1, n, t, false);
      }
    }
  }

  lemma {:induction false} EventsTasks(s: Store, n: Network, events: seq<GmpEvent>)
    ensures ProcessEvents(s, n, events).tasks == s.tasks
  {
    hide ProcessEvent;
    if events != [] {
      var k := |events| - 1;
      EventsTasks(s, n, events[..k]);
      EventSame(ProcessEvents(s, n, events[..k]), n, events[k]);
    }
  }

  lemma RemoveSettles(s: Store, t: TaskId)
    requires Outcomes(s) && Owned(s)
    ensures Outcomes(Accepted(RemoveTask(s, t), s))
  {
    if RemoveTask(s, t).Some? {
      RemovedFields(s, t);
      hide RemoveTask;
      var s' := RemoveTask(s, t).value;
      forall b ensures BatchSettled(s', b) {
        assert BatchSettled(s, b);
      }
      forall x ensures ReaderSettled(s', x) {
        assert ReaderSettled(s, x);
      }
    }
  }

  /** A removed task leaves no trace, and takes its batch along. */
  lemma RemovedFields(s: Store, t: TaskId)
    requires RemoveTask(s, t).Some?
    ensures var s' := RemoveTask(s, t).value;
            && t in s.output && s'.tasks == s.tasks - {t} && s'.output == s.output - {t}
            && s'.taskNetwork == s.taskNetwork - {t} && s'.pending == s.pending && s'.failed == s.failed
            && (forall b :: b in s'.batchTask <==> b in s.batchTask && !(t in s.tasks && s.tasks[t] == SubmitBatch(b)))
            && (forall b :: b in s'.batchTask ==> s'.batchTask[b] == s.batchTask[b])
            && (forall b :: b in s'.batchOps <==> b in s.batchOps && !(t in s.tasks && s.tasks[t] == SubmitBatch(b)))
            && (forall b :: b in s'.batchOps ==> s'.batchOps[b] == s.batchOps[b])
  {}

  /** The batch is pending again, its new task waits at the end of the queue of the old one. */
  ghost predicate Requeues(h: History, s: Store, b: BatchId, s': Store) {
    && b in s.batchTask && s.batchTask[b] in s.taskNetwork && b in s'.batchTask
    && b in s'.pending && b !in s'.failed && s'.batchOps == s.batchOps
    && var n, t := s.taskNetwork[s.batchTask[b]], s'.batchTask[b];
       && t !in h.net && t !in s.tasks && t !in s'.output && t !in s'.taskShard
       && t in s'.tasks && s'.tasks[t] == SubmitBatch(b)
       && t in s'.taskNetwork && s'.taskNetwork[t] == n && QueueOf(s', n) == QueueOf(s, n) + [t]
  }

  /** A restarted batch has a new task without outcome, at the end of the queue its old task belonged to. */
  lemma RestartRequeues(home: Home, h: History, s: Store, b: BatchId)
    requires Good(home, h, s) && RestartBatch(s, b).Some?
    ensures Requeues(h, s, b, RestartBatch(s, b).value)
  {
    hide Good, CreateTask, CreatedCount;
    PlacedOf(home, h, s);
    NextIsNew(home, h, s);
    CreateCreates(s, s.taskNetwork[s.batchTask[b]], SubmitBatch(b));
  }

  lemma PlacedOf(home: Home, h: History, s: Store)
    requires Good(home, h, s)
    ensures forall t :: t in s.taskShard ==> t in h.net
  {
    hide Counters, Links, Queues, Readers, Infos, Batched;
  }

  lemma RestartSettles(home: Home, h: History, s: Store, b: BatchId)
    requires Good(home, h, s) && Outcomes(s)
    ensures Outcomes(Accepted(RestartBatch(s, b), s))
  {
    if RestartBatch(s, b).Some? {
      OwnedOf(home, h, s);
      NextIsNew(home, h, s);
      hide Good, Outcomes, CreateTask;
      var n := s.taskNetwork[s.batchTask[b]];
      CreateSettles(s, n, SubmitBatch(b));
      var s1 := CreateTask(s, n, SubmitBatch(b));
      HandSettles(s1, RestartBatch(s, b).value, b, s1.lastTask);
    }
  }

  // ------------------------------------------------------------------------ whole runs

  lemma BlockSettles(home: Home, h: History, s: Store, env: Env)
    requires Inv(home, h, s) && Lists(s, env) && Outcomes(s) && Initialize(s, env).Some?
    ensures Outcomes(Initialize(s, env).value.s)
  {
    hide Good, Sited, Sized, Outcomes, PrepareBatches, ScheduleTasks, Lists, Extends;
    PrepareSettles(home, h, s, env, env.networks);
    var h' := InitializeKeeps(home, h, s, env);
    var s1, p := PrepareBatches(s, env, env.networks).0, Initialize(s, env).value;
    OnlyThen(home, s1, env, env.networks, p);
    OutcomesFrame(s1, p.s);
  }

  lemma OnlyThen(home: Home, s: Store, env: Env, networks: seq<Network>, p: Progress)
    requires Schedules(home, s, env, networks, 0, p)
    ensures OnlySchedules(s, p.s)
  {
    hide Drained, CountOf, QueueOf, GivenSomewhere;
  }

  lemma GatewaySettles(home: Home, h: History, s: Store, n: Network, block: nat)
    requires Good(home, h, s) && Outcomes(s) && SizeOf(s, n) > 0
    ensures Outcomes(GatewayRegistered(s, n, block))
  {
    hide Good, Outcomes, CreateTask, RangeEnd, Owned;
    var s1 := s.(sync := s.sync[n := block]);
    OwnedOf(home, h, s);
    NextIsNew(home, h, s);
    OwnedFrame(s, s1);
    OutcomesFrame(s, s1);
    assert SizeOf(s1, n) == SizeOf(s, n);
    CreateSettles(s1, n, ReadEvents(SyncOf(s1, n), RangeEnd(s1, n)));
  }

  lemma StepSettles(home: Home, h: History, s: Store, e: Event)
    requires Inv(home, h, s) && Enabled(home, s, e) && Outcomes(s) && Next(home, s, e).Some?
    ensures Outcomes(Next(home, s, e).value)
  {
    hide Good, Sited, Outcomes, SubmitTaskResult, ProcessEvents, Forget, RemoveTask, RestartBatch, GatewayRegistered;
    hide Initialize, Lists, OwnNetworks, Drains, Owned;
    OwnedOf(home, h, s);
    match e
    case TaskResultSubmitted(t, result) => ResultSettles(home, h, s, t, result);
    case GmpEventsSubmitted(n, events) =>
      ForgetSettles(s, events);
      EventsSettle(Forget(s, events), n, events);
    case NetworkSynced(n, block) => OutcomesFrame(s, SyncNetwork(s, n, block));
    case NetworkStopped(n) => OutcomesFrame(s, StopNetwork(s, n));
    case TaskRemoved(t) => RemoveSettles(s, t);
    case BatchRestarted(b) => RestartSettles(home, h, s, b);
    case ShardCameOnline(sh, key) => OutcomesFrame(s, ShardOnline(s, home(sh), sh, key));
    case ShardWentOffline(sh, drained, key) => OutcomesFrame(s, ShardOffline(s, home(sh), sh, drained, key));
    case GatewayAdded(n, block) => GatewaySettles(home, h, s, n, block);
    case Configured(n, size, offset) => OutcomesFrame(s, SetConfig(s, n, size, offset));
    case BlockInitialized(env) => BlockSettles(home, h, s, env);
  }

  lemma {:induction false} RunSettles(home: Home, h: History, s: Store, es: seq<Event>)
    requires Inv(home, h, s) && Run(home, s, es) && Outcomes(s) && After(home, s, es).Some?
    ensures Outcomes(After(home, s, es).value)
    decreases |es|
  {
    hide Inv, Next, Enabled, Outcomes, Extends, StepTally;
    if es != [] {
      var h1 := StepKeeps(home, h, s, es[0]);
      StepSettles(home, h, s, es[0]);
      RunSettles(home, h1, Next(home, s, es[0]).value, es[1..]);
    }
  }

  /** In every reachable state readers never fail, and batches with an outcome are settled as it says. */
  lemma ReachableOutcomes(home: Home, es: seq<Event>)
    requires Run(home, Genesis(), es)
    ensures After(home, Genesis(), es).Some? && Outcomes(After(home, Genesis(), es).value)
  {
    assert Outcomes(Genesis());
    hide Good, Run, After, Sited, Sized, Outcomes;
    GenesisInv(home);
    var h := RunKeeps(home, History(map[], {}), Genesis(), es);
    RunSettles(home, History(map[], {}), Genesis(), es);
  }
}
