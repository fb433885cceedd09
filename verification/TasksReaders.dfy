/** Stopping a network for good, and moving its sync height by hand. */
module TasksReaders {
  import opened TasksSpec
  import opened TasksInvariant
  import opened TasksSteps
  import opened TasksRuns
  import opened TasksTiling

  /** Network n is not read, and every reader it has was there before. */
  ghost predicate Silent(s: Store, s': Store, n: Network) {
    n !in s'.readTask && forall t :: ReadsOn(s', n, t) ==> ReadsOn(s, n, t) && s'.tasks[t] == s.tasks[t]
  }

  lemma UntouchedSilent(s: Store, s': Store, n: Network)
    requires Untouched(s, s', n) && n !in s.readTask
    ensures Silent(s, s', n)
  {
    hide ReadsOn;
  }

  lemma SilentTrans(a: Store, b: Store, c: Store, n: Network)
    requires Silent(a, b, n) && Silent(b, c, n)
    ensures Silent(a, c, n)
  {
    hide ReadsOn;
  }

  lemma AdvanceSilent(s: Store, n: Network, start: nat, end: nat, s': Store)
    requires SizeOf(s, n) > 0 && n !in s.readTask && SameTasks(Advance(s, n, start, end), s')
    ensures Silent(s, s', n)
  {
    hide Advance, NextBatchSize;
    AdvanceReads(s, n, start, end);
    assert forall t :: ReadsOn(s', n, t) <==> ReadsOn(Advance(s, n, start, end), n, t);
  }

  lemma OtherSilent(s: Store, k: Network, start: nat, end: nat, s': Store, n: Network)
    requires SizeOf(s, k) > 0 && k != n && n !in s.readTask && SameTasks(Advance(s, k, start, end), s')
    ensures Silent(s, s', n)
  {
    hide Advance, SameTasks, Untouched, Silent;
    AdvanceOther(s, k, start, end, n);
    SameTasksUntouched(Advance(s, k, start, end), s', n);
    UntouchedTrans(s, Advance(s, k, start, end), s', n);
    UntouchedSilent(s, s', n);
  }

  lemma SilentItself(s: Store, n: Network)
    requires n !in s.readTask
    ensures Silent(s, s, n)
  {}

  lemma ResultSilent(home: Home, h: History, s: Store, e: Event, n: Network)
    requires Inv(home, h, s) && Enabled(home, s, e) && e.TaskResultSubmitted? && n !in s.readTask
    ensures Silent(s, Next(home, s, e).value, n)
  {
    hide Good, OwnNetworks, Sited, Advance, ProcessEvents, FinishTask, Silent, SameTasks, Untouched;
    var t, result := e.task, e.result;
    var r := SubmitTaskResult(s, home, t, result);
    if r.Some? && t !in s.output && s.tasks[t].ReadEvents? {
      var k := home(s.taskShard[t]);
      assert result == EventsRead(result.events, true) && SizeOf(s, k) > 0;
      ReadSame(home, h, s, t, result.events);
      if k == n {
        AdvanceSilent(s, n, s.tasks[t].start, s.tasks[t].end, r.value);
      } else {
        OtherSilent(s, k, s.tasks[t].start, s.tasks[t].end, r.value, n);
      }
    } else if r.Some? && t !in s.output {
      assert result == BatchFailed(true);
      FailUntouched(home, h, s, t, n);
      UntouchedSilent(s, r.value, n);
    } else {
      SilentItself(s, n);
    }
  }

  predicate Restarts(e: Event, n: Network) {
    e.GatewayAdded? && e.network == n
  }

  /** Only a new gateway makes a network read again. */
  lemma StepSilent(home: Home, h: History, s: Store, e: Event, n: Network)
    requires Inv(home, h, s) && Enabled(home, s, e) && Next(home, s, e).Some? && n !in s.readTask && !Restarts(e, n)
    ensures Silent(s, Next(home, s, e).value, n)
  {
    hide Good, Sited, Untouched, SubmitGmpEvents, GatewayRegistered, Initialize, Lists, OwnNetworks, Drains;
    hide SubmitTaskResult, ShardOffline, ShardOnline, RemoveTask, RestartBatch;
    if e.TaskResultSubmitted? {
      hide Silent;
      ResultSilent(home, h, s, e, n);
    } else if !((e.NetworkSynced? || e.Configured?) && e.network == n) {
      hide Silent;
      match e {
        case GmpEventsSubmitted(k, events) => GmpUntouched(home, h, s, k, events, n);
        case BatchRestarted(b) => RestartUntouched(s, b, n);
        case GatewayAdded(k, block) => GatewayUntouched(s, k, block, n);
        case BlockInitialized(env) => InitializeUntouched(home, h, s, env, n);
        case _ => SmallUntouched(home, s, e, n);
      }
      UntouchedSilent(s, Next(home, s, e).value, n);
    }
  }

  lemma {:induction false} RunSilent(home: Home, h: History, s: Store, es: seq<Event>, n: Network)
    requires Inv(home, h, s) && Run(home, s, es) && After(home, s, es).Some? && n !in s.readTask
    requires forall e :: e in es ==> !Restarts(e, n)
    ensures Silent(s, After(home, s, es).value, n)
    decreases |es|
  {
    hide Inv, Next, Enabled, Extends, StepTally, Restarts;
    if es == [] {
      SilentItself(s, n);
    } else {
      var h1 := StepKeeps(home, h, s, es[0]);
      var s1 := Next(home, s, es[0]).value;
      StepSilent(home, h, s, es[0], n);
      RunSilent(home, h1, s1, es[1..], n);
      SilentTrans(s, s1, After(home, s, es).value, n);
    }
  }

  /** Once a network is stopped no further reader is ever created for it, until a gateway is registered again. */
  lemma StoppedReadsNoMore(home: Home, h: History, s: Store, es: seq<Event>, n: Network)
    requires Inv(home, h, s) && Run(home, StopNetwork(s, n), es)
    requires forall e :: e in es ==> !Restarts(e, n)
    ensures After(home, StopNetwork(s, n), es).Some? && Silent(s, After(home, StopNetwork(s, n), es).value, n)
  {
    var s1 := StopNetwork(s, n);
    assert Silent(s, s1, n);
    hide Silent, Good, Sited, Sized, Run, After, Restarts, Extends;
    var h1 := AdminKeeps(home, h, s, NetworkStopped(n));
    var h2 := RunKeeps(home, h1, s1, es);
    RunSilent(home, h1, s1, es, n);
    SilentTrans(s, s1, After(home, s1, es).value, n);
  }

  // --------------------------------------------------------------------- syncing by hand

  ghost predicate NextReader(s: Store, n: Network, from: nat, s': Store) {
    && SizeOf(s, n) > 0 && n in s'.readTask && SyncOf(s', n) == from
    && var t := s'.readTask[n];
       && t > s.lastTask && t in s'.tasks && t in s'.taskNetwork && s'.taskNetwork[t] == n
       && s'.tasks[t] == ReadEvents(from, from + NextBatchSize(SizeOf(s, n), OffsetOf(s, n), from))
  }

  lemma AdvanceStarts(s: Store, n: Network, start: nat, end: nat)
    requires SizeOf(s, n) > 0 && n in s.readTask
    ensures NextReader(s, n, if SyncOf(s, n) == start then end else SyncOf(s, n), Advance(s, n, start, end))
  {
    hide CreateTask, NextBatchSize, QueueOf, CreatedCount;
    var s1 := s.(sync := if SyncOf(s, n) == start then s.sync[n := end] else s.sync);
    CreateCreates(s1, n, ReadEvents(SyncOf(s1, n), RangeEnd(s1, n)));
  }

  lemma NextReaderFrame(s: Store, n: Network, from: nat, s1: Store, s2: Store)
    requires NextReader(s, n, from, s1) && SameTasks(s1, s2)
    ensures NextReader(s, n, from, s2)
  {
    hide NextBatchSize;
  }

  ghost predicate HasReader(home: Home, s: Store, n: Network, t: TaskId) {
    && n in s.readTask && t in s.tasks && s.tasks[t].ReadEvents? && t !in s.output
    && t in s.taskShard && home(s.taskShard[t]) == n
  }

  /** A reader's result makes reading go on at the end of its range, or at the sync height if that has moved. */
  lemma ResultStarts(home: Home, h: History, s: Store, n: Network, t: TaskId, events: seq<GmpEvent>)
    requires Inv(home, h, s) && HasReader(home, s, n, t) && OwnNetworks(s, n, events)
    ensures var r := SubmitTaskResult(s, home, t, EventsRead(events, true));
            && r.Some?
            && NextReader(s, n, if SyncOf(s, n) == s.tasks[t].start then s.tasks[t].end else SyncOf(s, n), r.value)
  {
    hide Good, Sited, SubmitTaskResult, Advance, OwnNetworks, SameTasks, NextReader;
    assert SizeOf(s, n) > 0;
    var start, end := s.tasks[t].start, s.tasks[t].end;
    ReadSame(home, h, s, t, events);
    AdvanceStarts(s, n, start, end);
    NextReaderFrame(s, n, if SyncOf(s, n) == start then end else SyncOf(s, n), Advance(s, n, start, end),
                    SubmitTaskResult(s, home, t, EventsRead(events, true)).value);
  }

  lemma SyncedFields(home: Home, s: Store, n: Network, block: nat, t: TaskId, events: seq<GmpEvent>)
    requires HasReader(home, s, n, t) && OwnNetworks(s, n, events)
    ensures var s1 := SyncNetwork(s, n, block);
            && SyncOf(s1, n) == block && s1.tasks == s.tasks && HasReader(home, s1, n, t) && OwnNetworks(s1, n, events)
            && forall from, s2 :: NextReader(s1, n, from, s2) ==> NextReader(s, n, from, s2)
  {
    hide NextBatchSize;
  }

  /**
    After the sync height of a network is set to `block`, the next result of one of its readers makes reading go
    on at `block`, unless that reader itself began there.
   */
  lemma SyncRedirects(home: Home, h: History, s: Store, n: Network, block: nat, t: TaskId, events: seq<GmpEvent>)
    requires Inv(home, h, s) && HasReader(home, s, n, t) && OwnNetworks(s, n, events)
    ensures var s1 := SyncNetwork(s, n, block);
            && Sized(s1)
            && var r := SubmitTaskResult(s1, home, t, EventsRead(events, true));
               r.Some? && NextReader(s, n, if block == s.tasks[t].start then s.tasks[t].end else block, r.value)
  {
    hide Good, Sited, Sized, SyncNetwork, SubmitTaskResult, OwnNetworks, NextReader, Extends;
    var s1 := SyncNetwork(s, n, block);
    SyncedFields(home, s, n, block, t, events);
    var h1 := AdminKeeps(home, h, s, NetworkSynced(n, block));
    ResultStarts(home, h1, s1, n, t, events);
  }
}
