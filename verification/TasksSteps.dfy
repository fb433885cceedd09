/** Every call of the tasks pallet keeps its invariant. */
module TasksSteps {
  import opened Options
  import opened Sequences
  import opened TasksSpec
  import opened TasksInvariant

  // --------------------------------------------------------------------- gmp events

  /** Executed batches are reported under the network of their own task. */
  ghost predicate OwnNetwork(s: Store, n: Network, e: GmpEvent) {
    e.BatchExecuted? && e.batch in s.batchTask && s.batchTask[e.batch] in s.taskNetwork ==>
      s.taskNetwork[s.batchTask[e.batch]] == n
  }

  ghost predicate OwnNetworks(s: Store, n: Network, events: seq<GmpEvent>) {
    forall e :: e in events ==> OwnNetwork(s, n, e)
  }

  /** What processing events leaves alone. */
  ghost predicate SameTasks(s: Store, s': Store) {
    && s'.tasks == s.tasks && s'.taskNetwork == s.taskNetwork && s'.readTask == s.readTask
    && s'.batchTask == s.batchTask
    && s'.lastTask == s.lastTask && s'.sync == s.sync && s'.batchSize == s.batchSize && s'.batchOffset == s.batchOffset
    && s'.networkShards == s.networkShards
  }

  lemma EventSame(s: Store, n: Network, e: GmpEvent)
    ensures SameTasks(s, ProcessEvent(s, n, e))
  {
    hide FinishTask;
    if e.BatchExecuted? {
      var s1 := s.(pending := s.pending - {e.batch});
      if e.batch in s.batchTask {
        FinishSame(s1, n, s.batchTask[e.batch], true);
      }
    }
  }

  lemma FinishSame(s: Store, n: Network, t: TaskId, ok: bool)
    ensures SameTasks(s, FinishTask(s, n, t, ok))
  {
    hide SameTasks, Unplaces;
    if t in s.output {
      SameItself(s);
    } else if t in s.taskShard {
      FinishUnplaces(s, n, t, ok);
      UnplacesSame(s, n, t, ok, FinishTask(s, n, t, ok));
    } else {
      OutcomeSame(s, t, ok);
    }
  }

  lemma UnplacesSame(s: Store, n: Network, t: TaskId, ok: bool, s': Store)
    requires t in s.taskShard && Unplaces(s, n, t, ok, s')
    ensures SameTasks(s, s')
  {
    hide TasksOf, CountOf, ExecutedCount;
  }

  lemma OutcomeSame(s: Store, t: TaskId, ok: bool)
    ensures SameTasks(s, s.(output := s.output[t := ok]))
  {}

  lemma BatchTaskFacts(home: Home, h: History, s: Store, b: BatchId)
    requires Good(home, h, s) && b in s.batchTask
    ensures var t := s.batchTask[b]; t in h.net && t in s.taskNetwork && s.taskNetwork[t] == h.net[t] && NotReader(s, t)
  {
    hide Counters, Links, Queues, Ids;
    var t := s.batchTask[b];
    forall k | k in s.readTask ensures s.readTask[k] != t {
      assert ReaderOk(h, s, k, s.readTask[k]);
    }
  }

  lemma UnpendKeeps(home: Home, h: History, s: Store, b: BatchId)
    requires Good(home, h, s)
    ensures Good(home, h, s.(pending := s.pending - {b}))
  {
    hide Good;
    var s' := s.(pending := s.pending - {b});
    BatchedOf(home, h, s);
    assert Batched(s');
    hide Batched;
    BooksFrame(home, h, s, s');
  }

  lemma BatchedOf(home: Home, h: History, s: Store)
    requires Good(home, h, s)
    ensures Batched(s)
  {}

  lemma EventKeeps(home: Home, h: History, s: Store, n: Network, e: GmpEvent) returns (h': History)
    requires Good(home, h, s) && OwnNetwork(s, n, e)
    ensures Good(home, h', ProcessEvent(s, n, e)) && h'.net == h.net && Extends(h, h', EventTally(s, n, e))
  {
    hide Good, FinishTask, Extends;
    h' := h;
    ExtendsItself(h);
    match e
    case BatchExecuted(b) =>
      var s1 := s.(pending := s.pending - {b});
      UnpendKeeps(home, h, s, b);
      if b in s.batchTask {
        BatchTaskFacts(home, h, s1, b);
        FinishKeeps(home, h, s1, n, s.batchTask[b], true);
        FinishExtends(home, h, s1, n, s.batchTask[b]);
        h' := Counted(h, s1, s.batchTask[b]);
      }
    case _ => ElsewhereKeeps(home, h, s, ProcessEvent(s, n, e));
  }

  lemma FinishExtends(home: Home, h: History, s: Store, n: Network, t: TaskId)
    requires Good(home, h, s) && t in h.net && (t in s.taskShard ==> h.net[t] == n)
    ensures Extends(h, Counted(h, s, t), FinishTally(s, n, t))
  {
    hide Counters, Links, Queues, Infos, Batched, Readers, Placed, Extends;
    CountedExtends(home, h, s, n, t);
  }

  lemma SameTrans(a: Store, b: Store, c: Store)
    requires SameTasks(a, b) && SameTasks(b, c)
    ensures SameTasks(a, c)
  {}

  lemma SameOwn(s: Store, s': Store, n: Network, e: GmpEvent)
    requires SameTasks(s, s') && OwnNetwork(s, n, e)
    ensures OwnNetwork(s', n, e)
  {}

  lemma {:induction false} EventsKeep(home: Home, h: History, s: Store, n: Network, events: seq<GmpEvent>)
      returns (h': History)
    requires Good(home, h, s) && OwnNetworks(s, n, events)
    ensures Good(home, h', ProcessEvents(s, n, events)) && h'.net == h.net && SameTasks(s, ProcessEvents(s, n, events))
    ensures Extends(h, h', EventsTally(s, n, events))
  {
    hide Good, OwnNetwork, ProcessEvent, SameTasks, Extends, EventTally;
    if events == [] {
      h' := h;
      ExtendsItself(h);
      SameItself(s);
    } else {
      var k := |events| - 1;
      var h1 := EventsKeep(home, h, s, n, events[..k]);
      var s1 := ProcessEvents(s, n, events[..k]);
      SameOwn(s, s1, n, events[k]);
      h' := EventKeeps(home, h1, s1, n, events[k]);
      ExtendsTrans(h, h1, h', EventsTally(s, n, events[..k]), EventTally(s1, n, events[k]));
      EventSame(s1, n, events[k]);
      SameTrans(s, s1, ProcessEvents(s, n, events));
    }
  }

  lemma SameItself(s: Store)
    ensures SameTasks(s, s)
  {}

  // ------------------------------------------------------------------- task results

  lemma AdvanceKeeps(home: Home, h: History, s: Store, n: Network, start: nat, end: nat) returns (h': History)
    requires Good(home, h, s) && SizeOf(s, n) > 0
    ensures Good(home, h', Advance(s, n, start, end)) && Extends(h, h', [])
  {
    hide Good, CreateTask, Extends;
    var s1 := s.(sync := if SyncOf(s, n) == start then s.sync[n := end] else s.sync);
    ElsewhereKeeps(home, h, s, s1);
    h' := h;
    ExtendsItself(h);
    if n in s.readTask {
      h' := Recorded(h, s1.lastTask + 1, n);
      CreateKeeps(home, h, s1, n, ReadEvents(SyncOf(s1, n), RangeEnd(s1, n)));
      FreshIds(home, h, s1);
      RecordedExtends(h, s1.lastTask + 1, n);
    }
  }

  /** What the result of a reader counts. */
  ghost function ReadTally(s: Store, n: Network, t: TaskId, start: nat, end: nat, events: seq<GmpEvent>): (r: Tally)
    requires SizeOf(s, n) > 0
  {
    var s1 := Advance(s, n, start, end);
    EventsTally(s1, n, events) + if |events| == MAX_GMP_EVENTS then []
        else FinishTally(ProcessEvents(s1, n, events), n, t)
  }

  lemma FreshIds(home: Home, h: History, s: Store)
    requires Good(home, h, s)
    ensures s.lastTask + 1 !in h.net
  {
    FreshId(h, s.lastTask);
  }

  lemma AdvanceParts(s: Store, n: Network, start: nat, end: nat)
    requires SizeOf(s, n) > 0
    ensures var s' := Advance(s, n, start, end);
            && s'.taskShard == s.taskShard && s'.batchTask == s.batchTask && s'.output == s.output
            && s'.networkShards == s.networkShards
            && s'.readTask == (if n in s.readTask then s.readTask[n := s.lastTask + 1] else s.readTask)
            && s'.taskNetwork == (if n in s.readTask then s.taskNetwork[s.lastTask + 1 := n] else s.taskNetwork)
  {
    hide CreateTask, RangeEnd;
    var s1 := s.(sync := if SyncOf(s, n) == start then s.sync[n := end] else s.sync);
    CreateCreates(s1, n, ReadEvents(SyncOf(s1, n), RangeEnd(s1, n)));
  }

  lemma AdvanceReader(home: Home, h: History, s: Store, n: Network, start: nat, end: nat, t: TaskId)
    requires Good(home, h, s) && SizeOf(s, n) > 0 && t in s.taskShard && home(s.taskShard[t]) == n
    ensures var s' := Advance(s, n, start, end);
            NotReader(s', t) && s'.taskShard == s.taskShard && s'.batchTask == s.batchTask && s'.output == s.output
  {
    hide Counters, Links, Queues, Infos, Batched, Advance;
    AdvanceParts(s, n, start, end);
    assert t in h.net && h.net[t] == n;
    var s' := Advance(s, n, start, end);
    forall k | k in s'.readTask ensures s'.readTask[k] != t {
      if k in s.readTask {
        assert ReaderOk(h, s, k, s.readTask[k]);
      }
    }
  }

  /** Creating a task changes neither the shard of any task nor the network of an old one. */
  lemma AdvanceOwn(home: Home, h: History, s: Store, n: Network, start: nat, end: nat, events: seq<GmpEvent>)
    requires Good(home, h, s) && SizeOf(s, n) > 0 && OwnNetworks(s, n, events)
    ensures OwnNetworks(Advance(s, n, start, end), n, events)
  {
    hide Good, Advance;
    AdvanceParts(s, n, start, end);
    var s' := Advance(s, n, start, end);
    forall e | e in events ensures OwnNetwork(s', n, e) {
      assert OwnNetwork(s, n, e);
      if e.BatchExecuted? && e.batch in s.batchTask {
        BatchTaskFacts(home, h, s, e.batch);
      }
    }
  }

  lemma ReadKeeps(home: Home, h: History, s: Store, t: TaskId, events: seq<GmpEvent>) returns (h': History)
    requires Good(home, h, s) && Sized(s) && t in s.tasks && t !in s.output && t in s.taskShard
             && s.tasks[t].ReadEvents?
    requires OwnNetworks(s, home(s.taskShard[t]), events)
    ensures Good(home, h', SubmitTaskResult(s, home, t, EventsRead(events, true)).value)
    ensures Extends(h, h', ReadTally(s, home(s.taskShard[t]), t, s.tasks[t].start, s.tasks[t].end, events))
  {
    hide Good, OwnNetworks, Advance, ProcessEvents, FinishTask, Extends, EventsTally, FinishTally;
    var n := home(s.taskShard[t]);
    var start, end := s.tasks[t].start, s.tasks[t].end;
    PlacedTask(home, h, s, t);
    AdvanceReader(home, h, s, n, start, end, t);
    AdvanceOwn(home, h, s, n, start, end, events);
    var h1 := AdvanceKeeps(home, h, s, n, start, end);
    var s1 := Advance(s, n, start, end);
    var h2 := EventsKeep(home, h1, s1, n, events);
    var s2 := ProcessEvents(s1, n, events);
    h' := h2;
    StillThere(h, h1, t);
    ExtendsTrans(h, h1, h2, [], EventsTally(s1, n, events));
    assert EventsTally(s1, n, events) == EventsTally(s1, n, events) + [];
    if |events| != MAX_GMP_EVENTS {
      assert NotReader(s2, t);
      FinishKeeps(home, h2, s2, n, t, true);
      FinishExtends(home, h2, s2, n, t);
      h' := Counted(h2, s2, t);
      ExtendsTrans(h, h2, h', EventsTally(s1, n, events), FinishTally(s2, n, t));
    }
  }

  lemma StillThere(h: History, h': History, t: TaskId)
    requires Extends(h, h', []) && t in h.net
    ensures t in h'.net && h'.net[t] == h.net[t]
  {}

  lemma PlacedTask(home: Home, h: History, s: Store, t: TaskId)
    requires Good(home, h, s) && t in s.taskShard
    ensures t in h.net && h.net[t] == home(s.taskShard[t])
  {
    hide Counters, Links, Queues, Infos, Batched, Readers;
  }

  lemma BatchIsNotReader(home: Home, h: History, s: Store, t: TaskId)
    requires Good(home, h, s) && t in s.tasks && s.tasks[t].SubmitBatch?
    ensures NotReader(s, t) && s.tasks[t].batch < s.nextBatch
  {
    hide Counters, Links, Queues, Infos, Placed;
    forall k | k in s.readTask ensures s.readTask[k] != t {
      assert ReaderOk(h, s, k, s.readTask[k]);
    }
  }

  lemma FailBooks(home: Home, h: History, s: Store, b: BatchId)
    requires Good(home, h, s) && b < s.nextBatch
    ensures Good(home, h, s.(pending := s.pending - {b}, failed := s.failed + {b}))
  {
    hide Good;
    var s' := s.(pending := s.pending - {b}, failed := s.failed + {b});
    BatchedOf(home, h, s);
    assert Batched(s');
    hide Batched;
    BooksFrame(home, h, s, s');
  }

  lemma FailKeeps(home: Home, h: History, s: Store, t: TaskId) returns (h': History)
    requires Good(home, h, s) && t in s.tasks && t !in s.output && t in s.taskShard && s.tasks[t].SubmitBatch?
             && Sized(s)
    ensures Good(home, h', SubmitTaskResult(s, home, t, BatchFailed(true)).value)
    ensures Extends(h, h', FinishTally(s, home(s.taskShard[t]), t))
  {
    hide Good, FinishTask, Extends;
    var b := s.tasks[t].batch;
    var s1 := s.(pending := s.pending - {b}, failed := s.failed + {b});
    BatchIsNotReader(home, h, s, t);
    FailBooks(home, h, s, b);
    PlacedTask(home, h, s, t);
    FinishKeeps(home, h, s1, home(s.taskShard[t]), t, false);
    FinishExtends(home, h, s1, home(s.taskShard[t]), t);
    h' := Counted(h, s1, t);
  }

  // ------------------------------------------------------------------------- admin

  lemma {:induction false} ForgetSame(s: Store, events: seq<GmpEvent>)
    ensures SameTasks(s, Forget(s, events))
    ensures var s' := Forget(s, events);
            && s' == s.(failed := s'.failed, output := s'.output)
            && s'.failed <= s.failed && s'.output.Keys <= s.output.Keys
  {
    if events != [] {
      ForgetSame(s, events[..|events| - 1]);
    }
  }

  lemma GmpEventsKeep(home: Home, h: History, s: Store, n: Network, events: seq<GmpEvent>) returns (h': History)
    requires Good(home, h, s) && OwnNetworks(s, n, events)
    ensures Good(home, h', SubmitGmpEvents(s, n, events)) && Extends(h, h', EventsTally(Forget(s, events), n, events))
  {
    hide Good, Forget, ProcessEvents, OwnNetwork, SameTasks;
    var s1 := Forget(s, events);
    ForgetSame(s, events);
    BatchedOf(home, h, s);
    BooksFrame(home, h, s, s1);
    forall e | e in events ensures OwnNetwork(s1, n, e) {
      SameOwn(s, s1, n, e);
    }
    h' := EventsKeep(home, h, s1, n, events);
  }

  lemma StopKeeps(home: Home, h: History, s: Store, n: Network)
    requires Good(home, h, s)
    ensures Good(home, h, StopNetwork(s, n))
  {
    hide Good;
    BatchedOf(home, h, s);
    BooksFrame(home, h, s, StopNetwork(s, n));
  }

  lemma RemoveReaders(h: History, s: Store, t: TaskId)
    requires Readers(h, s) && t in s.output
    ensures Readers(h, RemoveTask(s, t).value)
  {
    var s' := RemoveTask(s, t).value;
    forall k | k in s'.readTask ensures ReaderOk(h, s', k, s'.readTask[k]) {
      assert ReaderOk(h, s, k, s.readTask[k]);
    }
  }

  lemma RemoveBatched(s: Store, t: TaskId)
    requires Batched(s) && t in s.output
    ensures Batched(RemoveTask(s, t).value)
  {}

  lemma RemoveKeeps(home: Home, h: History, s: Store, t: TaskId)
    requires Good(home, h, s) && t in s.output
    ensures Good(home, h, RemoveTask(s, t).value)
  {
    var s' := RemoveTask(s, t).value;
    hide Readers, Links, Queues, Counters, Batched, Ids;
    RemoveReaders(h, s, t);
    RemoveBatched(s, t);
    LinksFrame(s, s');
    QueuesFrame(h, s, s');
    CountersFrame(h, s, s');
  }

  lemma RestartBatched(home: Home, h: History, s: Store, s1: Store, s': Store, b: BatchId)
    requires Good(home, h, s1) && s1.lastTask in s1.tasks && s1.tasks[s1.lastTask] == SubmitBatch(b) && b < s1.nextBatch
    requires s' == s1.(batchTask := s1.batchTask[b := s1.lastTask], pending := s1.pending + {b},
                       failed := s1.failed - {b})
    ensures Good(home, h, s')
  {
    BatchedOf(home, h, s1);
    assert Batched(s');
    hide Good, Batched;
    BooksFrame(home, h, s1, s');
  }

  lemma RestartKeeps(home: Home, h: History, s: Store, b: BatchId) returns (h': History)
    requires Good(home, h, s) && RestartBatch(s, b).Some?
    ensures Good(home, h', RestartBatch(s, b).value) && Extends(h, h', [])
  {
    hide Good, CreateTask;
    BatchedOf(home, h, s);
    var n := s.taskNetwork[s.batchTask[b]];
    var s1 := CreateTask(s, n, SubmitBatch(b));
    CreateCreates(s, n, SubmitBatch(b));
    CreateKeeps(home, h, s, n, SubmitBatch(b));
    h' := Recorded(h, s.lastTask + 1, n);
    FreshIds(home, h, s);
    RecordedExtends(h, s.lastTask + 1, n);
    RestartBatched(home, h', s, s1, RestartBatch(s, b).value, b);
  }

  lemma NextBatchBooks(home: Home, h: History, s: Store, ops: seq<Op>)
    requires Good(home, h, s)
    ensures Batched(s.(nextBatch := s.nextBatch + 1, batchOps := s.batchOps[s.nextBatch := ops]))
            && s.nextBatch !in s.failed
  {
    BatchedOf(home, h, s);
    hide Good;
  }

  lemma StartKeeps(home: Home, h: History, s: Store, n: Network, ops: seq<Op>) returns (h': History)
    requires Good(home, h, s)
    ensures Good(home, h', StartBatch(s, n, ops)) && Extends(h, h', [])
  {
    hide Good, CreateTask, Batched, Extends;
    var b := s.nextBatch;
    var s0 := s.(nextBatch := b + 1, batchOps := s.batchOps[b := ops]);
    NextBatchBooks(home, h, s, ops);
    BooksFrame(home, h, s, s0);
    var s1 := CreateTask(s0, n, SubmitBatch(b));
    CreateCreates(s0, n, SubmitBatch(b));
    CreateKeeps(home, h, s0, n, SubmitBatch(b));
    h' := Recorded(h, s0.lastTask + 1, n);
    FreshIds(home, h, s0);
    RecordedExtends(h, s0.lastTask + 1, n);
    assert s1.failed - {b} == s1.failed;
    RestartBatched(home, h', s0, s1, StartBatch(s, n, ops), b);
  }

  // --------------------------------------------------------------- shards going offline

  /** `drained` lists the tasks of the shard. */
  ghost predicate Drains(s: Store, sh: Shard, drained: seq<TaskId>) {
    NoDuplicates(drained) && Elements(drained) == TasksOf(s, sh)
  }

  lemma OfflineTasks(s: Store, n: Network, sh: Shard, drained: seq<TaskId>, key: Option<Key>, x: Shard)
    ensures var s' := ShardOffline(s, n, sh, drained, key);
            TasksOf(s', x) == (if x == sh then {} else TasksOf(s, x))
                && CountOf(s', x) == (if x == sh then 0 else CountOf(s, x))
  {
    hide Without, Elements;
  }

  lemma OfflineLinks(s: Store, n: Network, sh: Shard, drained: seq<TaskId>, key: Option<Key>)
    requires Links(s) && Drains(s, sh, drained)
    ensures Links(ShardOffline(s, n, sh, drained, key))
  {
    hide NoDuplicates, Elements, TasksOf, CountOf, Without;
    var s' := ShardOffline(s, n, sh, drained, key);
    assert s'.taskShard == s.taskShard - TasksOf(s, sh);
    hide ShardOffline;
    forall x ensures TasksOf(s', x) == (if x == sh then {} else TasksOf(s, x)) && CountOf(s', x) == |TasksOf(s', x)| {
      OfflineTasks(s, n, sh, drained, key, x);
      assert CountOf(s, x) == |TasksOf(s, x)|;
    }
    forall t | t in s'.taskShard ensures t in TasksOf(s', s'.taskShard[t]) {
      assert t in TasksOf(s, s.taskShard[t]);
    }
    forall x, t | t in TasksOf(s', x) ensures t in s'.taskShard && s'.taskShard[t] == x {
      OfflineTasks(s, n, sh, drained, key, x);
      assert t in TasksOf(s, x) && x != sh;
      assert s.taskShard[t] == x && t !in TasksOf(s, sh);
    }
  }

  lemma DrainedWait(home: Home, h: History, s: Store, n: Network, sh: Shard, drained: seq<TaskId>, t: TaskId)
    requires Links(s) && Placed(home, h, s.taskShard) && Drains(s, sh, drained) && home(sh) == n && t in drained
    ensures t in s.taskShard && Waits(h, n, s.taskShard - Elements(drained), t)
  {
    assert t in Elements(drained);
    assert t in TasksOf(s, sh);
  }

  lemma OfflineQueue(home: Home, h: History, s: Store, n: Network, sh: Shard, drained: seq<TaskId>)
    requires Links(s) && Placed(home, h, s.taskShard) && Queues(h, s) && Drains(s, sh, drained) && home(sh) == n
    ensures QueueOk(h, n, s.taskShard - Elements(drained), QueueOf(s, n) + Without(drained, Reader(s, n)))
  {
    hide Links, Placed, Elements, Without, NoDuplicates;
    var q, more := QueueOf(s, n), Without(drained, Reader(s, n));
    assert QueueOk(h, n, s.taskShard, q);
    WithoutKeeps(drained, Reader(s, n));
    forall t | t in drained ensures t in s.taskShard && Waits(h, n, s.taskShard - Elements(drained), t) {
      DrainedWait(home, h, s, n, sh, drained, t);
    }
    assert forall t :: t in more ==> t !in q;
    AppendNoDuplicates(q, more);
  }

  lemma OfflineQueues(home: Home, h: History, s: Store, n: Network, sh: Shard, drained: seq<TaskId>, key: Option<Key>)
    requires Links(s) && Placed(home, h, s.taskShard) && Queues(h, s) && Drains(s, sh, drained) && home(sh) == n
    ensures Queues(h, ShardOffline(s, n, sh, drained, key))
  {
    hide Links, Placed, NoDuplicates, Without, Elements;
    var s' := ShardOffline(s, n, sh, drained, key);
    OfflineQueue(home, h, s, n, sh, drained);
    forall k ensures QueueOk(h, k, s'.taskShard, QueueOf(s', k)) {
      assert QueueOk(h, k, s.taskShard, QueueOf(s, k));
    }
  }

  lemma OfflineReaders(h: History, s: Store, n: Network, sh: Shard, drained: seq<TaskId>, key: Option<Key>)
    requires Readers(h, s)
    ensures Readers(h, ShardOffline(s, n, sh, drained, key))
  {
    hide Without, Elements;
    var s' := ShardOffline(s, n, sh, drained, key);
    WithoutKeeps(drained, Reader(s, n));
    forall k | k in s'.readTask ensures ReaderOk(h, s', k, s'.readTask[k]) {
      assert ReaderOk(h, s, k, s.readTask[k]);
    }
  }

  lemma OfflineRest(home: Home, h: History, s: Store, n: Network, sh: Shard, drained: seq<TaskId>, key: Option<Key>)
    requires Placed(home, h, s.taskShard) && Infos(h, s) && Batched(s)
    ensures var s' := ShardOffline(s, n, sh, drained, key); Placed(home, h, s'.taskShard) && Infos(h, s') && Batched(s')
  {
    hide Without, Elements;
  }

  lemma OfflineKeeps(home: Home, h: History, s: Store, n: Network, sh: Shard, drained: seq<TaskId>, key: Option<Key>)
    requires Good(home, h, s) && Drains(s, sh, drained) && home(sh) == n
    ensures Good(home, h, ShardOffline(s, n, sh, drained, key))
  {
    hide Ids, Counters, Links, Placed, Queues, Readers, Infos, Batched, Drains, Without, Elements;
    OfflineLinks(s, n, sh, drained, key);
    OfflineQueues(home, h, s, n, sh, drained, key);
    OfflineReaders(h, s, n, sh, drained, key);
    OfflineRest(home, h, s, n, sh, drained, key);
    CountersFrame(h, s, ShardOffline(s, n, sh, drained, key));
  }

  // ------------------------------------------------------------------------ batches

  lemma {:induction false} StartAllKeep(home: Home, h: History, s: Store, n: Network, batches: seq<seq<Op>>)
      returns (h': History)
    requires Good(home, h, s)
    ensures Good(home, h', StartBatches(s, n, batches)) && Extends(h, h', [])
  {
    hide Good, StartBatch, Extends;
    h' := h;
    ExtendsItself(h);
    if batches != [] {
      var k := |batches| - 1;
      var h1 := StartAllKeep(home, h, s, n, batches[..k]);
      h' := StartKeeps(home, h1, StartBatches(s, n, batches[..k]), n, batches[k]);
      ExtendsTrans(h, h1, h', [], []);
    }
  }

  /** What starting batches leaves alone. */
  ghost predicate SameSites(s: Store, s': Store) {
    && s'.readTask == s.readTask && s'.networkShards == s.networkShards && s'.sync == s.sync
    && s'.batchSize == s.batchSize && s'.batchOffset == s.batchOffset
  }

  lemma {:induction false} StartAllSites(s: Store, n: Network, batches: seq<seq<Op>>)
    ensures SameSites(s, StartBatches(s, n, batches))
  {
    if batches != [] {
      StartAllSites(s, n, batches[..|batches| - 1]);
    }
  }

  lemma {:induction false} PrepareKeeps(home: Home, h: History, s: Store, env: Env, networks: seq<Network>)
      returns (h': History)
    requires Good(home, h, s)
    ensures Good(home, h', PrepareBatches(s, env, networks).0) && Extends(h, h', [])
            && SameSites(s, PrepareBatches(s, env, networks).0)
  {
    hide Good, Batches, StartBatches, Extends;
    h' := h;
    ExtendsItself(h);
    if networks != [] {
      var k := |networks| - 1;
      var h1 := PrepareKeeps(home, h, s, env, networks[..k]);
      var (s1, started) := PrepareBatches(s, env, networks[..k]);
      var (batches, rest) := Batches(OpsOf(s1, networks[k]), [], env.Gas(networks[k]), started, env.Cap());
      var s2 := s1.(ops := s1.ops[networks[k] := rest]);
      ElsewhereKeeps(home, h1, s1, s2);
      h' := StartAllKeep(home, h1, s2, networks[k], batches);
      ExtendsTrans(h, h1, h', [], []);
      StartAllSites(s2, networks[k], batches);
    }
  }
}
