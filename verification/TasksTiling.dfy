/** The ranges of blocks a network's readers are given tile the chain: no gap, no overlap. */
module TasksTiling {
  import opened Options
  import opened Arithmetic
  import opened Sequences
  import opened TasksSpec
  import opened TasksInvariant
  import opened TasksSteps
  import opened TasksSchedule
  import opened TasksRuns

  /** A batch has between one and `size` blocks and ends where block number plus offset is a multiple of `size`. */
  lemma BatchSizeFacts(size: nat, offset: nat, block: nat)
    requires size > 0
    ensures var r := NextBatchSize(size, offset, block); 1 <= r <= size && (block + r + offset) % size == 0
  {
    var x := block + offset;
    var q := x / size;
    var r := NextBatchSize(size, offset, block);
    assert x == q * size + x % size;
    assert x + r == (q + 1) * size;
    MultipleMod(q + 1, size);
  }

  // ------------------------------------------------------------------------ boundaries

  /** The first range is made before the configuration is stored; all others follow it. */
  ghost predicate Boundaries(bs: seq<nat>, size: nat, offset: nat) {
    && size > 0 && |bs| >= 2 && bs[0] < bs[1]
    && forall i :: 1 <= i < |bs| - 1 ==> bs[i + 1] == bs[i] + NextBatchSize(size, offset, bs[i])
  }

  lemma {:induction false} Increasing(bs: seq<nat>, size: nat, offset: nat, i: nat, j: nat)
    requires Boundaries(bs, size, offset) && i < j < |bs|
    ensures bs[i] < bs[j]
    decreases j
  {
    if j >= 2 {
      BatchSizeFacts(size, offset, bs[j - 1]);
      assert bs[j - 1 + 1] == bs[j - 1] + NextBatchSize(size, offset, bs[j - 1]);
    }
    if i < j - 1 {
      Increasing(bs, size, offset, i, j - 1);
    }
  }

  ghost function Tile(bs: seq<nat>, i: nat): (r: (nat, nat))
    requires i < |bs| - 1
  {
    (bs[i], bs[i + 1])
  }

  ghost function TileSet(bs: seq<nat>): (r: set<(nat, nat)>) {
    set i: nat | i < |bs| - 1 :: Tile(bs, i)
  }

  /** Ranges between boundaries are identical or disjoint. */
  lemma TilesApart(bs: seq<nat>, size: nat, offset: nat, a: (nat, nat), b: (nat, nat))
    requires Boundaries(bs, size, offset) && a in TileSet(bs) && b in TileSet(bs)
    ensures a == b || a.1 <= b.0 || b.1 <= a.0
  {
    var i: nat :| i < |bs| - 1 && a == Tile(bs, i);
    var j: nat :| j < |bs| - 1 && b == Tile(bs, j);
    if i + 1 < j {
      Increasing(bs, size, offset, i + 1, j);
    } else if j + 1 < i {
      Increasing(bs, size, offset, j + 1, i);
    }
  }

  /** Together they cover everything from the first boundary to the last. */
  lemma {:induction false} TilesCover(bs: seq<nat>, block: nat) returns (tile: (nat, nat))
    requires |bs| >= 2 && bs[0] <= block < bs[|bs| - 1]
    ensures tile in TileSet(bs) && tile.0 <= block < tile.1
    decreases |bs|
  {
    var k := |bs| - 2;
    if bs[k] <= block {
      tile := Tile(bs, k);
    } else {
      tile := TilesCover(bs[..k + 1], block);
      assert bs[..k + 1][..|bs[..k + 1]|] == bs[..k + 1];
      AppendedTiles(bs[..k + 1], bs);
    }
  }

  /** Every range but the first has 1 to `size` blocks and an aligned end. */
  lemma TilesAligned(bs: seq<nat>, size: nat, offset: nat, i: nat)
    requires Boundaries(bs, size, offset) && 1 <= i < |bs| - 1
    ensures 1 <= bs[i + 1] - bs[i] <= size && (bs[i + 1] + offset) % size == 0
  {
    BatchSizeFacts(size, offset, bs[i]);
  }

  // --------------------------------------------------------------------------- tiling

  ghost predicate ReadsOn(s: Store, n: Network, t: TaskId) {
    t in s.tasks && s.tasks[t].ReadEvents? && t in s.taskNetwork && s.taskNetwork[t] == n
  }

  ghost predicate Tiles(bs: seq<nat>, s: Store, n: Network) {
    && Boundaries(bs, SizeOf(s, n), OffsetOf(s, n))
    && (forall t :: ReadsOn(s, n, t) ==> (s.tasks[t].start, s.tasks[t].end) in TileSet(bs))
    && (SyncOf(s, n) == bs[|bs| - 2] || (SyncOf(s, n) == bs[|bs| - 1] && n !in s.readTask))
  }

  /** The ranges of the tasks created between two states. */
  ghost function NewRanges(s: Store, s': Store, n: Network): (r: set<(nat, nat)>) {
    set t | t in s'.tasks && t > s.lastTask && ReadsOn(s', n, t) :: (s'.tasks[t].start, s'.tasks[t].end)
  }

  /** Nothing happens to the reading of network n, except that it may be stopped and old tasks removed. */
  ghost predicate Untouched(s: Store, s': Store, n: Network) {
    && (forall t :: ReadsOn(s', n, t) ==> ReadsOn(s, n, t) && s'.tasks[t] == s.tasks[t])
    && SyncOf(s', n) == SyncOf(s, n) && SizeOf(s', n) == SizeOf(s, n) && OffsetOf(s', n) == OffsetOf(s, n)
    && (n in s'.readTask ==> n in s.readTask)
  }

  lemma UntouchedTrans(a: Store, b: Store, c: Store, n: Network)
    requires Untouched(a, b, n) && Untouched(b, c, n)
    ensures Untouched(a, c, n)
  {
    hide ReadsOn;
  }

  lemma SameTasksUntouched(s: Store, s': Store, n: Network)
    requires SameTasks(s, s')
    ensures Untouched(s, s', n)
  {}

  lemma UntouchedTiles(home: Home, h: History, bs: seq<nat>, s: Store, s': Store, n: Network)
    requires Good(home, h, s) && Tiles(bs, s, n) && Untouched(s, s', n)
    ensures Tiles(bs, s', n) && NewRanges(s, s', n) == {}
  {
    OldIds(home, h, s);
    hide Good, TileSet, Boundaries;
    forall t: TaskId | ReadsOn(s', n, t)
        ensures t <= s.lastTask && (s'.tasks[t].start, s'.tasks[t].end) in TileSet(bs) {
      assert ReadsOn(s, n, t);
    }
  }

  lemma OldIds(home: Home, h: History, s: Store)
    requires Good(home, h, s)
    ensures forall t :: t in s.tasks ==> t <= s.lastTask
  {
    hide Counters, Links, Queues, Readers, Batched, Placed;
  }

  lemma CreateUntouched(s: Store, k: Network, task: Task, n: Network)
    requires task.SubmitBatch? || k != n
    ensures Untouched(s, CreateTask(s, k, task), n)
  {
    CreateCreates(s, k, task);
    hide CreateTask, QueueOf, CreatedCount;
  }

  lemma StartUntouched(s: Store, k: Network, ops: seq<Op>, n: Network)
    ensures Untouched(s, StartBatch(s, k, ops), n)
  {
    hide CreateTask;
    var b := s.nextBatch;
    var s0 := s.(nextBatch := b + 1, batchOps := s.batchOps[b := ops]);
    CreateUntouched(s0, k, SubmitBatch(b), n);
  }

  lemma {:induction false} StartsUntouched(s: Store, k: Network, batches: seq<seq<Op>>, n: Network)
    ensures Untouched(s, StartBatches(s, k, batches), n)
  {
    if batches != [] {
      hide StartBatch, Untouched;
      var j := |batches| - 1;
      StartsUntouched(s, k, batches[..j], n);
      var s1 := StartBatches(s, k, batches[..j]);
      StartUntouched(s1, k, batches[j], n);
      UntouchedTrans(s, s1, StartBatches(s, k, batches), n);
    }
  }

  lemma {:induction false} PrepareUntouched(s: Store, env: Env, networks: seq<Network>, n: Network)
    ensures Untouched(s, PrepareBatches(s, env, networks).0, n)
  {
    if networks != [] {
      hide Batches, StartBatches;
      var k := |networks| - 1;
      PrepareUntouched(s, env, networks[..k], n);
      var (s1, started) := PrepareBatches(s, env, networks[..k]);
      var (batches, rest) := Batches(OpsOf(s1, networks[k]), [], env.Gas(networks[k]), started, env.Cap());
      var s2 := s1.(ops := s1.ops[networks[k] := rest]);
      StartsUntouched(s2, networks[k], batches, n);
      assert Untouched(s1, s2, n);
      UntouchedTrans(s, s1, s2, n);
      UntouchedTrans(s, s2, PrepareBatches(s, env, networks).0, n);
    }
  }

  lemma InitializeUntouched(home: Home, h: History, s: Store, env: Env, n: Network)
    requires Inv(home, h, s) && Lists(s, env) && Initialize(s, env).Some?
    ensures Untouched(s, Initialize(s, env).value.s, n)
  {
    hide Good, Sited, Sized, PrepareBatches, ScheduleTasks, Lists, Untouched;
    var h' := InitializeKeeps(home, h, s, env);
    var s1 := PrepareBatches(s, env, env.networks).0;
    PrepareUntouched(s, env, env.networks, n);
    SchedulesUntouched(home, s1, env, Initialize(s, env).value, n);
    UntouchedTrans(s, s1, Initialize(s, env).value.s, n);
  }

  lemma SchedulesUntouched(home: Home, s: Store, env: Env, p: Progress, n: Network)
    requires Schedules(home, s, env, env.networks, 0, p)
    ensures Untouched(s, p.s, n)
  {
    hide Drained, CountOf, QueueOf;
  }

  // ---------------------------------------------------------------------- task results

  /** What a reader's result does to the boundaries. */
  lemma AdvanceOther(s: Store, k: Network, start: nat, end: nat, n: Network)
    requires SizeOf(s, k) > 0 && k != n
    ensures Untouched(s, Advance(s, k, start, end), n)
  {
    hide CreateTask, RangeEnd;
    var s1 := s.(sync := if SyncOf(s, k) == start then s.sync[k := end] else s.sync);
    assert Untouched(s, s1, n);
    if k in s.readTask {
      CreateUntouched(s1, k, ReadEvents(SyncOf(s1, k), RangeEnd(s1, k)), n);
      UntouchedTrans(s, s1, Advance(s, k, start, end), n);
    }
  }

  lemma LastTile(bs: seq<nat>, size: nat, offset: nat, start: nat, end: nat, sync: nat)
    requires Boundaries(bs, size, offset) && (start, end) in TileSet(bs)
             && (sync == bs[|bs| - 2] || sync == bs[|bs| - 1])
    ensures sync == start ==> start == bs[|bs| - 2] && end == bs[|bs| - 1]
    ensures sync != start && sync == bs[|bs| - 2] ==> |bs| >= 3
  {
    var i: nat :| i < |bs| - 1 && (start, end) == Tile(bs, i);
    Increasing(bs, size, offset, i, |bs| - 1);
    if i < |bs| - 2 {
      Increasing(bs, size, offset, i, |bs| - 2);
    }
  }

  lemma Appended(bs: seq<nat>, size: nat, offset: nat)
    requires Boundaries(bs, size, offset)
    ensures var end := bs[|bs| - 1] + NextBatchSize(size, offset, bs[|bs| - 1]);
            Boundaries(bs + [end], size, offset) && TileSet(bs + [end]) == TileSet(bs) + {(bs[|bs| - 1], end)}
  {
    AppendedTiles(bs, bs + [bs[|bs| - 1] + NextBatchSize(size, offset, bs[|bs| - 1])]);
  }

  lemma AppendedTiles(bs: seq<nat>, bs': seq<nat>)
    requires |bs| >= 1 && |bs'| == |bs| + 1 && bs'[..|bs|] == bs
    ensures TileSet(bs') == TileSet(bs) + {(bs[|bs| - 1], bs'[|bs|])}
  {
    var k := |bs| - 1;
    forall i: nat | i < k ensures Tile(bs', i) == Tile(bs, i) {
      assert bs'[..|bs|][i] == bs'[i] && bs'[..|bs|][i + 1] == bs'[i + 1];
    }
    assert bs'[..|bs|][k] == bs'[k];
    assert Tile(bs', k) == (bs[k], bs'[k + 1]);
    forall p ensures p in TileSet(bs') <==> p in TileSet(bs) || p == Tile(bs', k) {
      if p in TileSet(bs') {
        var i: nat :| i < k + 1 && p == Tile(bs', i);
        assert i < k ==> p == Tile(bs, i);
      }
      if p in TileSet(bs) {
        var i: nat :| i < k && p == Tile(bs, i);
        assert p == Tile(bs', i);
      }
    }
  }

  /** Of network n, s' has the readers of s and, if the network is read, one more that starts at sync. */
  ghost predicate Reading(s: Store, n: Network, sync: nat, s': Store) {
    var t := s.lastTask + 1;
    && SizeOf(s, n) > 0 && SyncOf(s', n) == sync && SizeOf(s', n) == SizeOf(s, n) && OffsetOf(s', n) == OffsetOf(s, n)
    && (n in s'.readTask <==> n in s.readTask)
    && (n in s.readTask ==>
          && ReadsOn(s', n, t)
          && s'.tasks[t] == ReadEvents(sync, sync + NextBatchSize(SizeOf(s, n), OffsetOf(s, n), sync)))
    && (forall x :: ReadsOn(s', n, x) && !(n in s.readTask && x == t) ==> ReadsOn(s, n, x) && s'.tasks[x] == s.tasks[x])
  }

  lemma AdvanceReads(s: Store, n: Network, start: nat, end: nat)
    requires SizeOf(s, n) > 0
    ensures Reading(s, n, if SyncOf(s, n) == start then end else SyncOf(s, n), Advance(s, n, start, end))
  {
    hide CreateTask, NextBatchSize, Creates;
    var s1 := s.(sync := if SyncOf(s, n) == start then s.sync[n := end] else s.sync);
    CreateCreates(s1, n, ReadEvents(SyncOf(s1, n), RangeEnd(s1, n)));
    if n in s.readTask {
      CreatedReads(s, s1, n, Advance(s, n, start, end));
    }
  }

  lemma CreatedReads(s: Store, s1: Store, n: Network, s': Store)
    requires s1 == s.(sync := s1.sync) && SizeOf(s, n) > 0 && n in s.readTask
    requires Creates(s1, n, ReadEvents(SyncOf(s1, n), RangeEnd(s1, n)), s')
    ensures Reading(s, n, SyncOf(s1, n), s')
  {
    hide NextBatchSize, QueueOf, CreatedCount;
  }

  lemma OneNewRange(home: Home, h: History, s: Store, n: Network, sync: nat, s': Store)
    requires Good(home, h, s) && Reading(s, n, sync, s')
    ensures NewRanges(s, s', n)
            == if n in s.readTask then {(sync, sync + NextBatchSize(SizeOf(s, n), OffsetOf(s, n), sync))} else {}
  {
    hide Good, NextBatchSize;
    OldIds(home, h, s);
    forall t | t in s'.tasks && t > s.lastTask && ReadsOn(s', n, t) ensures n in s.readTask && t == s.lastTask + 1 {}
    if n in s.readTask {
      assert ReadsOn(s', n, s.lastTask + 1);
    }
  }

  lemma ReadingTiles(s: Store, n: Network, bs: seq<nat>, sync: nat, s': Store, bs': seq<nat>)
    requires Tiles(bs, s, n) && Reading(s, n, sync, s') && TileSet(bs) <= TileSet(bs')
    requires Boundaries(bs', SizeOf(s, n), OffsetOf(s, n))
    requires n in s.readTask ==>
               && sync == bs'[|bs'| - 2]
               && (sync, sync + NextBatchSize(SizeOf(s, n), OffsetOf(s, n), sync)) in TileSet(bs')
    requires n !in s.readTask ==> sync == bs'[|bs'| - 2] || sync == bs'[|bs'| - 1]
    ensures Tiles(bs', s', n)
  {
    hide TileSet, NextBatchSize, Boundaries;
    forall t: TaskId | ReadsOn(s', n, t) ensures (s'.tasks[t].start, s'.tasks[t].end) in TileSet(bs') {
      if !(n in s.readTask && t == s.lastTask + 1) {
        assert ReadsOn(s, n, t);
      }
    }
  }

  lemma AdvanceTiles(home: Home, h: History, s: Store, n: Network, bs: seq<nat>, start: nat, end: nat)
      returns (bs': seq<nat>)
    requires Good(home, h, s) && Tiles(bs, s, n) && (start, end) in TileSet(bs)
    ensures var s' := Advance(s, n, start, end);
            Tiles(bs', s', n) && bs <= bs' && TileSet(bs') == TileSet(bs) + NewRanges(s, s', n)
  {
    hide Good, Advance, NextBatchSize, TileSet, NewRanges, Reading, ReadsOn;
    var size, offset, sync := SizeOf(s, n), OffsetOf(s, n), SyncOf(s, n);
    var s' := Advance(s, n, start, end);
    var sync' := if sync == start then end else sync;
    AdvanceReads(s, n, start, end);
    OneNewRange(home, h, s, n, sync', s');
    LastTile(bs, size, offset, start, end, sync);
    bs' := bs;
    if n in s.readTask && sync == start {
      Appended(bs, size, offset);
      bs' := bs + [end + NextBatchSize(size, offset, end)];
    } else if n in s.readTask {
      assert bs[|bs| - 2 + 1] == bs[|bs| - 2] + NextBatchSize(size, offset, bs[|bs| - 2]);
      TileAt(bs, |bs| - 2);
    } else {
      assert TileSet(bs) + {} == TileSet(bs);
    }
    ReadingTiles(s, n, bs, sync', s', bs');
  }

  lemma TileAt(bs: seq<nat>, i: nat)
    requires i < |bs| - 1
    ensures (bs[i], bs[i + 1]) in TileSet(bs) && TileSet(bs) + {(bs[i], bs[i + 1])} == TileSet(bs)
  {
    assert (bs[i], bs[i + 1]) == Tile(bs, i);
  }

  // --------------------------------------------------------------------------- events

  /** No manual sync, gateway change or configuration change of network n. */
  predicate Quiet(e: Event, n: Network) {
    match e
    case NetworkSynced(k, _) => k != n
    case GatewayAdded(k, _) => k != n
    case Configured(k, _, _) => k != n
    case _ => true
  }

  lemma GmpUntouched(home: Home, h: History, s: Store, n: Network, events: seq<GmpEvent>, k: Network)
    requires Good(home, h, s) && OwnNetworks(s, n, events)
    ensures Untouched(s, SubmitGmpEvents(s, n, events), k)
  {
    hide Good, OwnNetwork, Forget, ProcessEvents, SameTasks, Untouched;
    var s1 := Forget(s, events);
    ForgetSame(s, events);
    BatchedOf(home, h, s);
    BooksFrame(home, h, s, s1);
    forall e | e in events ensures OwnNetwork(s1, n, e) {
      SameOwn(s, s1, n, e);
    }
    var h2 := EventsKeep(home, h, s1, n, events);
    SameTrans(s, s1, SubmitGmpEvents(s, n, events));
    SameTasksUntouched(s, SubmitGmpEvents(s, n, events), k);
  }

  lemma RestartUntouched(s: Store, b: BatchId, n: Network)
    ensures Untouched(s, Accepted(RestartBatch(s, b), s), n)
  {
    hide CreateTask;
    if RestartBatch(s, b).Some? {
      CreateUntouched(s, s.taskNetwork[s.batchTask[b]], SubmitBatch(b), n);
    }
  }

  lemma GatewayUntouched(s: Store, k: Network, block: nat, n: Network)
    requires SizeOf(s, k) > 0 && k != n
    ensures Untouched(s, GatewayRegistered(s, k, block), n)
  {
    hide CreateTask, RangeEnd;
    var s1 := s.(sync := s.sync[k := block]);
    assert Untouched(s, s1, n);
    CreateUntouched(s1, k, ReadEvents(SyncOf(s1, k), RangeEnd(s1, k)), n);
    UntouchedTrans(s, s1, GatewayRegistered(s, k, block), n);
  }

  lemma SmallUntouched(home: Home, s: Store, e: Event, n: Network)
    requires Sized(s) && Quiet(e, n)
    requires e.NetworkSynced? || e.NetworkStopped? || e.TaskRemoved? || e.ShardCameOnline? || e.ShardWentOffline?
             || e.Configured?
    ensures Untouched(s, Next(home, s, e).value, n)
  {
    hide Sized, RemoveTask, ShardOffline;
    match e
    case TaskRemoved(t) => RemoveUntouched(s, t, n);
    case ShardWentOffline(sh, drained, key) => OfflineUntouched(s, home(sh), sh, drained, key, n);
    case _ =>
  }

  lemma RemoveUntouched(s: Store, t: TaskId, n: Network)
    ensures Untouched(s, Accepted(RemoveTask(s, t), s), n)
  {}

  lemma OfflineUntouched(s: Store, k: Network, sh: Shard, drained: seq<TaskId>, key: Option<Key>, n: Network)
    ensures Untouched(s, ShardOffline(s, k, sh, drained, key), n)
  {
    hide Without, Elements;
  }

  lemma FailUntouched(home: Home, h: History, s: Store, t: TaskId, n: Network)
    requires Good(home, h, s) && Sized(s) && t in s.tasks && t !in s.output && t in s.taskShard
             && s.tasks[t].SubmitBatch?
    ensures Untouched(s, SubmitTaskResult(s, home, t, BatchFailed(true)).value, n)
  {
    hide Good, FinishTask;
    var b := s.tasks[t].batch;
    var s1 := s.(pending := s.pending - {b}, failed := s.failed + {b});
    FinishSame(s1, home(s.taskShard[t]), t, false);
    SameTasksUntouched(s, SubmitTaskResult(s, home, t, BatchFailed(true)).value, n);
  }

  lemma ReadSame(home: Home, h: History, s: Store, t: TaskId, events: seq<GmpEvent>)
    requires Good(home, h, s) && Sized(s) && t in s.tasks && t !in s.output && t in s.taskShard
             && s.tasks[t].ReadEvents?
    requires OwnNetworks(s, home(s.taskShard[t]), events)
    ensures var r := SubmitTaskResult(s, home, t, EventsRead(events, true));
            r.Some? && SameTasks(Advance(s, home(s.taskShard[t]), s.tasks[t].start, s.tasks[t].end), r.value)
  {
    hide Good, Advance, ProcessEvents, FinishTask, OwnNetworks, SameTasks;
    var n := home(s.taskShard[t]);
    var s1 := Advance(s, n, s.tasks[t].start, s.tasks[t].end);
    AdvanceOwn(home, h, s, n, s.tasks[t].start, s.tasks[t].end, events);
    var h1 := AdvanceKeeps(home, h, s, n, s.tasks[t].start, s.tasks[t].end);
    var h2 := EventsKeep(home, h1, s1, n, events);
    var s2 := ProcessEvents(s1, n, events);
    FinishSame(s2, n, t, true);
    if |events| != MAX_GMP_EVENTS {
      SameTrans(s1, s2, FinishTask(s2, n, t, true));
    }
  }

  lemma SameTiles(s: Store, bs: seq<nat>, s1: Store, s2: Store, n: Network)
    requires Tiles(bs, s1, n) && SameTasks(s1, s2)
    ensures Tiles(bs, s2, n) && NewRanges(s, s2, n) == NewRanges(s, s1, n)
  {
    hide TileSet, Boundaries;
    assert forall t :: ReadsOn(s2, n, t) <==> ReadsOn(s1, n, t);
  }

  lemma ReaderNetwork(home: Home, h: History, s: Store, t: TaskId)
    requires Good(home, h, s) && t in s.tasks && s.tasks[t].ReadEvents? && t in s.taskShard
    ensures ReadsOn(s, home(s.taskShard[t]), t)
  {
    hide Counters, Links, Queues, Readers, Batched;
  }

  lemma ReadTiles(home: Home, h: History, s: Store, t: TaskId, events: seq<GmpEvent>, n: Network, bs: seq<nat>)
      returns (bs': seq<nat>)
    requires Good(home, h, s) && Sized(s) && t in s.tasks && t !in s.output && t in s.taskShard
             && s.tasks[t].ReadEvents?
    requires OwnNetworks(s, home(s.taskShard[t]), events) && Tiles(bs, s, n)
    ensures var s' := SubmitTaskResult(s, home, t, EventsRead(events, true)).value;
            Tiles(bs', s', n) && bs <= bs' && TileSet(bs') == TileSet(bs) + NewRanges(s, s', n)
  {
    hide Good, Advance, OwnNetworks, SameTasks, SubmitTaskResult, TileSet, NewRanges, Boundaries;
    var k, start, end := home(s.taskShard[t]), s.tasks[t].start, s.tasks[t].end;
    var s1 := Advance(s, k, start, end);
    ReadSame(home, h, s, t, events);
    var s' := SubmitTaskResult(s, home, t, EventsRead(events, true)).value;
    ReaderNetwork(home, h, s, t);
    if k == n {
      bs' := AdvanceTiles(home, h, s, n, bs, start, end);
    } else {
      bs' := bs;
      AdvanceOther(s, k, start, end, n);
      UntouchedTiles(home, h, bs, s, s1, n);
    }
    SameTiles(s, bs', s1, s', n);
  }

  lemma ResultTiles(home: Home, h: History, s: Store, e: Event, n: Network, bs: seq<nat>) returns (bs': seq<nat>)
    requires Inv(home, h, s) && Enabled(home, s, e) && Tiles(bs, s, n) && e.TaskResultSubmitted?
    ensures var s' := Next(home, s, e).value;
            Tiles(bs', s', n) && bs <= bs' && TileSet(bs') == TileSet(bs) + NewRanges(s, s', n)
  {
    hide Good, OwnNetworks, Tiles, TileSet, NewRanges, Sited, Sized, Advance, ProcessEvents, FinishTask;
    var t, result := e.task, e.result;
    var r := SubmitTaskResult(s, home, t, result);
    bs' := bs;
    if r.Some? && t !in s.output && s.tasks[t].ReadEvents? {
      assert result == EventsRead(result.events, true);
      bs' := ReadTiles(home, h, s, t, result.events, n, bs);
    } else {
      if r.Some? && t !in s.output {
        assert result == BatchFailed(true);
        FailUntouched(home, h, s, t, n);
      } else {
        SameItself(s);
        SameTasksUntouched(s, s, n);
      }
      UntouchedTiles(home, h, bs, s, Next(home, s, e).value, n);
    }
  }

  /** Each event appends at most one boundary, and exactly when a reader of a new range is created. */
  lemma StepTiles(home: Home, h: History, s: Store, e: Event, n: Network, bs: seq<nat>) returns (bs': seq<nat>)
    requires Inv(home, h, s) && Enabled(home, s, e) && Tiles(bs, s, n) && Quiet(e, n) && Next(home, s, e).Some?
    ensures var s' := Next(home, s, e).value;
            Tiles(bs', s', n) && bs <= bs' && TileSet(bs') == TileSet(bs) + NewRanges(s, s', n)
  {
    hide Good, Sited, Tiles, TileSet, NewRanges, Untouched, SubmitGmpEvents, GatewayRegistered, Initialize, Lists,
         OwnNetworks, Drains;
    hide SubmitTaskResult, ShardOffline, ShardOnline, RemoveTask, RestartBatch;
    bs' := bs;
    if e.TaskResultSubmitted? {
      bs' := ResultTiles(home, h, s, e, n, bs);
    } else {
      match e {
        case GmpEventsSubmitted(k, events) => GmpUntouched(home, h, s, k, events, n);
        case BatchRestarted(b) => RestartUntouched(s, b, n);
        case GatewayAdded(k, block) => GatewayUntouched(s, k, block, n);
        case BlockInitialized(env) => InitializeUntouched(home, h, s, env, n);
        case _ => SmallUntouched(home, s, e, n);
      }
      UntouchedTiles(home, h, bs, s, Next(home, s, e).value, n);
    }
  }

  // ---------------------------------------------------------------------------- runs

  ghost predicate AllQuiet(es: seq<Event>, n: Network) {
    forall e :: e in es ==> Quiet(e, n)
  }

  /** The ranges of all readers of network n created during a run. */
  ghost function RunRanges(home: Home, s: Store, es: seq<Event>, n: Network): (r: set<(nat, nat)>)
    requires Run(home, s, es)
    decreases |es|
  {
    if es == [] || Next(home, s, es[0]).None? then {}
    else
      var s1 := Next(home, s, es[0]).value;
      NewRanges(s, s1, n) + RunRanges(home, s1, es[1..], n)
  }

  lemma {:induction false} RunTiles(home: Home, h: History, s: Store, es: seq<Event>, n: Network, bs: seq<nat>)
      returns (bs': seq<nat>)
    requires Inv(home, h, s) && Run(home, s, es) && AllQuiet(es, n) && Tiles(bs, s, n)
    ensures After(home, s, es).Some? && Tiles(bs', After(home, s, es).value, n) && bs <= bs'
    ensures TileSet(bs') == TileSet(bs) + RunRanges(home, s, es, n)
    decreases |es|
  {
    hide Inv, Next, Enabled, Tiles, TileSet, NewRanges, Quiet;
    if es == [] {
      bs' := bs;
    } else {
      var h1 := StepKeeps(home, h, s, es[0]);
      var s1 := Next(home, s, es[0]).value;
      var bs1 := StepTiles(home, h, s, es[0], n, bs);
      bs' := RunTiles(home, h1, s1, es[1..], n, bs1);
    }
  }

  lemma FirstReader(s: Store, s1: Store, n: Network, start: nat, end: nat, s': Store)
    requires s1 == s.(sync := s.sync[n := start]) && (forall t :: !ReadsOn(s, n, t))
             && Creates(s1, n, ReadEvents(start, end), s')
    ensures SyncOf(s', n) == start && forall t :: ReadsOn(s', n, t) ==> s'.tasks[t] == ReadEvents(start, end)
  {
    hide QueueOf, CreatedCount;
    forall t: TaskId | ReadsOn(s', n, t) ensures s'.tasks[t] == ReadEvents(start, end) {
      assert !ReadsOn(s, n, t);
    }
  }

  lemma ConfigTiles(s: Store, n: Network, size: nat, offset: nat, start: nat, end: nat)
    requires size > 0 && start < end && SyncOf(s, n) == start
             && forall t :: ReadsOn(s, n, t) ==> s.tasks[t] == ReadEvents(start, end)
    ensures Tiles([start, end], SetConfig(s, n, size, offset), n) && TileSet([start, end]) == {(start, end)}
  {
    var s' := SetConfig(s, n, size, offset);
    assert Tile([start, end], 0) == (start, end);
    forall t: TaskId ensures ReadsOn(s', n, t) <==> ReadsOn(s, n, t) {}
  }

  lemma FirstTile(s: Store, n: Network, start: nat, size: nat, offset: nat)
    requires SizeOf(s, n) > 0 && size > 0 && forall t :: !ReadsOn(s, n, t)
    ensures var s' := SetConfig(GatewayRegistered(s, n, start), n, size, offset);
            var end := start + NextBatchSize(SizeOf(s, n), OffsetOf(s, n), start);
            Tiles([start, end], s', n) && TileSet([start, end]) == {(start, end)}
  {
    hide CreateTask, Creates, NextBatchSize, ReadsOn, Tiles, TileSet;
    var end := start + NextBatchSize(SizeOf(s, n), OffsetOf(s, n), start);
    BatchSizeFacts(SizeOf(s, n), OffsetOf(s, n), start);
    var s1 := s.(sync := s.sync[n := start]);
    assert ReadEvents(SyncOf(s1, n), RangeEnd(s1, n)) == ReadEvents(start, end);
    CreateCreates(s1, n, ReadEvents(start, end));
    FirstReader(s, s1, n, start, end, GatewayRegistered(s, n, start));
    ConfigTiles(GatewayRegistered(s, n, start), n, size, offset, start, end);
  }

  /**
    From its registration on, as long as the network is not synced by hand, moved or reconfigured, the
    ranges its readers are given are exactly the intervals between consecutive boundaries, the first of
    which is the gateway's block, and the sync height is one of the last two boundaries.
   */
  lemma ReadingTilesTheChain(home: Home, h: History, s: Store, n: Network, start: nat, size: nat, offset: nat,
                             es: seq<Event>)
    returns (bs: seq<nat>)
    requires Inv(home, h, s) && size > 0 && (forall t :: !ReadsOn(s, n, t)) && AllQuiet(es, n)
    requires Run(home, SetConfig(GatewayRegistered(s, n, start), n, size, offset), es)
    ensures var s1 := SetConfig(GatewayRegistered(s, n, start), n, size, offset);
            var first := (start, start + NextBatchSize(SizeOf(s, n), OffsetOf(s, n), start));
            && After(home, s1, es).Some?
            && Boundaries(bs, size, offset) && bs[0] == start
            && TileSet(bs) == {first} + RunRanges(home, s1, es, n)
            && SyncOf(After(home, s1, es).value, n) in bs[|bs| - 2..]
  {
    hide Good, Sited, GatewayRegistered, Run, After, RunRanges, AllQuiet, ReadsOn, NextBatchSize, TileSet;
    var s0 := GatewayRegistered(s, n, start);
    var s1 := SetConfig(s0, n, size, offset);
    var end := start + NextBatchSize(SizeOf(s, n), OffsetOf(s, n), start);
    var h1 := GatewayKeeps(home, h, s, n, start);
    ConfigKeeps(home, h1, s0, n, size, offset);
    FirstTile(s, n, start, size, offset);
    bs := RunTiles(home, h1, s1, es, n, [start, end]);
    RunConfig(home, h1, s1, es, n);
  }

  lemma StepConfig(home: Home, h: History, s: Store, e: Event, n: Network)
    requires Inv(home, h, s) && Enabled(home, s, e) && Quiet(e, n) && Next(home, s, e).Some?
    ensures var s' := Next(home, s, e).value; SizeOf(s', n) == SizeOf(s, n) && OffsetOf(s', n) == OffsetOf(s, n)
  {
    hide Good, Sited, SubmitGmpEvents, GatewayRegistered, Initialize, Lists, OwnNetworks, Drains;
    hide SubmitTaskResult, RemoveTask, RestartBatch, ReadsOn;
    match e {
      case TaskResultSubmitted(t, result) =>
        if SubmitTaskResult(s, home, t, result).Some? {
          ResultConfig(home, h, s, t, result);
        }
      case GmpEventsSubmitted(k, events) => GmpUntouched(home, h, s, k, events, n);
      case BatchRestarted(b) => RestartUntouched(s, b, n);
      case GatewayAdded(k, block) => GatewayUntouched(s, k, block, n);
      case BlockInitialized(env) => InitializeUntouched(home, h, s, env, n);
      case _ => SmallUntouched(home, s, e, n);
    }
  }

  lemma {:induction false} RunConfig(home: Home, h: History, s: Store, es: seq<Event>, n: Network)
    requires Inv(home, h, s) && Run(home, s, es) && AllQuiet(es, n) && After(home, s, es).Some?
    ensures var s' := After(home, s, es).value; SizeOf(s', n) == SizeOf(s, n) && OffsetOf(s', n) == OffsetOf(s, n)
    decreases |es|
  {
    hide Inv, Next, Enabled, Quiet, SizeOf, OffsetOf;
    if es != [] {
      var h1 := StepKeeps(home, h, s, es[0]);
      StepConfig(home, h, s, es[0], n);
      RunConfig(home, h1, Next(home, s, es[0]).value, es[1..], n);
    }
  }
}
