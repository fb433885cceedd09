/** The invariant of the tasks pallet, and the single changes that every call is made of. */
module TasksInvariant {
  import opened Sequences
  import opened TasksSpec

  type Home = Shard -> Network

  /** What storage forgets: the network of every task ever created, and the tasks counted as executed. */
  datatype History = History(net: map<TaskId, Network>, counted: set<TaskId>)

  /** The tasks whose finishing raised an executed counter, each with the network whose counter it was. */
  type Tally = seq<(TaskId, Network)>

  ghost function TasksIn(tally: Tally): (r: seq<TaskId>)
    ensures |r| == |tally|
  {
    seq(|tally|, i requires 0 <= i < |tally| => tally[i].0)
  }

  /** What `finish_task` counts, given the storage it starts from. */
  ghost function FinishTally(s: Store, n: Network, t: TaskId): (r: Tally) {
    if t !in s.output && t in s.taskShard then [(t, n)] else []
  }

  ghost function EventTally(s: Store, n: Network, e: GmpEvent): (r: Tally) {
    if e.BatchExecuted? && e.batch in s.batchTask then FinishTally(s, n, s.batchTask[e.batch]) else []
  }

  ghost function EventsTally(s: Store, n: Network, events: seq<GmpEvent>): (r: Tally) {
    if events == [] then []
    else
      var k := |events| - 1;
      EventsTally(s, n, events[..k]) + EventTally(ProcessEvents(s, n, events[..k]), n, events[k])
  }

  /** Tasks keep their network, and the tasks newly counted are those of the tally: new ones, each once. */
  ghost predicate Extends(h: History, h': History, tally: Tally) {
    && h.net.Keys <= h'.net.Keys && (forall t :: t in h.net ==> h'.net[t] == h.net[t])
    && NoDuplicates(TasksIn(tally)) && h'.counted == h.counted + Elements(TasksIn(tally))
    && forall i :: 0 <= i < |tally| ==>
         tally[i].0 !in h.counted && tally[i].0 in h'.net && h'.net[tally[i].0] == tally[i].1
  }

  lemma ExtendsItself(h: History)
    ensures Extends(h, h, [])
  {
    assert Elements(TasksIn([])) == {};
  }

  lemma ExtendsTrans(a: History, b: History, c: History, x: Tally, y: Tally)
    requires Extends(a, b, x) && Extends(b, c, y)
    ensures Extends(a, c, x + y)
    ensures x == [] ==> Extends(a, c, y)
    ensures y == [] ==> Extends(a, c, x)
  {
    hide NoDuplicates;
    assert x == [] ==> x + y == y;
    assert y == [] ==> x + y == x;
    assert TasksIn(x + y) == TasksIn(x) + TasksIn(y);
    forall t | t in TasksIn(y) ensures t !in TasksIn(x) {
      var i :| 0 <= i < |y| && TasksIn(y)[i] == t;
      assert y[i].0 !in b.counted;
      assert t in TasksIn(x) ==> t in Elements(TasksIn(x));
    }
    AppendNoDuplicates(TasksIn(x), TasksIn(y));
    assert Elements(TasksIn(x) + TasksIn(y)) == Elements(TasksIn(x)) + Elements(TasksIn(y));
  }

  ghost predicate Ids(h: History, last: TaskId) {
    (forall t :: t in h.net <==> 1 <= t <= last) && h.counted <= h.net.Keys
  }

  ghost function CreatedOn(h: History, n: Network): (s: set<TaskId>) {
    set t | t in h.net && h.net[t] == n
  }

  ghost function CountedOn(h: History, n: Network): (s: set<TaskId>) {
    set t | t in h.counted && t in h.net && h.net[t] == n
  }

  ghost predicate Counters(h: History, s: Store) {
    forall n :: CreatedCount(s, n) == |CreatedOn(h, n)| && ExecutedCount(s, n) == |CountedOn(h, n)|
  }

  /** TaskShard and ShardTasks are inverse, and the cached counts are right. */
  ghost predicate Links(s: Store) {
    && (forall t :: t in s.taskShard ==> t in TasksOf(s, s.taskShard[t]))
    && (forall sh, t :: t in TasksOf(s, sh) ==> t in s.taskShard && s.taskShard[t] == sh)
    && (forall sh :: CountOf(s, sh) == |TasksOf(s, sh)|)
  }

  /** A task is with a shard of its own network, and was never counted. */
  ghost predicate Placed(home: Home, h: History, taskShard: map<TaskId, Shard>) {
    forall t :: t in taskShard ==> t in h.net && t !in h.counted && home(taskShard[t]) == h.net[t]
  }

  ghost predicate Waits(h: History, n: Network, taskShard: map<TaskId, Shard>, t: TaskId) {
    t in h.net && h.net[t] == n && t !in h.counted && t !in taskShard
  }

  /** Queued tasks are unassigned, uncounted, of the queue's network, and queued once. */
  ghost predicate QueueOk(h: History, n: Network, taskShard: map<TaskId, Shard>, q: seq<TaskId>) {
    NoDuplicates(q) && forall t :: t in q ==> Waits(h, n, taskShard, t)
  }

  ghost predicate Queues(h: History, s: Store) {
    forall n :: QueueOk(h, n, s.taskShard, QueueOf(s, n))
  }

  ghost predicate ReaderOk(h: History, s: Store, n: Network, t: TaskId) {
    && t in h.net && h.net[t] == n && t !in h.counted && t !in s.output && t !in QueueOf(s, n)
    && t in s.tasks && s.tasks[t].ReadEvents?
  }

  /** The current reader of a network is an unfinished, uncounted, unqueued reader of that network. */
  ghost predicate Readers(h: History, s: Store) {
    forall n :: n in s.readTask ==> ReaderOk(h, s, n, s.readTask[n])
  }

  ghost predicate Infos(h: History, s: Store) {
    && (forall t :: t in s.tasks ==> t in h.net && t in s.taskNetwork && s.taskNetwork[t] == h.net[t])
    && (forall t :: t in s.output ==> t in h.net)
  }

  /** Batches and their tasks belong together, and no batch is both pending and failed. */
  ghost predicate Batched(s: Store) {
    && (forall t :: t in s.tasks && s.tasks[t].SubmitBatch? ==> s.tasks[t].batch < s.nextBatch)
    && (forall b :: b in s.batchTask ==>
          b < s.nextBatch && s.batchTask[b] in s.tasks && s.tasks[s.batchTask[b]] == SubmitBatch(b))
    && (forall b :: b in s.pending || b in s.failed ==> b < s.nextBatch)
    && s.pending !! s.failed
  }

  ghost predicate Good(home: Home, h: History, s: Store) {
    Ids(h, s.lastTask) && Counters(h, s) && Links(s) && Placed(home, h, s.taskShard) && Queues(h, s) && Readers(h, s)
        && Infos(h, s) && Batched(s)
  }

  // ------------------------------------------------------------------- creating tasks

  ghost predicate Creates(s: Store, n: Network, task: Task, s': Store) {
    var t := s.lastTask + 1;
    && s' == s.(tasks := s'.tasks, taskNetwork := s'.taskNetwork, lastTask := t, readTask := s'.readTask,
                queue := s'.queue, taskCount := s'.taskCount)
    && s'.tasks == s.tasks[t := task]
    && s'.taskNetwork == s.taskNetwork[t := n]
    && s'.readTask == (if task.ReadEvents? then s.readTask[n := t] else s.readTask)
    && (forall k :: QueueOf(s', k) == if k == n && task.SubmitBatch? then QueueOf(s, k) + [t] else QueueOf(s, k))
    && (forall k :: CreatedCount(s', k) == if k == n then CreatedCount(s, k) + 1 else CreatedCount(s, k))
  }

  lemma CreateCreates(s: Store, n: Network, task: Task)
    ensures Creates(s, n, task, CreateTask(s, n, task))
  {}

  lemma RecordedExtends(h: History, t: TaskId, n: Network)
    requires t !in h.net
    ensures Extends(h, Recorded(h, t, n), [])
  {
    ExtendsItself(h);
  }

  function Recorded(h: History, t: TaskId, n: Network): (h': History) {
    h.(net := h.net[t := n])
  }

  lemma FreshId(h: History, last: TaskId)
    requires Ids(h, last)
    ensures last + 1 !in h.net && last + 1 !in h.counted
  {}

  lemma RecordedOn(h: History, t: TaskId, n: Network, k: Network)
    requires t !in h.net && t !in h.counted
    ensures var h' := Recorded(h, t, n);
            && |CreatedOn(h', k)| == |CreatedOn(h, k)| + (if k == n then 1 else 0)
            && CountedOn(h', k) == CountedOn(h, k)
  {
    var h' := Recorded(h, t, n);
    if k == n {
      assert CreatedOn(h', k) == CreatedOn(h, k) + {t};
    } else {
      assert CreatedOn(h', k) == CreatedOn(h, k);
    }
  }

  lemma CreateCounters(h: History, s: Store, n: Network, task: Task, s': Store)
    requires Ids(h, s.lastTask) && Counters(h, s) && Creates(s, n, task, s')
    ensures Counters(Recorded(h, s.lastTask + 1, n), s')
  {
    hide Ids, CreatedOn, CountedOn, CreatedCount;
    var h' := Recorded(h, s.lastTask + 1, n);
    FreshId(h, s.lastTask);
    forall k ensures CreatedCount(s', k) == |CreatedOn(h', k)| && ExecutedCount(s', k) == |CountedOn(h', k)| {
      RecordedOn(h, s.lastTask + 1, n, k);
      assert CreatedCount(s, k) == |CreatedOn(h, k)| && ExecutedCount(s, k) == |CountedOn(h, k)|;
    }
  }

  lemma CreateQueues(home: Home, h: History, s: Store, n: Network, task: Task, s': Store)
    requires Ids(h, s.lastTask) && Queues(h, s) && Placed(home, h, s.taskShard) && Creates(s, n, task, s')
    ensures Queues(Recorded(h, s.lastTask + 1, n), s')
  {
    hide QueueOf, NoDuplicates;
    var t: TaskId := s.lastTask + 1;
    var h' := Recorded(h, t, n);
    forall k ensures QueueOk(h', k, s'.taskShard, QueueOf(s', k)) {
      var q := QueueOf(s, k);
      assert QueueOk(h, k, s.taskShard, q);
      assert t !in q;
      AppendNoDuplicates(q, [t]);
    }
  }

  lemma CreateReaders(h: History, s: Store, n: Network, task: Task, s': Store)
    requires Ids(h, s.lastTask) && Infos(h, s) && Queues(h, s) && Readers(h, s) && Creates(s, n, task, s')
    ensures Readers(Recorded(h, s.lastTask + 1, n), s')
  {
    hide QueueOf, NoDuplicates;
    var t := s.lastTask + 1;
    var h' := Recorded(h, t, n);
    forall k | k in s'.readTask ensures ReaderOk(h', s', k, s'.readTask[k]) {
      assert QueueOk(h, k, s.taskShard, QueueOf(s, k));
      if k in s.readTask {
        assert ReaderOk(h, s, k, s.readTask[k]);
      }
    }
  }

  lemma CreateInfos(home: Home, h: History, s: Store, n: Network, task: Task, s': Store)
    requires Ids(h, s.lastTask) && Placed(home, h, s.taskShard) && Infos(h, s) && Creates(s, n, task, s')
    ensures var h' := Recorded(h, s.lastTask + 1, n);
            Ids(h', s'.lastTask) && Placed(home, h', s'.taskShard) && Infos(h', s')
  {}

  lemma CreateBatched(h: History, s: Store, n: Network, task: Task, s': Store)
    requires Ids(h, s.lastTask) && Infos(h, s) && Batched(s) && Creates(s, n, task, s')
    requires task.SubmitBatch? ==> task.batch < s.nextBatch
    ensures Batched(s')
  {
    assert s.lastTask + 1 !in s.tasks;
  }

  lemma LinksFrame(s: Store, s': Store)
    requires Links(s) && s'.taskShard == s.taskShard && s'.shardTasks == s.shardTasks && s'.shardCount == s.shardCount
    ensures Links(s')
  {
    assert forall sh :: TasksOf(s', sh) == TasksOf(s, sh) && CountOf(s', sh) == CountOf(s, sh);
  }

  lemma CreateKeeps(home: Home, h: History, s: Store, n: Network, task: Task)
    requires Good(home, h, s) && (task.SubmitBatch? ==> task.batch < s.nextBatch)
    ensures Good(home, Recorded(h, s.lastTask + 1, n), CreateTask(s, n, task))
  {
    hide Ids, Counters, Links, Placed, Queues, Readers, Infos, Batched, CreateTask, Creates;
    var s' := CreateTask(s, n, task);
    CreateCreates(s, n, task);
    CreateCounters(h, s, n, task, s');
    CreateQueues(home, h, s, n, task, s');
    CreateReaders(h, s, n, task, s');
    CreateInfos(home, h, s, n, task, s');
    CreateBatched(h, s, n, task, s');
    CreateLinks(s, n, task, s');
  }

  lemma CreateLinks(s: Store, n: Network, task: Task, s': Store)
    requires Links(s) && Creates(s, n, task, s')
    ensures Links(s')
  {
    hide Links;
    LinksFrame(s, s');
  }

  // ------------------------------------------------------------------ finishing tasks

  /** The task counts as executed if it was with a shard and had no outcome yet. */
  ghost function Counted(h: History, s: Store, t: TaskId): (h': History) {
    if t in s.output || t !in s.taskShard then h else h.(counted := h.counted + {t})
  }

  lemma CountedExtends(home: Home, h: History, s: Store, n: Network, t: TaskId)
    requires Placed(home, h, s.taskShard) && (t in s.taskShard ==> t in h.net && h.net[t] == n)
    ensures Extends(h, Counted(h, s, t), FinishTally(s, n, t))
  {
    assert TasksIn([(t, n)]) == [t] && TasksIn([]) == [];
    assert Elements([t]) == {t};
  }

  ghost predicate Unplaces(s: Store, n: Network, t: TaskId, ok: bool, s': Store)
    requires t in s.taskShard
  {
    var sh := s.taskShard[t];
    && s' == s.(output := s'.output, taskShard := s'.taskShard, shardTasks := s'.shardTasks,
                shardCount := s'.shardCount, executed := s'.executed)
    && s'.output == s.output[t := ok] && s'.taskShard == s.taskShard - {t}
    && (forall x :: TasksOf(s', x) == if x == sh then TasksOf(s, x) - {t} else TasksOf(s, x))
    && (forall x :: CountOf(s', x) == if x == sh then Minus(CountOf(s, x), 1) else CountOf(s, x))
    && (forall k :: ExecutedCount(s', k) == if k == n then ExecutedCount(s, k) + 1 else ExecutedCount(s, k))
  }

  lemma FinishUnplaces(s: Store, n: Network, t: TaskId, ok: bool)
    requires t !in s.output && t in s.taskShard
    ensures Unplaces(s, n, t, ok, FinishTask(s, n, t, ok))
  {}

  lemma CountedGrows(h: History, t: TaskId, k: Network)
    requires t in h.net && t !in h.counted
    ensures var h' := h.(counted := h.counted + {t});
            CreatedOn(h', k) == CreatedOn(h, k)
                && |CountedOn(h', k)| == |CountedOn(h, k)| + if h.net[t] == k then 1 else 0
  {
    var h' := h.(counted := h.counted + {t});
    if h.net[t] == k {
      assert CountedOn(h', k) == CountedOn(h, k) + {t};
    } else {
      assert CountedOn(h', k) == CountedOn(h, k);
    }
  }

  lemma UnplaceCounters(h: History, s: Store, n: Network, t: TaskId, ok: bool, s': Store)
    requires Counters(h, s) && t in s.taskShard && Unplaces(s, n, t, ok, s') && t in h.net && t !in h.counted
             && h.net[t] == n
    ensures Counters(h.(counted := h.counted + {t}), s')
  {
    hide CreatedOn, CountedOn, ExecutedCount;
    var h' := h.(counted := h.counted + {t});
    forall k ensures CreatedCount(s', k) == |CreatedOn(h', k)| && ExecutedCount(s', k) == |CountedOn(h', k)| {
      CountedGrows(h, t, k);
      assert CreatedCount(s, k) == |CreatedOn(h, k)| && ExecutedCount(s, k) == |CountedOn(h, k)|;
    }
  }

  lemma UnplaceCount(s: Store, n: Network, t: TaskId, ok: bool, s': Store, x: Shard)
    requires Links(s) && t in s.taskShard && Unplaces(s, n, t, ok, s')
    ensures CountOf(s', x) == |TasksOf(s', x)|
  {
    hide TasksOf, CountOf;
    assert t in TasksOf(s, s.taskShard[t]);
    assert CountOf(s, x) == |TasksOf(s, x)|;
  }

  lemma UnplaceInverse(s: Store, n: Network, t: TaskId, ok: bool, s': Store)
    requires Links(s) && t in s.taskShard && Unplaces(s, n, t, ok, s')
    ensures forall t :: t in s'.taskShard ==> t in TasksOf(s', s'.taskShard[t])
    ensures forall sh, t :: t in TasksOf(s', sh) ==> t in s'.taskShard && s'.taskShard[t] == sh
  {
    hide TasksOf, CountOf, ExecutedCount;
  }

  lemma UnplaceLinks(s: Store, n: Network, t: TaskId, ok: bool, s': Store)
    requires Links(s) && t in s.taskShard && Unplaces(s, n, t, ok, s')
    ensures Links(s')
  {
    UnplaceInverse(s, n, t, ok, s');
    hide TasksOf, CountOf, Unplaces;
    forall x ensures CountOf(s', x) == |TasksOf(s', x)| {
      UnplaceCount(s, n, t, ok, s', x);
    }
  }

  lemma UnplaceQueues(h: History, s: Store, n: Network, t: TaskId, ok: bool, s': Store)
    requires Queues(h, s) && t in s.taskShard && Unplaces(s, n, t, ok, s')
    ensures Queues(h.(counted := h.counted + {t}), s')
  {
    hide NoDuplicates;
    var h' := h.(counted := h.counted + {t});
    forall k ensures QueueOk(h', k, s'.taskShard, QueueOf(s', k)) {
      assert QueueOk(h, k, s.taskShard, QueueOf(s, k));
      assert QueueOf(s', k) == QueueOf(s, k);
    }
  }

  ghost predicate NotReader(s: Store, t: TaskId) {
    forall k :: k in s.readTask ==> s.readTask[k] != t
  }

  lemma UnplaceReaders(h: History, s: Store, n: Network, t: TaskId, ok: bool, s': Store)
    requires Readers(h, s) && t in s.taskShard && Unplaces(s, n, t, ok, s') && NotReader(s, t)
    ensures Readers(h.(counted := h.counted + {t}), s')
  {
    var h' := h.(counted := h.counted + {t});
    forall k | k in s'.readTask ensures ReaderOk(h', s', k, s'.readTask[k]) {
      assert ReaderOk(h, s, k, s.readTask[k]);
    }
  }

  lemma UnplaceRest(home: Home, h: History, s: Store, n: Network, t: TaskId, ok: bool, s': Store)
    requires Ids(h, s.lastTask) && Placed(home, h, s.taskShard) && Infos(h, s) && Batched(s)
    requires t in s.taskShard && Unplaces(s, n, t, ok, s')
    ensures var h' := h.(counted := h.counted + {t});
            Ids(h', s'.lastTask) && Placed(home, h', s'.taskShard) && Infos(h', s') && Batched(s')
  {
    hide TasksOf, CountOf, ExecutedCount;
  }

  /** An outcome for a task that is with no shard. */
  lemma OutcomeKeeps(home: Home, h: History, s: Store, t: TaskId, ok: bool)
    requires Good(home, h, s) && t in h.net && NotReader(s, t)
    ensures Good(home, h, s.(output := s.output[t := ok]))
  {
    var s' := s.(output := s.output[t := ok]);
    forall k | k in s'.readTask ensures ReaderOk(h, s', k, s'.readTask[k]) {
      assert ReaderOk(h, s, k, s.readTask[k]);
    }
    hide Readers, Links, Queues, Counters;
    LinksFrame(s, s');
    QueuesFrame(h, s, s');
    CountersFrame(h, s, s');
  }

  lemma QueuesFrame(h: History, s: Store, s': Store)
    requires Queues(h, s) && s'.queue == s.queue && s'.taskShard == s.taskShard
    ensures Queues(h, s')
  {
    hide QueueOk;
    forall k ensures QueueOk(h, k, s'.taskShard, QueueOf(s', k)) {
      assert QueueOk(h, k, s.taskShard, QueueOf(s, k));
      assert QueueOf(s', k) == QueueOf(s, k);
    }
  }

  lemma CountersFrame(h: History, s: Store, s': Store)
    requires Counters(h, s) && s'.taskCount == s.taskCount && s'.executed == s.executed
    ensures Counters(h, s')
  {
    hide CreatedOn, CountedOn;
    forall k ensures CreatedCount(s', k) == |CreatedOn(h, k)| && ExecutedCount(s', k) == |CountedOn(h, k)| {
      assert CreatedCount(s, k) == |CreatedOn(h, k)| && ExecutedCount(s, k) == |CountedOn(h, k)|;
    }
  }

  lemma FinishKeeps(home: Home, h: History, s: Store, n: Network, t: TaskId, ok: bool)
    requires Good(home, h, s) && t in h.net && NotReader(s, t) && (t in s.taskShard ==> h.net[t] == n)
    ensures Good(home, Counted(h, s, t), FinishTask(s, n, t, ok))
  {
    hide Ids, Counters, Links, Queues, Readers, Infos, Batched, Unplaces;
    if t !in s.output && t !in s.taskShard {
      OutcomeKeeps(home, h, s, t, ok);
    } else if t !in s.output {
      var s' := FinishTask(s, n, t, ok);
      hide Placed, FinishTask;
      PlacedOne(home, h, s.taskShard, t);
      FinishUnplaces(s, n, t, ok);
      UnplaceCounters(h, s, n, t, ok, s');
      UnplaceLinks(s, n, t, ok, s');
      UnplaceQueues(h, s, n, t, ok, s');
      UnplaceReaders(h, s, n, t, ok, s');
      UnplaceRest(home, h, s, n, t, ok, s');
    }
  }

  lemma PlacedOne(home: Home, h: History, taskShard: map<TaskId, Shard>, t: TaskId)
    requires Placed(home, h, taskShard) && t in taskShard
    ensures t in h.net && t !in h.counted && home(taskShard[t]) == h.net[t]
  {}

  // ----------------------------------------------------------------- assigning tasks

  ghost predicate Places(s: Store, sh: Shard, t: TaskId, s': Store) {
    && s' == s.(shardTasks := s'.shardTasks, taskShard := s'.taskShard, shardCount := s'.shardCount)
    && s'.taskShard == s.taskShard[t := sh]
    && (forall x :: TasksOf(s', x) == if x == sh then TasksOf(s, x) + {t} else TasksOf(s, x))
    && (forall x :: CountOf(s', x) == if x == sh then CountOf(s, x) + 1 else CountOf(s, x))
  }

  lemma AssignPlaces(s: Store, sh: Shard, t: TaskId)
    ensures Places(s, sh, t, AssignTask(s, sh, t))
  {}

  lemma PlaceCount(s: Store, sh: Shard, t: TaskId, s': Store, x: Shard)
    requires Links(s) && t !in s.taskShard && Places(s, sh, t, s')
    ensures CountOf(s', x) == |TasksOf(s', x)|
  {
    hide TasksOf, CountOf;
    assert t !in TasksOf(s, sh);
    assert CountOf(s, x) == |TasksOf(s, x)|;
  }

  lemma PlaceInverse(s: Store, sh: Shard, t: TaskId, s': Store)
    requires Links(s) && t !in s.taskShard && Places(s, sh, t, s')
    ensures forall t :: t in s'.taskShard ==> t in TasksOf(s', s'.taskShard[t])
    ensures forall sh, t :: t in TasksOf(s', sh) ==> t in s'.taskShard && s'.taskShard[t] == sh
  {
    hide TasksOf, CountOf;
  }

  lemma PlaceLinks(s: Store, sh: Shard, t: TaskId, s': Store)
    requires Links(s) && t !in s.taskShard && Places(s, sh, t, s')
    ensures Links(s')
  {
    PlaceInverse(s, sh, t, s');
    hide TasksOf, CountOf, Places;
    forall x ensures CountOf(s', x) == |TasksOf(s', x)| {
      PlaceCount(s, sh, t, s', x);
    }
  }

  lemma PlaceQueues(h: History, s: Store, sh: Shard, t: TaskId, s': Store)
    requires Queues(h, s) && Places(s, sh, t, s') && t in h.net && t !in QueueOf(s, h.net[t])
    ensures Queues(h, s')
  {
    hide NoDuplicates;
    forall k ensures QueueOk(h, k, s'.taskShard, QueueOf(s', k)) {
      assert QueueOk(h, k, s.taskShard, QueueOf(s, k));
      assert QueueOf(s', k) == QueueOf(s, k);
    }
  }

  lemma PlaceRest(home: Home, h: History, s: Store, sh: Shard, t: TaskId, s': Store)
    requires Ids(h, s.lastTask) && Placed(home, h, s.taskShard) && Infos(h, s) && Batched(s) && Readers(h, s)
    requires Places(s, sh, t, s') && t in h.net && t !in h.counted && home(sh) == h.net[t]
    ensures Ids(h, s'.lastTask) && Placed(home, h, s'.taskShard) && Infos(h, s') && Batched(s') && Readers(h, s')
  {
    hide TasksOf, CountOf, Ids;
    forall k | k in s'.readTask ensures ReaderOk(h, s', k, s'.readTask[k]) {
      assert ReaderOk(h, s, k, s.readTask[k]);
      assert QueueOf(s', k) == QueueOf(s, k);
    }
  }

  lemma PlaceCounters(h: History, s: Store, sh: Shard, t: TaskId, s': Store)
    requires Counters(h, s) && Places(s, sh, t, s')
    ensures Counters(h, s')
  {
    hide Counters;
    CountersFrame(h, s, s');
  }

  lemma AssignKeeps(home: Home, h: History, s: Store, sh: Shard, t: TaskId)
    requires Good(home, h, s) && t in h.net && t !in h.counted && t !in s.taskShard
    requires home(sh) == h.net[t] && t !in QueueOf(s, h.net[t])
    ensures Good(home, h, AssignTask(s, sh, t))
  {
    hide Ids, Counters, Links, Placed, Queues, Readers, Infos, Batched, Places, AssignTask;
    var s' := AssignTask(s, sh, t);
    AssignPlaces(s, sh, t);
    PlaceLinks(s, sh, t, s');
    PlaceQueues(h, s, sh, t, s');
    PlaceRest(home, h, s, sh, t, s');
    PlaceCounters(h, s, sh, t, s');
  }

  // ------------------------------------------------------------------- other changes

  /** Changes elsewhere in storage: operations, shard lists, registrations, configuration, heights, messages. */
  ghost predicate Elsewhere(s: Store, s': Store) {
    s' == s.(ops := s'.ops, networkShards := s'.networkShards, registered := s'.registered, sync := s'.sync,
             batchOps := s'.batchOps, batchSize := s'.batchSize, batchOffset := s'.batchOffset)
  }

  /** The part of the invariant about tasks does not read the batch books. */
  lemma BooksFrame(home: Home, h: History, s: Store, s': Store)
    requires Good(home, h, s) && Batched(s') && s'.readTask.Keys <= s.readTask.Keys
    requires forall n :: n in s'.readTask ==> s'.readTask[n] == s.readTask[n]
    requires s'.output.Keys <= s.output.Keys
    requires Elsewhere(s.(readTask := s'.readTask, output := s'.output, batchTask := s'.batchTask,
                          pending := s'.pending,
                          failed := s'.failed, nextBatch := s'.nextBatch), s')
    ensures Good(home, h, s')
  {
    assert s'.queue == s.queue && s'.taskShard == s.taskShard && s'.tasks == s.tasks;
    forall k | k in s'.readTask ensures ReaderOk(h, s', k, s'.readTask[k]) {
      assert ReaderOk(h, s, k, s.readTask[k]);
      assert QueueOf(s', k) == QueueOf(s, k);
    }
    hide Readers, Links, Queues, Counters, Batched, Ids;
    LinksFrame(s, s');
    QueuesFrame(h, s, s');
    CountersFrame(h, s, s');
  }

  lemma ElsewhereKeeps(home: Home, h: History, s: Store, s': Store)
    requires Good(home, h, s) && Elsewhere(s, s')
    ensures Good(home, h, s')
  {
    assert Batched(s');
    hide Good, Batched;
    BooksFrame(home, h, s, s');
  }
}
