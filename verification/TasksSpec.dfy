/**
  The storage of the tasks pallet, with the batch configuration the networks pallet keeps for it,
  and what each call and hook does to that storage. The two queues are sequences, see Queue.
 */
module TasksSpec {
  import opened Options
  import opened Sequences

  type Network = nat
  type Shard = nat
  type TaskId = nat
  type BatchId = nat
  type Key = nat

  datatype Op =
    | SendMessage(message: nat, destination: Network, cost: nat)
    | RegisterShard(key: Key)
    | UnregisterShard(key: Key)
  {
    function Gas(): (g: nat) {
      if SendMessage? then cost else 40_000
    }
  }

  datatype Task = ReadEvents(start: nat, end: nat) | SubmitBatch(batch: BatchId)

  datatype GmpEvent =
    | ShardRegistered(key: Key)
    | ShardUnregistered(key: Key)
    | MessageReceived(message: nat, destination: Network, cost: nat)
    | MessageExecuted(message: nat)
    | BatchExecuted(batch: BatchId)

  /** `genuine` says whether the signature, or the signer, checks out. */
  datatype TaskResult = EventsRead(events: seq<GmpEvent>, genuine: bool) | BatchFailed(genuine: bool)

  const MAX_GMP_EVENTS: nat := 10_000
  const U32: nat := 0x1_0000_0000

  datatype Store = Store(
    queue: map<Network, seq<TaskId>>,
    ops: map<Network, seq<Op>>,
    shardTasks: map<Shard, set<TaskId>>,
    taskShard: map<TaskId, Shard>,
    shardCount: map<Shard, nat>,
    networkShards: map<Network, set<Shard>>,
    lastTask: TaskId,
    taskCount: map<Network, nat>,
    executed: map<Network, nat>,
    tasks: map<TaskId, Task>,
    output: map<TaskId, bool>,
    taskNetwork: map<TaskId, Network>,
    registered: set<Key>,
    readTask: map<Network, TaskId>,
    sync: map<Network, nat>,
    nextBatch: BatchId,
    batchOps: map<BatchId, seq<Op>>,
    batchTask: map<BatchId, TaskId>,
    pending: set<BatchId>,
    failed: set<BatchId>,
    batchSize: map<Network, nat>,
    batchOffset: map<Network, nat>)

  function Genesis(): (s: Store) {
    Store(map[], map[], map[], map[], map[], map[], 0, map[], map[], map[], map[], map[], {}, map[], map[], 0, map[],
          map[], {}, {}, map[], map[])
  }

  function QueueOf(s: Store, n: Network): (q: seq<TaskId>) {
    if n in s.queue then s.queue[n] else []
  }

  function OpsOf(s: Store, n: Network): (q: seq<Op>) {
    if n in s.ops then s.ops[n] else []
  }

  function TasksOf(s: Store, sh: Shard): (t: set<TaskId>) {
    if sh in s.shardTasks then s.shardTasks[sh] else {}
  }

  function ShardsOf(s: Store, n: Network): (t: set<Shard>) {
    if n in s.networkShards then s.networkShards[n] else {}
  }

  function CountOf(s: Store, sh: Shard): (c: nat) {
    if sh in s.shardCount then s.shardCount[sh] else 0
  }

  function CreatedCount(s: Store, n: Network): (c: nat) {
    if n in s.taskCount then s.taskCount[n] else 0
  }

  function ExecutedCount(s: Store, n: Network): (c: nat) {
    if n in s.executed then s.executed[n] else 0
  }

  function SyncOf(s: Store, n: Network): (h: nat) {
    if n in s.sync then s.sync[n] else 0
  }

  // ----------------------------------------------------------------- single tasks

  /** `create_task`; the new task is number `lastTask + 1`. */
  function CreateTask(s: Store, n: Network, task: Task): (s': Store) {
    var t := s.lastTask + 1;
    s.(tasks := s.tasks[t := task],
       taskNetwork := s.taskNetwork[t := n],
       lastTask := t,
       readTask := if task.ReadEvents? then s.readTask[n := t] else s.readTask,
       queue := if task.ReadEvents? then s.queue else s.queue[n := QueueOf(s, n) + [t]],
       taskCount := s.taskCount[n := CreatedCount(s, n) + 1])
  }

  /** `finish_task`. */
  function FinishTask(s: Store, n: Network, t: TaskId, ok: bool): (s': Store) {
    if t in s.output then s
    else if t !in s.taskShard then s.(output := s.output[t := ok])
    else
      var sh := s.taskShard[t];
      s.(output := s.output[t := ok],
         taskShard := s.taskShard - {t},
         shardTasks := s.shardTasks[sh := TasksOf(s, sh) - {t}],
         shardCount := s.shardCount[sh := if CountOf(s, sh) > 0 then CountOf(s, sh) - 1 else 0],
         executed := s.executed[n := ExecutedCount(s, n) + 1])
  }

  /** `assign_task`. */
  function AssignTask(s: Store, sh: Shard, t: TaskId): (s': Store) {
    s.(shardTasks := s.shardTasks[sh := TasksOf(s, sh) + {t}],
       taskShard := s.taskShard[t := sh],
       shardCount := s.shardCount[sh := CountOf(s, sh) + 1])
  }

  // -------------------------------------------------------------- reading events

  /** `next_batch_size`; the batch size must not be zero. */
  function NextBatchSize(size: nat, offset: nat, block: nat): (r: nat)
    requires size > 0
  {
    size - (block + offset) % size
  }

  function SizeOf(s: Store, n: Network): (size: nat) {
    if n in s.batchSize then s.batchSize[n] else 32
  }

  /** No network has batches of size zero. */
  ghost predicate Sized(s: Store) {
    forall n :: SizeOf(s, n) > 0
  }

  function OffsetOf(s: Store, n: Network): (offset: nat) {
    if n in s.batchOffset then s.batchOffset[n] else 0
  }

  function RangeEnd(s: Store, n: Network): (end: nat)
    requires SizeOf(s, n) > 0
  {
    SyncOf(s, n) + NextBatchSize(SizeOf(s, n), OffsetOf(s, n), SyncOf(s, n))
  }

  /** `read_gateway_events`. */
  function ReadGatewayEvents(s: Store, n: Network): (s': Store)
    requires SizeOf(s, n) > 0
  {
    CreateTask(s, n, ReadEvents(SyncOf(s, n), RangeEnd(s, n)))
  }

  /** `gateway_registered`, called while the configuration of the network is not stored yet. */
  function GatewayRegistered(s: Store, n: Network, block: nat): (s': Store)
    requires SizeOf(s, n) > 0
  {
    ReadGatewayEvents(s.(sync := s.sync[n := block]), n)
  }

  function SetConfig(s: Store, n: Network, size: nat, offset: nat): (s': Store) {
    s.(batchSize := s.batchSize[n := size], batchOffset := s.batchOffset[n := offset])
  }

  // ------------------------------------------------------------------- gmp events

  function ProcessEvent(s: Store, n: Network, e: GmpEvent): (s': Store) {
    match e
    case ShardRegistered(key) => s.(registered := s.registered + {key})
    case ShardUnregistered(key) => s.(registered := s.registered - {key})
    case MessageReceived(m, d, cost) => s.(ops := s.ops[d := OpsOf(s, d) + [SendMessage(m, d, cost)]])
    case MessageExecuted(_) => s
    case BatchExecuted(b) =>
      var s1 := s.(pending := s.pending - {b});
      if b in s.batchTask then FinishTask(s1, n, s.batchTask[b], true) else s1
  }

  /** `process_events`. */
  function ProcessEvents(s: Store, n: Network, events: seq<GmpEvent>): (s': Store) {
    if events == [] then s
    else
      var k := |events| - 1;
      ProcessEvent(ProcessEvents(s, n, events[..k]), n, events[k])
  }

  /** What a result of a task that reads [start, end) does before the events are processed. */
  function Advance(s: Store, n: Network, start: nat, end: nat): (s': Store)
    requires SizeOf(s, n) > 0
  {
    var s1 := s.(sync := if SyncOf(s, n) == start then s.sync[n := end] else s.sync);
    if n in s.readTask then ReadGatewayEvents(s1, n) else s1
  }

  /** `submit_task_result`; None stands for the errors, which leave the storage as it was. */
  function SubmitTaskResult(s: Store, home: Shard -> Network, t: TaskId, result: TaskResult): (r: Option<Store>)
    requires Sized(s)
  {
    if t !in s.tasks then None
    else if t in s.output then Some(s)
    else if t !in s.taskShard then None
    else
      var n := home(s.taskShard[t]);
      match (s.tasks[t], result)
      case (ReadEvents(start, end), EventsRead(events, genuine)) =>
        if !genuine then None
        else
          var s1 := ProcessEvents(Advance(s, n, start, end), n, events);
          Some(if |events| == MAX_GMP_EVENTS then s1 else FinishTask(s1, n, t, true))
      case (SubmitBatch(b), BatchFailed(genuine)) =>
        if !genuine then None
        else Some(FinishTask(s.(pending := s.pending - {b}, failed := s.failed + {b}), n, t, false))
      case _ => None
  }

  /** The first pass of `submit_gmp_events`: forget the outcome of the batches reported as executed. */
  function Forget(s: Store, events: seq<GmpEvent>): (s': Store) {
    if events == [] then s
    else
      var s1, e := Forget(s, events[..|events| - 1]), events[|events| - 1];
      s1.(failed := if e.BatchExecuted? then s1.failed - {e.batch} else s1.failed,
          output := if e.BatchExecuted? && e.batch in s1.batchTask then s1.output - {s1.batchTask[e.batch]}
              else s1.output)
  }

  /** `submit_gmp_events`. */
  function SubmitGmpEvents(s: Store, n: Network, events: seq<GmpEvent>): (s': Store) {
    ProcessEvents(Forget(s, events), n, events)
  }

  // ------------------------------------------------------------------------ admin

  function SyncNetwork(s: Store, n: Network, block: nat): (s': Store) {
    s.(sync := s.sync[n := block])
  }

  function StopNetwork(s: Store, n: Network): (s': Store) {
    s.(readTask := s.readTask - {n})
  }

  /** `remove_task`. */
  function RemoveTask(s: Store, t: TaskId): (r: Option<Store>) {
    if t !in s.output then None
    else
      var batch := t in s.tasks && s.tasks[t].SubmitBatch?;
      Some(s.(output := s.output - {t},
              tasks := s.tasks - {t},
              batchOps := if batch then s.batchOps - {s.tasks[t].batch} else s.batchOps,
              batchTask := if batch then s.batchTask - {s.tasks[t].batch} else s.batchTask,
              taskNetwork := s.taskNetwork - {t}))
  }

  /** `restart_batch`. */
  function RestartBatch(s: Store, b: BatchId): (r: Option<Store>) {
    if b !in s.batchTask || s.batchTask[b] !in s.taskNetwork then None
    else
      var s1 := CreateTask(s, s.taskNetwork[s.batchTask[b]], SubmitBatch(b));
      Some(s1.(batchTask := s1.batchTask[b := s1.lastTask], pending := s1.pending + {b}, failed := s1.failed - {b}))
  }

  // ------------------------------------------------------------------------ shards

  /** `shard_online`; `key` is the shard's public key, if it has one and the network has a gateway. */
  function ShardOnline(s: Store, n: Network, sh: Shard, key: Option<Key>): (s': Store) {
    s.(networkShards := s.networkShards[n := ShardsOf(s, n) + {sh}],
       ops := if key.Some? then s.ops[n := OpsOf(s, n) + [RegisterShard(key.value)]] else s.ops)
  }

  /** The current reader of a network, which is never queued. */
  function Reader(s: Store, n: Network): (r: set<TaskId>) {
    if n in s.readTask then {s.readTask[n]} else {}
  }

  /** `shard_offline`; `drained` lists the tasks of the shard in storage order. */
  function ShardOffline(s: Store, n: Network, sh: Shard, drained: seq<TaskId>, key: Option<Key>): (s': Store) {
    s.(networkShards := s.networkShards[n := ShardsOf(s, n) - {sh}],
       taskShard := s.taskShard - Elements(drained),
       shardTasks := s.shardTasks - {sh},
       queue := s.queue[n := QueueOf(s, n) + Without(drained, Reader(s, n))],
       shardCount := s.shardCount[sh := 0],
       ops := if key.Some? then s.ops[n := OpsOf(s, n) + [UnregisterShard(key.value)]] else s.ops)
  }

  // ----------------------------------------------------------------------- batches

  /** `start_batch`. */
  function StartBatch(s: Store, n: Network, ops: seq<Op>): (s': Store) {
    var b := s.nextBatch;
    var s1 := CreateTask(s.(nextBatch := b + 1, batchOps := s.batchOps[b := ops]), n, SubmitBatch(b));
    s1.(pending := s1.pending + {b}, batchTask := s1.batchTask[b := s1.lastTask])
  }

  function StartBatches(s: Store, n: Network, batches: seq<seq<Op>>): (s': Store) {
    if batches == [] then s
    else
      var k := |batches| - 1;
      StartBatch(StartBatches(s, n, batches[..k]), n, batches[k])
  }

  /**
    The loop of `prepare_batches` for one network: the batches it makes of `queue` when `ops` are in
    the builder, and what it leaves in the queue. The builder never adds up gas, so an operation
    closes the batch before it only if it exceeds the limit on its own.
   */
  function Batches(queue: seq<Op>, ops: seq<Op>, limit: nat, started: nat, cap: nat): (r: (seq<seq<Op>>, seq<Op>)) {
    if queue == [] then (if ops == [] then [] else [ops], [])
    else
      var closes := queue[0].Gas() > limit && ops != [];
      var first := if closes then [ops] else [];
      var ops' := if closes then [queue[0]] else ops + [queue[0]];
      if started + |first| == cap then (first + [ops'], queue[1..])
      else
        var (more, rest) := Batches(queue[1..], ops', limit, started + |first|, cap);
        (first + more, rest)
  }

  /** What the hooks read from other pallets, and the orders in which storage lists its keys. */
  datatype Env = Env(
    networks: seq<Network>,
    shards: map<Network, seq<Shard>>,
    gasLimit: map<Network, nat>,
    taskLimit: map<Network, nat>,
    keys: map<Shard, Key>,
    online: set<Shard>,
    maxTasks: nat,
    maxBatches: nat)
  {
    function Gas(n: Network): (g: nat) {
      if n in gasLimit then gasLimit[n] else 10_000
    }
    function Limit(n: Network): (l: nat) {
      if n in taskLimit then taskLimit[n] else 10
    }
    function Shards(n: Network): (l: seq<Shard>) {
      if n in shards then shards[n] else []
    }
    function Cap(): (c: nat) {
      if maxBatches > 0 then maxBatches - 1 else 0
    }
  }

  function PrepareNetwork(s: Store, env: Env, n: Network, started: nat): (r: (Store, nat)) {
    var (batches, rest) := Batches(OpsOf(s, n), [], env.Gas(n), started, env.Cap());
    (StartBatches(s.(ops := s.ops[n := rest]), n, batches), started + |batches|)
  }

  /** `prepare_batches`. */
  function PrepareBatches(s: Store, env: Env, networks: seq<Network>): (r: (Store, nat)) {
    if networks == [] then (s, 0)
    else
      var k := |networks| - 1;
      var (s1, started) := PrepareBatches(s, env, networks[..k]);
      PrepareNetwork(s1, env, networks[k], started)
  }

  // --------------------------------------------------------------------- scheduling

  /** `schedule_tasks_shard`: the storage and the number of tasks assigned. */
  function ScheduleShard(s: Store, n: Network, sh: Shard, capacity: nat): (r: (Store, nat))
    decreases capacity
  {
    if capacity == 0 || QueueOf(s, n) == [] then (s, 0)
    else
      var t := QueueOf(s, n)[0];
      var (s1, k) := ScheduleShard(AssignTask(s.(queue := s.queue[n := QueueOf(s, n)[1..]]), sh, t), n, sh,
                                   capacity - 1);
      (s1, k + 1)
  }

  /** Where the scheduler stands: the storage, the tasks assigned so far, and whether it returned early. */
  datatype Progress = Progress(s: Store, placed: nat, stopped: bool)

  /** Gives the current reader to the first shard below the limit. */
  function ScheduleReader(s: Store, env: Env, n: Network, shards: seq<Shard>, placed: nat): (p: Progress)
  {
    if n !in s.readTask || s.readTask[n] in s.taskShard || shards == [] then Progress(s, placed, false)
    else if CountOf(s, shards[0]) < env.Limit(n) then
      if placed == env.maxTasks then Progress(s, placed, true)
      else Progress(AssignTask(s, shards[0], s.readTask[n]), placed + 1, false)
    else ScheduleReader(s, env, n, shards[1..], placed)
  }

  function Registered(s: Store, env: Env, shards: seq<Shard>): (r: seq<Shard>) {
    if shards == [] then []
    else
      var k := |shards| - 1;
      var sh := shards[k];
      Registered(s, env, shards[..k]) + if sh in env.keys && env.keys[sh] in s.registered && sh in env.online then [sh]
          else []
  }

  /** The tasks each shard may have; None is an underflow of one of the two subtractions. */
  function TasksPerShard(created: nat, executed: nat, shards: nat, limit: nat): (r: Option<nat>)
    requires shards > 0
  {
    if created < executed || (created - executed) % U32 == 0 then None
    else
      var each := ((created - executed) % U32 - 1) / shards + 1;
      Some(if each < limit then each else limit)
  }

  function Minus(a: nat, b: nat): (r: nat) {
    if a < b then 0 else a - b
  }

  /** Fills the shards up to `each` tasks. */
  function FillShards(s: Store, env: Env, n: Network, shards: seq<Shard>, each: nat, placed: nat): (p: Progress)
    decreases |shards|
  {
    if shards == [] then Progress(s, placed, false)
    else
      var capacity := Minus(each, CountOf(s, shards[0]));
      if env.maxTasks > placed + capacity then
        var (s1, k) := ScheduleShard(s, n, shards[0], capacity);
        FillShards(s1, env, n, shards[1..], each, placed + k)
      else
        var (s1, k) := ScheduleShard(s, n, shards[0], Minus(env.maxTasks, placed));
        Progress(s1, placed + k, true)
  }

  /** The body of the loop of `schedule_tasks`. */
  function ScheduleNetwork(s: Store, env: Env, n: Network, placed: nat): (r: Option<Progress>)
  {
    var p := ScheduleReader(s, env, n, env.Shards(n), placed);
    var shards := Registered(p.s, env, env.Shards(n));
    if p.stopped || shards == [] then Some(p)
    else
      match TasksPerShard(CreatedCount(p.s, n), ExecutedCount(p.s, n), |shards|, env.Limit(n))
      case None => None
      case Some(each) => Some(FillShards(p.s, env, n, shards, each, p.placed))
  }

  /** `schedule_tasks`; None is an underflow. */
  function ScheduleTasks(s: Store, env: Env, networks: seq<Network>, placed: nat): (r: Option<Progress>)
    decreases |networks|
  {
    if networks == [] then Some(Progress(s, placed, false))
    else
      match ScheduleNetwork(s, env, networks[0], placed)
      case None => None
      case Some(p) => if p.stopped then Some(p) else ScheduleTasks(p.s, env, networks[1..], p.placed)
  }
}
