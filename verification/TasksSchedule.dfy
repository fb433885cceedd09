/** The scheduler: no underflow, never too many tasks, and no task left waiting when there is room. */
module TasksSchedule {
  import opened Options
  import opened FiniteSets
  import opened Sequences
  import opened TasksSpec
  import opened TasksInvariant

  // --------------------------------------------------------------------- accounting

  ghost function PlacedOn(home: Home, s: Store, n: Network): (r: set<TaskId>) {
    set t | t in s.taskShard && home(s.taskShard[t]) == n
  }

  /** The current reader, when no shard has it. */
  ghost function IdleReader(s: Store, n: Network): (r: set<TaskId>) {
    if n in s.readTask && s.readTask[n] !in s.taskShard then {s.readTask[n]} else {}
  }

  lemma Apart(home: Home, h: History, s: Store, n: Network)
    requires Good(home, h, s)
    ensures CountedOn(h, n) !! Elements(QueueOf(s, n)) && CountedOn(h, n) + Elements(QueueOf(s, n)) <= CreatedOn(h, n)
    ensures PlacedOn(home, s, n) !! (CountedOn(h, n) + Elements(QueueOf(s, n)))
            && PlacedOn(home, s, n) <= CreatedOn(h, n)
    ensures IdleReader(s, n) !! (CountedOn(h, n) + Elements(QueueOf(s, n)) + PlacedOn(home, s, n))
            && IdleReader(s, n) <= CreatedOn(h, n)
  {
    hide Counters, Links, Infos, Batched, NoDuplicates;
    assert QueueOk(h, n, s.taskShard, QueueOf(s, n));
    if n in s.readTask {
      assert ReaderOk(h, s, n, s.readTask[n]);
    }
  }

  lemma FourParts(all: set<TaskId>, a: set<TaskId>, b: set<TaskId>, c: set<TaskId>, d: set<TaskId>)
    requires a !! b && c !! (a + b) && d !! (a + b + c) && a + b <= all && c <= all && d <= all
    ensures |all| >= |a| + |b| + |c| + |d|
  {
    assert |a + b + c + d| == |a| + |b| + |c| + |d|;
    SubsetSize(a + b + c + d, all);
  }

  /** Executed, queued, assigned and the idle reader are all among the tasks created, and none twice. */
  lemma Accounting(home: Home, h: History, s: Store, n: Network)
    requires Good(home, h, s)
    ensures CreatedCount(s, n) >= ExecutedCount(s, n) + |QueueOf(s, n)| + |PlacedOn(home, s, n)| + |IdleReader(s, n)|
    ensures n in s.readTask ==> CreatedCount(s, n) > ExecutedCount(s, n)
  {
    Apart(home, h, s, n);
    QueueParts(home, h, s, n);
    hide Good, CountedOn, CreatedOn, NoDuplicates, Elements;
    NoDuplicatesSize(QueueOf(s, n));
    FourParts(CreatedOn(h, n), CountedOn(h, n), Elements(QueueOf(s, n)), PlacedOn(home, s, n), IdleReader(s, n));
    if n in s.readTask {
      assert s.readTask[n] in PlacedOn(home, s, n) + IdleReader(s, n) by { ReaderSomewhere(home, h, s, n); }
    }
  }

  lemma QueueParts(home: Home, h: History, s: Store, n: Network)
    requires Good(home, h, s)
    ensures NoDuplicates(QueueOf(s, n)) && CreatedCount(s, n) == |CreatedOn(h, n)|
            && ExecutedCount(s, n) == |CountedOn(h, n)|
  {
    hide Links, Infos, Batched, CreatedOn, CountedOn, Readers, Placed;
    assert QueueOk(h, n, s.taskShard, QueueOf(s, n));
  }

  lemma ReaderSomewhere(home: Home, h: History, s: Store, n: Network)
    requires Good(home, h, s) && n in s.readTask
    ensures s.readTask[n] in PlacedOn(home, s, n) + IdleReader(s, n)
  {
    hide Counters, Links, Infos, Batched, Queues;
    assert ReaderOk(h, s, n, s.readTask[n]);
  }

  // ------------------------------------------------------------------- one shard

  /** Scheduling changes the queues and the assignments and nothing else. */
  ghost predicate OnlySchedules(s: Store, s': Store) {
    s' == s.(queue := s'.queue, shardTasks := s'.shardTasks, taskShard := s'.taskShard, shardCount := s'.shardCount)
  }

  ghost function Popped(s: Store, n: Network): (s': Store)
    requires QueueOf(s, n) != []
  {
    s.(queue := s.queue[n := QueueOf(s, n)[1..]])
  }

  lemma PoppedQueues(h: History, s: Store, n: Network)
    requires Queues(h, s) && QueueOf(s, n) != []
    ensures Queues(h, Popped(s, n))
    ensures var t := QueueOf(s, n)[0]; Waits(h, n, s.taskShard, t) && t !in QueueOf(Popped(s, n), n)
  {
    hide NoDuplicates;
    var s' := Popped(s, n);
    assert QueueOk(h, n, s.taskShard, QueueOf(s, n));
    TailDistinct(QueueOf(s, n));
    forall k ensures QueueOk(h, k, s'.taskShard, QueueOf(s', k)) {
      assert QueueOk(h, k, s.taskShard, QueueOf(s, k));
    }
  }

  lemma PoppedReaders(h: History, s: Store, n: Network)
    requires Readers(h, s) && QueueOf(s, n) != []
    ensures Readers(h, Popped(s, n))
  {
    var s' := Popped(s, n);
    forall k | k in s'.readTask ensures ReaderOk(h, s', k, s'.readTask[k]) {
      assert ReaderOk(h, s, k, s.readTask[k]);
    }
  }

  lemma PopKeeps(home: Home, h: History, s: Store, n: Network)
    requires Good(home, h, s) && QueueOf(s, n) != []
    ensures Good(home, h, Popped(s, n))
    ensures var t := QueueOf(s, n)[0]; Waits(h, n, s.taskShard, t) && t !in QueueOf(Popped(s, n), n)
  {
    hide Links, Queues, Readers, Counters, Batched, Ids, Waits;
    PoppedQueues(h, s, n);
    PoppedReaders(h, s, n);
    LinksFrame(s, Popped(s, n));
    CountersFrame(h, s, Popped(s, n));
    BatchedFrame(s, Popped(s, n));
  }

  lemma BatchedFrame(s: Store, s': Store)
    requires Batched(s) && s'.tasks == s.tasks && s'.batchTask == s.batchTask && s'.nextBatch == s.nextBatch
    requires s'.pending == s.pending && s'.failed == s.failed
    ensures Batched(s')
  {}

  /** Nobody loses a task, and the tasks newly given were waiting for network n and are all with shard sh. */
  ghost predicate Gives(s: Store, n: Network, sh: Shard, s': Store) {
    && (forall t :: t in s.taskShard ==> t in s'.taskShard && s'.taskShard[t] == s.taskShard[t])
    && (forall t :: t in s'.taskShard && t !in s.taskShard ==> t in QueueOf(s, n) && s'.taskShard[t] == sh)
  }

  function Least(a: nat, b: nat): (r: nat) {
    if a < b then a else b
  }

  function Larger(a: nat, b: nat): (r: nat) {
    if a < b then b else a
  }

  /** k tasks moved from the front of the queue of n to shard sh. */
  ghost predicate Moves(s: Store, n: Network, sh: Shard, k: nat, s': Store) {
    && OnlySchedules(s, s') && k <= |QueueOf(s, n)| && QueueOf(s', n) == QueueOf(s, n)[k..]
    && (forall m :: m != n ==> QueueOf(s', m) == QueueOf(s, m))
    && CountOf(s', sh) == CountOf(s, sh) + k && (forall x :: x != sh ==> CountOf(s', x) == CountOf(s, x))
    && |s'.taskShard| == |s.taskShard| + k && Gives(s, n, sh, s')
  }

  lemma OneMoves(s: Store, n: Network, sh: Shard)
    requires QueueOf(s, n) != [] && QueueOf(s, n)[0] !in s.taskShard
    ensures Moves(s, n, sh, 1, AssignTask(Popped(s, n), sh, QueueOf(s, n)[0]))
  {
    hide AssignTask, Gives, Places;
    var s1 := Popped(s, n);
    var t := QueueOf(s, n)[0];
    AssignPlaces(s1, sh, t);
    PlacesGives(s, n, sh, AssignTask(s1, sh, t));
    PlacesMoves(s, n, sh, AssignTask(s1, sh, t));
  }

  lemma PlacesGives(s: Store, n: Network, sh: Shard, s': Store)
    requires QueueOf(s, n) != [] && Places(Popped(s, n), sh, QueueOf(s, n)[0], s')
    requires QueueOf(s, n)[0] !in s.taskShard
    ensures Gives(s, n, sh, s')
  {
    hide CountOf, TasksOf, QueueOf;
  }

  lemma PlacesMoves(s: Store, n: Network, sh: Shard, s': Store)
    requires QueueOf(s, n) != [] && Places(Popped(s, n), sh, QueueOf(s, n)[0], s')
    requires QueueOf(s, n)[0] !in s.taskShard && Gives(s, n, sh, s')
    ensures Moves(s, n, sh, 1, s')
  {
    hide Gives, TasksOf;
    GrowsByOne(s.taskShard, QueueOf(s, n)[0], sh);
  }

  lemma GrowsByOne(m: map<TaskId, Shard>, t: TaskId, sh: Shard)
    requires t !in m
    ensures |m[t := sh]| == |m| + 1
  {
    assert m[t := sh].Keys == m.Keys + {t};
    assert |m.Keys + {t}| == |m.Keys| + 1;
  }

  lemma MovesTrans(s: Store, n: Network, sh: Shard, j: nat, s1: Store, k: nat, s2: Store)
    requires Moves(s, n, sh, j, s1) && Moves(s1, n, sh, k, s2)
    ensures Moves(s, n, sh, j + k, s2)
  {
    hide QueueOf, CountOf;
    assert QueueOf(s, n)[j..][k..] == QueueOf(s, n)[j + k..];
  }

  lemma NothingMoves(s: Store, n: Network, sh: Shard)
    ensures Moves(s, n, sh, 0, s)
  {}

  /** A shard is given as many waiting tasks as it has capacity for. */
  lemma {:induction false} ShardMoves(home: Home, h: History, s: Store, n: Network, sh: Shard, capacity: nat)
    requires Good(home, h, s) && home(sh) == n
    ensures var (s', k) := ScheduleShard(s, n, sh, capacity);
            Good(home, h, s') && Moves(s, n, sh, k, s') && k == Least(capacity, |QueueOf(s, n)|)
    decreases capacity
  {
    hide Good, Moves, AssignTask;
    if capacity == 0 || QueueOf(s, n) == [] {
      NothingMoves(s, n, sh);
    } else {
      var t := QueueOf(s, n)[0];
      var s0 := Popped(s, n);
      var s1 := AssignTask(s0, sh, t);
      PopKeeps(home, h, s, n);
      AssignKeeps(home, h, s0, sh, t);
      OneMoves(s, n, sh);
      ShardMoves(home, h, s1, n, sh, capacity - 1);
      var (s2, k) := ScheduleShard(s1, n, sh, capacity - 1);
      MovesTrans(s, n, sh, 1, s1, k, s2);
      MovedLength(s, n, sh, s1);
    }
  }

  lemma MovedLength(s: Store, n: Network, sh: Shard, s1: Store)
    requires Moves(s, n, sh, 1, s1)
    ensures |QueueOf(s1, n)| == |QueueOf(s, n)| - 1
  {}

  // ------------------------------------------------------------------- all shards

  /** How many more tasks the shards can take until each has `each`. */
  ghost function Room(s: Store, shards: seq<Shard>, each: nat): (r: nat) {
    if shards == [] then 0 else Minus(each, CountOf(s, shards[0])) + Room(s, shards[1..], each)
  }

  lemma {:induction false} RoomFrame(s: Store, s': Store, shards: seq<Shard>, each: nat)
    requires forall x :: x in shards ==> CountOf(s', x) == CountOf(s, x)
    ensures Room(s', shards, each) == Room(s, shards, each)
  {
    if shards != [] {
      RoomFrame(s, s', shards[1..], each);
    }
  }

  /** The listed shards of network n that are online and whose key its gateway has registered. */
  ghost function Fillable(s: Store, env: Env, n: Network): (r: set<Shard>) {
    set sh | sh in env.Shards(n) && sh in env.keys && env.keys[sh] in s.registered && sh in env.online
  }

  /** Only the reader may go to any listed shard; what waits in the queue goes to registered online ones. */
  ghost predicate MayGive(s: Store, env: Env, n: Network, t: TaskId, sh: Shard) {
    || (n in s.readTask && t == s.readTask[n] && sh in env.Shards(n))
    || (t in QueueOf(s, n) && sh in Fillable(s, env, n))
  }

  /** Nobody loses a task, and the new assignments are for network n and allowed. */
  ghost predicate GivesOn(s: Store, env: Env, n: Network, s': Store) {
    && (forall t :: t in s.taskShard ==> t in s'.taskShard && s'.taskShard[t] == s.taskShard[t])
    && (forall t :: t in s'.taskShard && t !in s.taskShard ==> MayGive(s, env, n, t, s'.taskShard[t]))
    && (forall t :: t in QueueOf(s', n) ==> t in QueueOf(s, n))
  }

  /** What scheduling for network n may do within the limits. */
  ghost predicate Within(home: Home, s: Store, env: Env, n: Network, placed: nat, p: Progress) {
    && OnlySchedules(s, p.s) && (forall m :: m != n ==> QueueOf(p.s, m) == QueueOf(s, m))
    && GivesOn(s, env, n, p.s)
    && placed <= p.placed <= Larger(placed, env.maxTasks)
    && |p.s.taskShard| == |s.taskShard| + (p.placed - placed)
    && (forall sh :: CountOf(p.s, sh) <= Larger(CountOf(s, sh), env.Limit(home(sh))))
  }

  lemma WithinItself(home: Home, s: Store, env: Env, n: Network, placed: nat, stopped: bool)
    ensures Within(home, s, env, n, placed, Progress(s, placed, stopped))
  {}

  lemma MovesWithin(home: Home, s: Store, env: Env, n: Network, sh: Shard, k: nat, s1: Store, placed: nat, each: nat,
                    stopped: bool)
    requires Moves(s, n, sh, k, s1) && home(sh) == n && k <= Minus(each, CountOf(s, sh)) && each <= env.Limit(n)
    requires placed + k <= Larger(placed, env.maxTasks) && sh in Fillable(s, env, n)
    ensures Within(home, s, env, n, placed, Progress(s1, placed + k, stopped))
  {
    hide QueueOf, CountOf, Fillable;
  }

  lemma WithinTrans(home: Home, s: Store, env: Env, n: Network, placed: nat, p: Progress, p': Progress)
    requires Within(home, s, env, n, placed, p) && Within(home, p.s, env, n, p.placed, p')
    ensures Within(home, s, env, n, placed, p')
  {
    hide QueueOf, CountOf, GivesOn;
    GivesTrans(s, env, n, p.s, p'.s);
    forall sh ensures CountOf(p'.s, sh) <= Larger(CountOf(s, sh), env.Limit(home(sh))) {
      assert CountOf(p.s, sh) <= Larger(CountOf(s, sh), env.Limit(home(sh)));
    }
  }

  lemma GivesTrans(s: Store, env: Env, n: Network, s1: Store, s2: Store)
    requires OnlySchedules(s, s1) && GivesOn(s, env, n, s1) && GivesOn(s1, env, n, s2)
    ensures GivesOn(s, env, n, s2)
  {
    hide QueueOf;
    assert Fillable(s1, env, n) == Fillable(s, env, n);
    hide Fillable;
    forall t | t in s2.taskShard && t !in s.taskShard ensures MayGive(s, env, n, t, s2.taskShard[t]) {
      if t !in s1.taskShard {
        assert MayGive(s1, env, n, t, s2.taskShard[t]);
      }
    }
  }

  lemma {:induction false} FillFacts(home: Home, h: History, s: Store, env: Env, n: Network, shards: seq<Shard>,
                                     each: nat, placed: nat)
    requires Good(home, h, s) && NoDuplicates(shards) && (forall x :: x in shards ==> home(x) == n)
             && each <= env.Limit(n)
    requires forall x :: x in shards ==> x in Fillable(s, env, n)
    ensures var p := FillShards(s, env, n, shards, each, placed);
            && Good(home, h, p.s) && Within(home, s, env, n, placed, p)
            && (!p.stopped ==> |QueueOf(p.s, n)| == Minus(|QueueOf(s, n)|, Room(s, shards, each)))
            && (p.stopped && placed <= env.maxTasks ==> p.placed == env.maxTasks || QueueOf(p.s, n) == [])
    decreases |shards|
  {
    hide Good, Within, ScheduleShard, NoDuplicates, CountOf, QueueOf, Moves, Fillable;
    if shards == [] {
      WithinItself(home, s, env, n, placed, false);
    } else {
      var sh := shards[0];
      var capacity := Minus(each, CountOf(s, sh));
      TailDistinct(shards);
      if env.maxTasks > placed + capacity {
        var (s1, k) := ScheduleShard(s, n, sh, capacity);
        ShardMoves(home, h, s, n, sh, capacity);
        MovesWithin(home, s, env, n, sh, k, s1, placed, each, false);
        SameFillable(s, n, sh, k, s1, env);
        FillFacts(home, h, s1, env, n, shards[1..], each, placed + k);
        MovedAway(s, n, sh, k, s1, shards[1..]);
        RoomFrame(s, s1, shards[1..], each);
        WithinTrans(home, s, env, n, placed, Progress(s1, placed + k, false),
                    FillShards(s1, env, n, shards[1..], each, placed + k));
      } else {
        var capped := Minus(env.maxTasks, placed);
        var (s1, k) := ScheduleShard(s, n, sh, capped);
        ShardMoves(home, h, s, n, sh, capped);
        MovedAway(s, n, sh, k, s1, []);
        MovesWithin(home, s, env, n, sh, k, s1, placed, each, true);
      }
    }
  }

  lemma SameFillable(s: Store, n: Network, sh: Shard, k: nat, s1: Store, env: Env)
    requires Moves(s, n, sh, k, s1)
    ensures Fillable(s1, env, n) == Fillable(s, env, n)
  {
    hide Gives, QueueOf, CountOf;
  }

  lemma MovedAway(s: Store, n: Network, sh: Shard, k: nat, s1: Store, others: seq<Shard>)
    requires Moves(s, n, sh, k, s1) && sh !in others
    ensures |QueueOf(s1, n)| == |QueueOf(s, n)| - k && forall x :: x in others ==> CountOf(s1, x) == CountOf(s, x)
  {}

  // ------------------------------------------------------------------------ enough room

  ghost function SumCounts(s: Store, shards: seq<Shard>): (r: nat) {
    if shards == [] then 0 else CountOf(s, shards[0]) + SumCounts(s, shards[1..])
  }

  ghost function HeldBy(s: Store, shards: seq<Shard>): (r: set<TaskId>) {
    set t | t in s.taskShard && s.taskShard[t] in shards
  }

  lemma {:induction false} HeldSize(s: Store, shards: seq<Shard>)
    requires Links(s) && NoDuplicates(shards)
    ensures |HeldBy(s, shards)| == SumCounts(s, shards)
  {
    if shards == [] {
      assert HeldBy(s, shards) == {};
    } else {
      TailDistinct(shards);
      HeldSize(s, shards[1..]);
      HeldSplit(s, shards);
    }
  }

  lemma HeldSplit(s: Store, shards: seq<Shard>)
    requires Links(s) && shards != [] && shards[0] !in shards[1..]
    ensures |HeldBy(s, shards)| == CountOf(s, shards[0]) + |HeldBy(s, shards[1..])|
  {
    var sh := shards[0];
    assert CountOf(s, sh) == |TasksOf(s, sh)|;
    forall t ensures t in HeldBy(s, shards) <==> t in TasksOf(s, sh) || t in HeldBy(s, shards[1..]) {
      assert shards == [sh] + shards[1..];
    }
    assert HeldBy(s, shards) == TasksOf(s, sh) + HeldBy(s, shards[1..]);
    assert TasksOf(s, sh) !! HeldBy(s, shards[1..]);
  }

  lemma {:induction false} RoomEnough(s: Store, shards: seq<Shard>, each: nat)
    ensures Room(s, shards, each) + SumCounts(s, shards) >= |shards| * each
  {
    if shards != [] {
      RoomEnough(s, shards[1..], each);
      assert |shards| * each == (|shards| - 1) * each + each;
    }
  }

  lemma CeilEnough(a: nat, k: nat)
    requires a > 0 && k > 0
    ensures k * ((a - 1) / k + 1) >= a
  {
    var q := (a - 1) / k;
    assert a - 1 == k * q + (a - 1) % k;
    assert k * (q + 1) == k * q + k;
  }

  /** With the fair share for each shard there is room for every waiting task of the network. */
  lemma FairShareSuffices(home: Home, h: History, s: Store, n: Network, shards: seq<Shard>, each: nat)
    requires Good(home, h, s) && NoDuplicates(shards) && forall x :: x in shards ==> home(x) == n
    requires |shards| * each >= CreatedCount(s, n) - ExecutedCount(s, n)
    ensures Room(s, shards, each) >= |QueueOf(s, n)|
  {
    LinksOf(home, h, s);
    hide Good, Links, NoDuplicates, Room, SumCounts, QueueOf, CreatedCount, ExecutedCount;
    Accounting(home, h, s, n);
    HeldSize(s, shards);
    RoomEnough(s, shards, each);
    assert HeldBy(s, shards) <= PlacedOn(home, s, n);
    SubsetSize(HeldBy(s, shards), PlacedOn(home, s, n));
  }

  lemma LinksOf(home: Home, h: History, s: Store)
    requires Good(home, h, s)
    ensures Links(s)
  {}

  // ------------------------------------------------------------------------ one network

  lemma {:induction false} ReaderFacts(home: Home, h: History, s: Store, env: Env, n: Network, shards: seq<Shard>,
                                       placed: nat)
    requires Good(home, h, s) && placed <= env.maxTasks
    requires forall x :: x in shards ==> home(x) == n && x in env.Shards(n)
    ensures var p := ScheduleReader(s, env, n, shards, placed);
            && Good(home, h, p.s) && Within(home, s, env, n, placed, p) && QueueOf(p.s, n) == QueueOf(s, n)
            && (p.stopped ==> p.placed == env.maxTasks)
            && (p.stopped || n !in s.readTask || s.readTask[n] in p.s.taskShard
                || forall x :: x in shards ==> CountOf(s, x) >= env.Limit(n))
    decreases |shards|
  {
    hide Good, Within, AssignTask, CountOf, QueueOf;
    if n !in s.readTask || s.readTask[n] in s.taskShard || shards == [] {
      WithinItself(home, s, env, n, placed, false);
    } else if CountOf(s, shards[0]) < env.Limit(n) {
      if placed == env.maxTasks {
        WithinItself(home, s, env, n, placed, true);
      } else {
        GiveReader(home, h, s, env, n, shards[0], placed);
      }
    } else {
      ReaderFacts(home, h, s, env, n, shards[1..], placed);
    }
  }

  lemma GiveReader(home: Home, h: History, s: Store, env: Env, n: Network, sh: Shard, placed: nat)
    requires Good(home, h, s) && home(sh) == n && n in s.readTask && s.readTask[n] !in s.taskShard
             && CountOf(s, sh) < env.Limit(n)
    requires placed < env.maxTasks && sh in env.Shards(n)
    ensures var s' := AssignTask(s, sh, s.readTask[n]);
            && Good(home, h, s') && QueueOf(s', n) == QueueOf(s, n) && s.readTask[n] in s'.taskShard
            && Within(home, s, env, n, placed, Progress(s', placed + 1, false))
  {
    hide Good, AssignTask;
    var t := s.readTask[n];
    var s' := AssignTask(s, sh, t);
    ReaderPart(home, h, s, n);
    AssignKeeps(home, h, s, sh, t);
    AssignPlaces(s, sh, t);
    GrowsByOne(s.taskShard, t, sh);
  }

  lemma ReaderPart(home: Home, h: History, s: Store, n: Network)
    requires Good(home, h, s) && n in s.readTask
    ensures ReaderOk(h, s, n, s.readTask[n])
  {
    hide ReaderOk;
  }

  lemma {:induction false} RegisteredFacts(s: Store, env: Env, shards: seq<Shard>)
    requires NoDuplicates(shards)
    ensures var r := Registered(s, env, shards);
            && NoDuplicates(r)
            && forall x :: x in r <==> x in shards && x in env.keys && env.keys[x] in s.registered && x in env.online
  {
    if shards != [] {
      var k := |shards| - 1;
      assert shards == shards[..k] + [shards[k]];
      NotInPrefix(shards, k);
      RegisteredFacts(s, env, shards[..k]);
      var r := Registered(s, env, shards[..k]);
      assert shards[k] !in r;
      AppendNoDuplicates(r, [shards[k]]);
      assert r + [] == r;
    }
  }

  lemma RegisteredIsFillable(s: Store, env: Env, n: Network)
    requires NoDuplicates(env.Shards(n))
    ensures var r := Registered(s, env, env.Shards(n));
            && NoDuplicates(r) && |r| == |Fillable(s, env, n)|
            && (forall x :: x in r <==> x in Fillable(s, env, n)) && forall x :: x in r ==> x in env.Shards(n)
  {
    hide Registered, NoDuplicates;
    RegisteredFacts(s, env, env.Shards(n));
    var r := Registered(s, env, env.Shards(n));
    NoDuplicatesSize(r);
    assert Elements(r) == Fillable(s, env, n);
  }

  lemma {:induction false} RegisteredFrame(s: Store, s': Store, env: Env, shards: seq<Shard>)
    requires s'.registered == s.registered
    ensures Registered(s', env, shards) == Registered(s, env, shards)
  {
    if shards != [] {
      RegisteredFrame(s, s', env, shards[..|shards| - 1]);
    }
  }

  /** ceil(a / k), the fair share of a tasks among k shards. */
  function FairShare(a: nat, k: nat): (r: nat)
    requires a > 0 && k > 0
  {
    (a - 1) / k + 1
  }

  lemma ShareComputed(created: nat, executed: nat, shards: nat, limit: nat)
    requires shards > 0 && executed < created && created - executed < U32
    ensures TasksPerShard(created, executed, shards, limit) == Some(Least(FairShare(created - executed, shards), limit))
  {
    SmallMod(created - executed, U32);
  }

  lemma SmallMod(a: nat, m: nat)
    requires a < m
    ensures a % m == a
  {}

  /** Every task of network n that waits gets a shard, if the fair share is within the limit. */
  ghost predicate Drained(s: Store, env: Env, n: Network, p: Progress)
  {
    var k := |Fillable(s, env, n)|;
    var a := CreatedCount(s, n) - ExecutedCount(s, n);
    k > 0 && a > 0 && FairShare(a, k) <= env.Limit(n) && !p.stopped ==> QueueOf(p.s, n) == []
  }

  lemma FillDrains(home: Home, h: History, s: Store, env: Env, n: Network, shards: seq<Shard>, placed: nat)
    requires Good(home, h, s) && NoDuplicates(shards) && (forall x :: x in shards ==> home(x) == n) && shards != []
             && n in s.readTask
    requires forall x :: x in shards ==> x in Fillable(s, env, n)
    requires CreatedCount(s, n) - ExecutedCount(s, n) < U32
    ensures CreatedCount(s, n) > ExecutedCount(s, n)
    ensures var a := CreatedCount(s, n) - ExecutedCount(s, n);
            var each := Least(FairShare(a, |shards|), env.Limit(n));
            var p := FillShards(s, env, n, shards, each, placed);
            && TasksPerShard(CreatedCount(s, n), ExecutedCount(s, n), |shards|, env.Limit(n)) == Some(each)
            && Good(home, h, p.s) && Within(home, s, env, n, placed, p)
            && (FairShare(a, |shards|) <= env.Limit(n) && !p.stopped ==> QueueOf(p.s, n) == [])
            && (p.stopped && placed <= env.maxTasks ==> p.placed == env.maxTasks || QueueOf(p.s, n) == [])
  {
    hide Good, Within, NoDuplicates, FillShards, TasksPerShard, QueueOf, CreatedCount, ExecutedCount, FairShare, Room,
         PlacedOn, IdleReader, Fillable;
    Accounting(home, h, s, n);
    var a := CreatedCount(s, n) - ExecutedCount(s, n);
    ShareComputed(CreatedCount(s, n), ExecutedCount(s, n), |shards|, env.Limit(n));
    var each := Least(FairShare(a, |shards|), env.Limit(n));
    FillFacts(home, h, s, env, n, shards, each, placed);
    if FairShare(a, |shards|) <= env.Limit(n) {
      ShareCovers(a, |shards|);
      FairShareSuffices(home, h, s, n, shards, each);
    }
  }

  lemma ShareCovers(a: nat, k: nat)
    requires a > 0 && k > 0
    ensures k * FairShare(a, k) >= a
  {
    CeilEnough(a, k);
  }

  /** One network is served within its bounds, and stops only at a full block or an empty queue. */
  ghost predicate Serves(home: Home, h: History, s: Store, env: Env, n: Network, placed: nat, p: Progress) {
    && Good(home, h, p.s) && Within(home, s, env, n, placed, p) && Drained(s, env, n, p)
    && (p.stopped ==> p.placed == env.maxTasks || QueueOf(p.s, n) == [])
  }

  /** Giving the reader to a shard changes no count and no registered shard. */
  lemma AfterReader(home: Home, s: Store, env: Env, n: Network, placed: nat, p: Progress)
    requires Within(home, s, env, n, placed, p) && placed <= env.maxTasks
    ensures CreatedCount(p.s, n) == CreatedCount(s, n) && ExecutedCount(p.s, n) == ExecutedCount(s, n)
    ensures p.s.readTask == s.readTask && p.placed <= env.maxTasks
    ensures Registered(p.s, env, env.Shards(n)) == Registered(s, env, env.Shards(n))
  {
    hide QueueOf, CountOf, GivesOn, Registered;
    RegisteredFrame(s, p.s, env, env.Shards(n));
  }

  lemma NetworkFacts(home: Home, h: History, s: Store, env: Env, n: Network, placed: nat)
    requires Good(home, h, s) && n in s.readTask && placed <= env.maxTasks
    requires NoDuplicates(env.Shards(n)) && forall x :: x in env.Shards(n) ==> home(x) == n
    requires CreatedCount(s, n) - ExecutedCount(s, n) < U32
    ensures var r := ScheduleNetwork(s, env, n, placed); r.Some? && Serves(home, h, s, env, n, placed, r.value)
  {
    hide Good, NoDuplicates, FillShards, TasksPerShard, QueueOf, FairShare, Registered, ScheduleReader, Within,
         CreatedCount, ExecutedCount, Fillable;
    var p := ScheduleReader(s, env, n, env.Shards(n), placed);
    var shards := Registered(p.s, env, env.Shards(n));
    ReaderFacts(home, h, s, env, n, env.Shards(n), placed);
    AfterReader(home, s, env, n, placed, p);
    RegisteredIsFillable(p.s, env, n);
    RegisteredIsFillable(s, env, n);
    if !p.stopped && shards != [] {
      FillDrains(home, h, p.s, env, n, shards, p.placed);
      WithinTrans(home, s, env, n, placed, p, ScheduleNetwork(s, env, n, placed).value);
    }
  }

  // ------------------------------------------------------------------------ the whole call

  /** The listings name shards of the right network, each once. */
  ghost predicate Listings(home: Home, s: Store, env: Env, networks: seq<Network>) {
    && NoDuplicates(networks)
    && forall n :: n in networks ==>
         n in s.readTask && NoDuplicates(env.Shards(n)) && forall x :: x in env.Shards(n) ==> home(x) == n
  }

  /** No network has 2^32 or more unexecuted tasks. */
  ghost predicate Narrow(s: Store, networks: seq<Network>) {
    forall n :: n in networks ==> CreatedCount(s, n) - ExecutedCount(s, n) < U32
  }

  /** What one call of the scheduler promises. */
  ghost predicate Schedules(home: Home, s: Store, env: Env, networks: seq<Network>, placed: nat, p: Progress) {
    && OnlySchedules(s, p.s) && placed <= p.placed <= env.maxTasks
    && |p.s.taskShard| == |s.taskShard| + (p.placed - placed)
    && (forall sh :: CountOf(p.s, sh) <= Larger(CountOf(s, sh), env.Limit(home(sh))))
    && (forall n :: n !in networks ==> QueueOf(p.s, n) == QueueOf(s, n))
    && (forall n :: n in networks ==> Drained(s, env, n, p))
    && (forall t :: t in s.taskShard ==> t in p.s.taskShard && p.s.taskShard[t] == s.taskShard[t])
    && (forall t :: t in p.s.taskShard && t !in s.taskShard ==> GivenSomewhere(s, env, networks, t, p.s.taskShard[t]))
    && (p.stopped ==> p.placed == env.maxTasks || exists n :: n in networks && QueueOf(p.s, n) == [])
  }

  ghost predicate GivenSomewhere(s: Store, env: Env, networks: seq<Network>, t: TaskId, sh: Shard) {
    exists n :: n in networks && MayGive(s, env, n, t, sh)
  }

  lemma DrainedLater(s: Store, env: Env, n: Network, p: Progress, p': Progress)
    requires Drained(s, env, n, p) && !p.stopped && QueueOf(p'.s, n) == QueueOf(p.s, n)
    ensures Drained(s, env, n, p')
  {}

  lemma DrainedFrame(s: Store, s1: Store, env: Env, n: Network, p: Progress)
    requires OnlySchedules(s, s1) && Drained(s1, env, n, p)
    ensures Drained(s, env, n, p)
  {
    assert Fillable(s1, env, n) == Fillable(s, env, n);
  }

  lemma DrainedStopped(s: Store, env: Env, n: Network, p: Progress)
    requires p.stopped
    ensures Drained(s, env, n, p)
  {}

  lemma FirstStops(home: Home, s: Store, env: Env, networks: seq<Network>, placed: nat, p: Progress)
    requires networks != [] && Within(home, s, env, networks[0], placed, p) && placed <= env.maxTasks && p.stopped
    requires p.placed == env.maxTasks || QueueOf(p.s, networks[0]) == []
    ensures Schedules(home, s, env, networks, placed, p)
  {
    hide Drained, CountOf, QueueOf, MayGive;
    forall n | n in networks ensures Drained(s, env, n, p) {
      DrainedStopped(s, env, n, p);
    }
  }

  lemma ThenRest(home: Home, s: Store, env: Env, networks: seq<Network>, placed: nat, p: Progress, p': Progress)
    requires networks != [] && networks[0] !in networks[1..] && placed <= env.maxTasks && !p.stopped
    requires Within(home, s, env, networks[0], placed, p) && Drained(s, env, networks[0], p)
    requires Schedules(home, p.s, env, networks[1..], p.placed, p')
    ensures Schedules(home, s, env, networks, placed, p')
  {
    hide Drained, CountOf, QueueOf, MayGive;
    forall t | t in p'.s.taskShard && t !in s.taskShard
      ensures GivenSomewhere(s, env, networks, t, p'.s.taskShard[t])
    {
      if t in p.s.taskShard {
        assert MayGive(s, env, networks[0], t, p'.s.taskShard[t]);
      } else {
        var n :| n in networks[1..] && MayGive(p.s, env, n, t, p'.s.taskShard[t]);
        GiveFrame(home, s, env, networks[0], placed, p, n, t, p'.s.taskShard[t]);
      }
    }
    forall n | n in networks ensures Drained(s, env, n, p') {
      if n == networks[0] {
        DrainedLater(s, env, n, p, p');
      } else {
        assert n in networks[1..];
        DrainedFrame(s, p.s, env, n, p');
      }
    }
    forall sh ensures CountOf(p'.s, sh) <= Larger(CountOf(s, sh), env.Limit(home(sh))) {
      assert CountOf(p.s, sh) <= Larger(CountOf(s, sh), env.Limit(home(sh)));
    }
  }

  lemma GiveFrame(home: Home, s: Store, env: Env, n: Network, placed: nat, p: Progress, m: Network, t: TaskId,
                  sh: Shard)
    requires Within(home, s, env, n, placed, p) && m != n && MayGive(p.s, env, m, t, sh)
    ensures MayGive(s, env, m, t, sh)
  {
    hide CountOf, GivesOn;
  }

  lemma NarrowFrame(home: Home, s: Store, env: Env, n: Network, placed: nat, p: Progress, networks: seq<Network>)
    requires networks != [] && Within(home, s, env, n, placed, p) && Narrow(s, networks)
             && Listings(home, s, env, networks)
    ensures Narrow(p.s, networks[1..]) && Listings(home, p.s, env, networks[1..]) && networks[0] !in networks[1..]
  {
    hide NoDuplicates, CountOf, QueueOf;
    TailDistinct(networks);
    forall m | m in networks[1..] ensures CreatedCount(p.s, m) - ExecutedCount(p.s, m) < U32 {
      assert m in networks;
      assert CreatedCount(p.s, m) == CreatedCount(s, m) && ExecutedCount(p.s, m) == ExecutedCount(s, m);
    }
  }

  lemma NoNetworks(home: Home, s: Store, env: Env, placed: nat)
    requires placed <= env.maxTasks
    ensures Schedules(home, s, env, [], placed, Progress(s, placed, false))
  {}

  /**
    The scheduler never underflows, assigns at most MaxTasksPerBlock tasks, pushes no shard past its
    limit, and unless it stops early empties the queue of every network whose fair share is within
    the limit.
   */
  lemma {:induction false} SchedulerWorks(home: Home, h: History, s: Store, env: Env, networks: seq<Network>,
                                          placed: nat)
    requires Good(home, h, s) && Listings(home, s, env, networks) && Narrow(s, networks) && placed <= env.maxTasks
    ensures var r := ScheduleTasks(s, env, networks, placed);
            r.Some? && Good(home, h, r.value.s) && Schedules(home, s, env, networks, placed, r.value)
    decreases |networks|
  {
    hide Good, Within, Drained, Schedules, ScheduleNetwork, NoDuplicates;
    if networks == [] {
      NoNetworks(home, s, env, placed);
    } else {
      var n := networks[0];
      NetworkFacts(home, h, s, env, n, placed);
      var p := ScheduleNetwork(s, env, n, placed).value;
      if p.stopped {
        FirstStops(home, s, env, networks, placed, p);
      } else {
        NarrowFrame(home, s, env, n, placed, p, networks);
        PlacedBound(home, s, env, n, placed, p);
        SchedulerWorks(home, h, p.s, env, networks[1..], p.placed);
        ThenRest(home, s, env, networks, placed, p, ScheduleTasks(p.s, env, networks[1..], p.placed).value);
      }
    }
  }

  lemma PlacedBound(home: Home, s: Store, env: Env, n: Network, placed: nat, p: Progress)
    requires Within(home, s, env, n, placed, p) && placed <= env.maxTasks
    ensures p.placed <= env.maxTasks
  {}
}
