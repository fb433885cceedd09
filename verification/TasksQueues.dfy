/** The scheduler on the stored queue: taking tasks from it is taking them from the sequence it stands for. */
module TasksQueues {
  import opened Queue
  import opened TasksSpec
  import opened TasksMachine

  function Values<V>(entries: seq<(nat, V)>): (r: seq<V>)
    ensures |r| == |entries|
  {
    seq(|entries|, i requires 0 <= i < |entries| => entries[i].1)
  }

  /** The storage with the queue of the network that a stored queue stands for. */
  ghost function Standing(s: Store, n: Network, entries: seq<(nat, TaskId)>): (s': Store) {
    s.(queue := s.queue[n := Values(entries)])
  }

  lemma AssignStanding(s: Store, n: Network, entries: seq<(nat, TaskId)>, sh: Shard, capacity: nat)
    requires entries != [] && capacity > 0
    ensures var (s1, k) :=
            ScheduleShard(Standing(AssignTask(s, sh, entries[0].1), n, entries[1..]), n, sh, capacity - 1);
            ScheduleShard(Standing(s, n, entries), n, sh, capacity) == (s1, k + 1)
  {
    var s0 := Standing(s, n, entries);
    var t := entries[0].1;
    assert QueueOf(s0, n)[1..] == Values(entries[1..]);
    assert s0.queue[n := Values(entries[1..])] == s.queue[n := Values(entries[1..])];
    assert AssignTask(s0.(queue := s0.queue[n := QueueOf(s0, n)[1..]]), sh, t)
        == Standing(AssignTask(s, sh, t), n, entries[1..]);
  }

  /** `schedule_tasks_shard`, popping from the stored queue. */
  method ScheduleStored(pallet: TasksPallet, queue: StoredQueue<TaskId>, n: Network, sh: Shard, capacity: nat)
      returns (k: nat)
    requires queue.Valid()
    modifies pallet, queue
    ensures queue.Valid()
    ensures (Standing(pallet.store, n, queue.Contents()), k)
         == ScheduleShard(Standing(old(pallet.store), n, old(queue.Contents())), n, sh, capacity)
  {
    hide AssignTask;
    ghost var goal := ScheduleShard(Standing(pallet.store, n, queue.Contents()), n, sh, capacity);
    k := 0;
    for i := 0 to capacity
      invariant k == i && queue.Valid()
      invariant var r := ScheduleShard(Standing(pallet.store, n, queue.Contents()), n, sh, capacity - i);
                goal == (r.0, r.1 + k)
    {
      ghost var store, entries := pallet.store, queue.Contents();
      var task := queue.Pop();
      if task.None? {
        break;
      }
      AssignStanding(store, n, entries, sh, capacity - i);
      pallet.AssignTask(sh, task.value);
      k := k + 1;
    }
  }
}
