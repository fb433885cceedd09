/** Batching neither loses, duplicates nor reorders operations. */
module TasksBatches {
  import opened Sequences
  import opened TasksSpec
  import opened TasksInvariant

  function Concat(batches: seq<seq<Op>>): (r: seq<Op>) {
    if batches == [] then [] else batches[0] + Concat(batches[1..])
  }

  lemma {:induction false} ConcatLast(batches: seq<seq<Op>>, ops: seq<Op>)
    ensures Concat(batches + [ops]) == Concat(batches) + ops
  {
    if batches == [] {
      assert [ops][1..] == [];
      assert ops + [] == ops;
    } else {
      ConcatLast(batches[1..], ops);
      assert (batches + [ops])[1..] == batches[1..] + [ops];
      assert batches[0] + (Concat(batches[1..]) + ops) == batches[0] + Concat(batches[1..]) + ops;
    }
  }

  ghost predicate NoneEmpty(batches: seq<seq<Op>>) {
    forall i :: 0 <= i < |batches| ==> batches[i] != []
  }

  lemma ConcatFirst(first: seq<seq<Op>>, more: seq<seq<Op>>)
    requires |first| <= 1
    ensures Concat(first + more) == (if first == [] then [] else first[0]) + Concat(more)
  {
    if first == [] {
      assert first + more == more && [] + Concat(more) == Concat(more);
    } else {
      assert (first + more)[1..] == more;
    }
  }

  lemma Regroup(closes: bool, ops: seq<Op>, queue: seq<Op>)
    requires queue != []
    ensures var head := if closes then ops else [];
            var ops' := if closes then [queue[0]] else ops + [queue[0]];
            head + ops' + queue[1..] == ops + queue && head + (ops' + queue[1..]) == ops + queue
  {
    assert queue == [queue[0]] + queue[1..];
  }

  lemma NoOps()
    ensures Concat([]) == []
  {}

  lemma LastBatch(ops: seq<Op>)
    ensures ops == [] ==> Concat([]) + [] == ops + []
    ensures Concat([ops]) + [] == ops + []
  {
    assert Concat([ops]) == ops + Concat([ops][1..]);
  }

  lemma StopHere(first: seq<seq<Op>>, head: seq<Op>, ops': seq<Op>, rest: seq<Op>, all: seq<Op>)
    requires |first| <= 1 && head == (if first == [] then [] else first[0]) && head + ops' + rest == all
    ensures Concat(first + [ops']) + rest == all
  {
    ConcatLast(first, ops');
    ConcatFirst(first, []);
    assert first + [] == first && head + [] == head;
  }

  /** The batches made of a queue, one after the other, and the rest of the queue are the queue. */
  lemma {:induction false} BatchesConserve(queue: seq<Op>, ops: seq<Op>, limit: nat, started: nat, cap: nat)
    ensures var (batches, rest) := Batches(queue, ops, limit, started, cap);
            Concat(batches) + rest == ops + queue && NoneEmpty(batches)
    decreases |queue|
  {
    hide Concat;
    if queue == [] {
      LastBatch(ops);
    } else {
      var closes := queue[0].Gas() > limit && ops != [];
      var first := if closes then [ops] else [];
      var head := if closes then ops else [];
      var ops' := if closes then [queue[0]] else ops + [queue[0]];
      Regroup(closes, ops, queue);
      if started + |first| == cap {
        StopHere(first, head, ops', queue[1..], ops + queue);
      } else {
        var (more, rest) := Batches(queue[1..], ops', limit, started + |first|, cap);
        BatchesConserve(queue[1..], ops', limit, started + |first|, cap);
        ConcatFirst(first, more);
        Glue(head, Concat(more), rest, ops' + queue[1..], ops + queue);
      }
    }
  }

  lemma Glue(a: seq<Op>, b: seq<Op>, c: seq<Op>, bc: seq<Op>, abc: seq<Op>)
    requires b + c == bc && a + bc == abc
    ensures a + b + c == abc
  {
    assert a + (b + c) == a + b + c;
  }

  // ----------------------------------------------------------------------- batch gas

  /** No operation after the first exceeds the limit on its own. */
  ghost predicate TailWithin(ops: seq<Op>, limit: nat) {
    forall i :: 1 <= i < |ops| ==> ops[i].Gas() <= limit
  }

  /** Batches are cut exactly before the operations that exceed the limit on their own. */
  ghost predicate CutByGas(batches: seq<seq<Op>>, limit: nat) {
    && (forall i :: 0 <= i < |batches| ==> TailWithin(batches[i], limit))
    && (forall i :: 1 <= i < |batches| ==> batches[i] != [] && batches[i][0].Gas() > limit)
  }

  lemma CutMore(first: seq<Op>, more: seq<seq<Op>>, limit: nat)
    requires TailWithin(first, limit) && CutByGas(more, limit) && more != [] && more[0] != []
             && more[0][0].Gas() > limit
    ensures CutByGas([first] + more, limit)
  {
    hide TailWithin;
  }

  lemma CutOne(ops: seq<Op>, limit: nat)
    requires TailWithin(ops, limit)
    ensures CutByGas([ops], limit)
  {}

  lemma TailMore(ops: seq<Op>, op: Op, limit: nat)
    requires TailWithin(ops, limit) && (ops == [] || op.Gas() <= limit)
    ensures TailWithin(ops + [op], limit)
  {}

  lemma CutStep(op: Op, ops: seq<Op>, limit: nat, more: seq<seq<Op>>)
    requires TailWithin(ops, limit) && CutByGas(more, limit) && more != []
    requires var closes := op.Gas() > limit && ops != []; (if closes then [op] else ops + [op]) <= more[0]
    ensures var closes := op.Gas() > limit && ops != [];
            var all := (if closes then [ops] else []) + more;
            CutByGas(all, limit) && ops <= all[0]
  {
    hide TailWithin;
    if op.Gas() > limit && ops != [] {
      assert more[0][0] == op;
      CutMore(ops, more, limit);
    } else {
      assert [] + more == more && ops <= ops + [op];
    }
  }

  lemma {:induction false} BatchesCut(queue: seq<Op>, ops: seq<Op>, limit: nat, started: nat, cap: nat)
    requires TailWithin(ops, limit)
    ensures var batches := Batches(queue, ops, limit, started, cap).0;
            CutByGas(batches, limit) && (ops != [] ==> batches != [] && ops <= batches[0])
    decreases |queue|
  {
    if queue == [] {
      CutOne(ops, limit);
      assert CutByGas([], limit);
    } else {
      var op := queue[0];
      var closes := op.Gas() > limit && ops != [];
      var first := if closes then [ops] else [];
      var ops' := if closes then [op] else ops + [op];
      assert TailWithin(ops', limit) by {
        if !closes {
          TailMore(ops, op, limit);
        }
      }
      hide CutByGas, TailWithin;
      if started + |first| == cap {
        CutOne(ops', limit);
        CutStep(op, ops, limit, [ops']);
      } else {
        BatchesCut(queue[1..], ops', limit, started + |first|, cap);
        CutStep(op, ops, limit, Batches(queue[1..], ops', limit, started + |first|, cap).0);
      }
    }
  }

  function TotalGas(ops: seq<Op>): (g: nat) {
    if ops == [] then 0 else ops[0].Gas() + TotalGas(ops[1..])
  }

  lemma {:induction false} GasOfMember(ops: seq<Op>, op: Op)
    requires op in ops
    ensures op.Gas() <= TotalGas(ops)
  {
    if ops[0] != op {
      GasOfMember(ops[1..], op);
    }
  }

  ghost predicate NoneOver(ops: seq<Op>, limit: nat) {
    forall op :: op in ops ==> op.Gas() <= limit
  }

  /** With no operation over the limit there is a single batch, whatever its total. */
  lemma {:induction false} WholeBatch(queue: seq<Op>, ops: seq<Op>, limit: nat, started: nat, cap: nat)
    requires NoneOver(queue, limit) && started != cap
    ensures Batches(queue, ops, limit, started, cap) == (if ops + queue == [] then [] else [ops + queue], [])
    decreases |queue|
  {
    if queue == [] {
      assert ops + queue == ops;
    } else {
      WholeBatch(queue[1..], ops + [queue[0]], limit, started, cap);
      assert ops + [queue[0]] + queue[1..] == ops + queue;
      assert [] + [ops + queue] == [ops + queue];
    }
  }

  lemma OverOpens(queue: seq<Op>, ops: seq<Op>, limit: nat, started: nat, cap: nat) returns (i: nat)
    requires queue != [] && queue[0].Gas() > limit && started != cap && TailWithin(ops, limit)
    ensures var batches := Batches(queue, ops, limit, started, cap).0; i < |batches| && queue[0] in batches[i]
  {
    var first := if ops != [] then [ops] else [];
    i := |first|;
    if started + |first| != cap {
      var more := Batches(queue[1..], [queue[0]], limit, started + |first|, cap).0;
      BatchesCut(queue[1..], [queue[0]], limit, started + |first|, cap);
      hide CutByGas, TailWithin;
      assert more[0][0] == queue[0];
      assert (first + more)[i] == more[0];
      assert ops == [] ==> ops + [queue[0]] == [queue[0]];
    }
  }

  /** The first operation over the limit is always popped, into some batch. */
  lemma {:induction false} OverBatched(queue: seq<Op>, ops: seq<Op>, limit: nat, started: nat, cap: nat, k: nat)
      returns (i: nat)
    requires k < |queue| && queue[k].Gas() > limit && NoneOver(queue[..k], limit)
    requires started != cap && TailWithin(ops, limit)
    ensures var batches := Batches(queue, ops, limit, started, cap).0; i < |batches| && queue[k] in batches[i]
    decreases |queue|
  {
    if k == 0 {
      i := OverOpens(queue, ops, limit, started, cap);
    } else {
      assert queue[0] in queue[..k];
      TailMore(ops, queue[0], limit);
      hide TailWithin;
      assert queue[1..][k - 1] == queue[k] && forall op :: op in queue[1..][..k - 1] ==> op in queue[..k];
      i := OverBatched(queue[1..], ops + [queue[0]], limit, started, cap, k - 1);
      var more := Batches(queue[1..], ops + [queue[0]], limit, started, cap).0;
      assert [] + more == more;
    }
  }

  lemma {:induction false} FirstOver(ops: seq<Op>, limit: nat) returns (k: nat)
    requires !NoneOver(ops, limit)
    ensures k < |ops| && ops[k].Gas() > limit && NoneOver(ops[..k], limit)
  {
    if ops[0].Gas() > limit {
      k := 0;
    } else {
      assert ops == [ops[0]] + ops[1..];
      k := FirstOver(ops[1..], limit);
      assert ops[..k + 1] == [ops[0]] + ops[1..][..k];
      k := k + 1;
    }
  }

  ghost predicate AllWithin(batches: seq<seq<Op>>, limit: nat) {
    forall i :: 0 <= i < |batches| ==> TotalGas(batches[i]) <= limit
  }

  /**
    Exactly when the batches of a network keep the gas limit. While the block may still start batches: when
    the whole queue does. Once it may not, one more operation is popped, and it has to.
   */
  lemma GasWithinExactly(queue: seq<Op>, limit: nat, started: nat, cap: nat)
    ensures AllWithin(Batches(queue, [], limit, started, cap).0, limit)
            <==> if started == cap then queue == [] || queue[0].Gas() <= limit else TotalGas(queue) <= limit
  {
    var batches := Batches(queue, [], limit, started, cap).0;
    if started == cap {
      if queue != [] {
        assert [] + [queue[0]] == [queue[0]] && [] + [[queue[0]]] == [[queue[0]]];
        assert batches == [[queue[0]]];
        assert TotalGas([queue[0]]) == queue[0].Gas() + TotalGas([]);
      }
    } else if NoneOver(queue, limit) {
      WholeBatch(queue, [], limit, started, cap);
      assert [] + queue == queue;
      assert queue != [] ==> batches == [queue] && batches[0] == queue;
    } else {
      var k := FirstOver(queue, limit);
      GasOfMember(queue, queue[k]);
      var i := OverBatched(queue, [], limit, started, cap, k);
      GasOfMember(batches[i], queue[k]);
    }
  }

  /** Two messages that use up the limit each go into one batch, twice over the limit. */
  lemma OverfullBatch(limit: nat, cap: nat)
    requires limit > 0 && cap > 0
    ensures var queue := [SendMessage(0, 0, limit), SendMessage(1, 0, limit)];
            Batches(queue, [], limit, 0, cap) == ([queue], []) && TotalGas(queue) == 2 * limit
  {
    var a, b := SendMessage(0, 0, limit), SendMessage(1, 0, limit);
    assert [a, b][1..] == [b] && [b][1..] == [] && [] + [a] == [a] && [a] + [b] == [a, b];
    assert Batches([], [a, b], limit, 0, cap) == ([[a, b]], []) && [] + [[a, b]] == [[a, b]];
    assert Batches([b], [a], limit, 0, cap) == ([[a, b]], []);
    assert TotalGas([b]) == limit;
  }

  // -------------------------------------------------------------------- how many batches

  function Over(ops: seq<Op>, limit: nat): (k: nat) {
    if ops == [] then 0 else (if ops[0].Gas() > limit then 1 else 0) + Over(ops[1..], limit)
  }

  /** The batches a queue is cut into when nothing stops the loop. */
  function Pieces(queue: seq<Op>, limit: nat): (k: nat) {
    if queue == [] then 0 else 1 + Over(queue[1..], limit)
  }

  /** The same when operations are already in the builder. */
  function PiecesAfter(queue: seq<Op>, ops: seq<Op>, limit: nat): (k: nat) {
    if ops == [] then Pieces(queue, limit) else 1 + Over(queue, limit)
  }

  function Smaller(a: nat, b: nat): (r: nat) {
    if a < b then a else b
  }

  lemma {:induction false} BatchCount(queue: seq<Op>, ops: seq<Op>, limit: nat, started: nat, cap: nat)
    requires ops == [] || started != cap
    ensures var (batches, rest) := Batches(queue, ops, limit, started, cap);
            var wanted := PiecesAfter(queue, ops, limit);
            && |batches| == (if started <= cap then Smaller(wanted, cap + 1 - started) else wanted)
            && (rest != [] ==> started <= cap && |batches| == cap + 1 - started)
    decreases |queue|
  {
    if queue != [] {
      var closes := queue[0].Gas() > limit && ops != [];
      var first := if closes then [ops] else [];
      var ops' := if closes then [queue[0]] else ops + [queue[0]];
      if started + |first| != cap {
        BatchCount(queue[1..], ops', limit, started + |first|, cap);
      }
    }
  }

  // ------------------------------------------------------------------ started batches

  /** Batch b has operations `ops`, is pending, and has task t of network n to submit it. */
  ghost predicate Started(s: Store, b: BatchId, n: Network, ops: seq<Op>, t: TaskId) {
    && b in s.batchOps && s.batchOps[b] == ops && b in s.batchTask && s.batchTask[b] == t && b in s.pending
    && t in s.tasks && s.tasks[t] == SubmitBatch(b) && t in s.taskNetwork && s.taskNetwork[t] == n
  }

  function Numbers(from: nat, count: nat): (r: seq<nat>) {
    seq(count, i requires 0 <= i < count => from + i)
  }

  /** Batches started one after the other get consecutive numbers and one queued task each. */
  ghost predicate StartsAll(s: Store, n: Network, batches: seq<seq<Op>>, s': Store) {
    && s'.nextBatch == s.nextBatch + |batches| && s'.lastTask == s.lastTask + |batches| && s'.ops == s.ops
    && QueueOf(s', n) == QueueOf(s, n) + Numbers(s.lastTask + 1, |batches|)
    && (forall m :: m != n ==> QueueOf(s', m) == QueueOf(s, m))
    && (forall i :: 0 <= i < |batches| ==> Started(s', s.nextBatch + i, n, batches[i], s.lastTask + 1 + i))
    && Older(s, s')
  }

  /** What was there before is still there. */
  ghost predicate Older(s: Store, s': Store) {
    && s.nextBatch <= s'.nextBatch && s.lastTask <= s'.lastTask
    && (forall b :: 0 <= b < s.nextBatch ==>
          (b in s.batchOps <==> b in s'.batchOps) && (b in s.batchTask <==> b in s'.batchTask))
    && (forall b :: 0 <= b < s.nextBatch && b in s.batchOps ==> s'.batchOps[b] == s.batchOps[b])
    && (forall b :: 0 <= b < s.nextBatch && b in s.batchTask ==> s'.batchTask[b] == s.batchTask[b])
    && (forall t :: 0 <= t <= s.lastTask && t in s.tasks ==> t in s'.tasks && s'.tasks[t] == s.tasks[t])
    && (forall t :: 0 <= t <= s.lastTask && t in s.taskNetwork ==>
          t in s'.taskNetwork && s'.taskNetwork[t] == s.taskNetwork[t])
    && s.pending <= s'.pending
  }

  lemma OlderItself(s: Store)
    ensures Older(s, s)
  {}

  lemma OlderTrans(a: Store, b: Store, c: Store)
    requires Older(a, b) && Older(b, c)
    ensures Older(a, c)
  {}

  ghost function Numbered(s: Store, ops: seq<Op>): (s': Store) {
    s.(nextBatch := s.nextBatch + 1, batchOps := s.batchOps[s.nextBatch := ops])
  }

  lemma StartOlder(s: Store, n: Network, ops: seq<Op>, s1: Store, s': Store)
    requires Creates(Numbered(s, ops), n, SubmitBatch(s.nextBatch), s1)
    requires s' == s1.(pending := s1.pending + {s.nextBatch}, batchTask := s1.batchTask[s.nextBatch := s1.lastTask])
    ensures Older(s, s')
  {
    hide QueueOf, CreatedCount;
  }

  lemma StartStarts(s: Store, n: Network, ops: seq<Op>, s1: Store, s': Store)
    requires Creates(Numbered(s, ops), n, SubmitBatch(s.nextBatch), s1)
    requires s' == s1.(pending := s1.pending + {s.nextBatch}, batchTask := s1.batchTask[s.nextBatch := s1.lastTask])
    ensures Started(s', s.nextBatch, n, ops, s.lastTask + 1)
    ensures s'.nextBatch == s.nextBatch + 1 && s'.lastTask == s.lastTask + 1 && s'.ops == s.ops
  {
    hide QueueOf, CreatedCount;
  }

  lemma StartQueues(s: Store, n: Network, ops: seq<Op>, s1: Store, s': Store)
    requires Creates(Numbered(s, ops), n, SubmitBatch(s.nextBatch), s1) && s'.queue == s1.queue
    ensures QueueOf(s', n) == QueueOf(s, n) + [s.lastTask + 1] && forall m :: m != n ==> QueueOf(s', m) == QueueOf(s, m)
  {
    hide CreatedCount;
    forall m ensures QueueOf(Numbered(s, ops), m) == QueueOf(s, m) && QueueOf(s', m) == QueueOf(s1, m) {}
  }

  lemma StartOne(s: Store, n: Network, ops: seq<Op>)
    ensures var s' := StartBatch(s, n, ops);
            && s'.nextBatch == s.nextBatch + 1 && s'.lastTask == s.lastTask + 1 && s'.ops == s.ops
            && QueueOf(s', n) == QueueOf(s, n) + [s.lastTask + 1]
            && (forall m :: m != n ==> QueueOf(s', m) == QueueOf(s, m))
            && Started(s', s.nextBatch, n, ops, s.lastTask + 1) && Older(s, s')
  {
    hide CreateTask, Creates, Older, Started, QueueOf;
    var s1 := CreateTask(Numbered(s, ops), n, SubmitBatch(s.nextBatch));
    CreateCreates(Numbered(s, ops), n, SubmitBatch(s.nextBatch));
    StartOlder(s, n, ops, s1, StartBatch(s, n, ops));
    StartStarts(s, n, ops, s1, StartBatch(s, n, ops));
    StartQueues(s, n, ops, s1, StartBatch(s, n, ops));
  }

  lemma StartedStays(s: Store, s': Store, b: BatchId, n: Network, ops: seq<Op>, t: TaskId)
    requires Started(s, b, n, ops, t) && Older(s, s') && b < s.nextBatch && t <= s.lastTask
    ensures Started(s', b, n, ops, t)
  {}

  lemma StartStep(s: Store, n: Network, batches: seq<seq<Op>>, s1: Store, ops: seq<Op>, s': Store)
    requires StartsAll(s, n, batches, s1)
    requires s'.nextBatch == s1.nextBatch + 1 && s'.lastTask == s1.lastTask + 1 && s'.ops == s1.ops
    requires QueueOf(s', n) == QueueOf(s1, n) + [s1.lastTask + 1]
             && forall m :: m != n ==> QueueOf(s', m) == QueueOf(s1, m)
    requires Started(s', s1.nextBatch, n, ops, s1.lastTask + 1) && Older(s1, s')
    ensures StartsAll(s, n, batches + [ops], s')
  {
    hide Started, Older, QueueOf;
    OlderTrans(s, s1, s');
    var k := |batches|;
    assert Numbers(s.lastTask + 1, k) + [s.lastTask + 1 + k] == Numbers(s.lastTask + 1, k + 1);
    forall i | 0 <= i < k + 1 ensures Started(s', s.nextBatch + i, n, (batches + [ops])[i], s.lastTask + 1 + i) {
      if i < k {
        StartedStays(s1, s', s.nextBatch + i, n, batches[i], s.lastTask + 1 + i);
      }
    }
  }

  lemma {:induction false} BatchesStart(s: Store, n: Network, batches: seq<seq<Op>>)
    ensures StartsAll(s, n, batches, StartBatches(s, n, batches))
  {
    hide StartsAll, StartBatch, Started, Older;
    if batches == [] {
      StartNothing(s, n);
    } else {
      var k := |batches| - 1;
      BatchesStart(s, n, batches[..k]);
      var s1 := StartBatches(s, n, batches[..k]);
      StartOne(s1, n, batches[k]);
      StartStep(s, n, batches[..k], s1, batches[k], StartBatch(s1, n, batches[k]));
      assert batches[..k] + [batches[k]] == batches;
    }
  }

  lemma StartNothing(s: Store, n: Network)
    ensures StartsAll(s, n, [], s)
  {
    OlderItself(s);
    assert QueueOf(s, n) + Numbers(s.lastTask + 1, 0) == QueueOf(s, n);
  }

  // ----------------------------------------------------------------------- conservation

  /** The operations of batches lo, ..., hi - 1 for network n, in batch order. */
  ghost function OpsBetween(s: Store, lo: BatchId, hi: BatchId, n: Network): (r: seq<Op>)
    requires lo <= hi
  {
    if lo == hi then []
    else
      var b := hi - 1;
      OpsBetween(s, lo, b, n)
      + if b in s.batchOps && b in s.batchTask && s.batchTask[b] in s.taskNetwork
         && s.taskNetwork[s.batchTask[b]] == n then s.batchOps[b] else []
  }

  /** The batches lo, ..., hi - 1 exist, with tasks created by now. */
  ghost predicate Made(s: Store, lo: BatchId, hi: BatchId) {
    && hi <= s.nextBatch
    && forall b :: lo <= b < hi ==>
         b in s.batchOps && b in s.batchTask && s.batchTask[b] in s.taskNetwork && s.batchTask[b] <= s.lastTask
  }

  lemma {:induction false} OpsStay(s: Store, s': Store, lo: BatchId, hi: BatchId, n: Network)
    requires lo <= hi && Made(s, lo, hi) && Older(s, s')
    ensures OpsBetween(s', lo, hi, n) == OpsBetween(s, lo, hi, n)
    decreases hi - lo
  {
    if lo < hi {
      OpsStay(s, s', lo, hi - 1, n);
    }
  }

  lemma {:induction false} OpsStarted(s: Store, n: Network, batches: seq<seq<Op>>, s': Store, lo: BatchId, k: nat,
                                      m: Network)
    requires StartsAll(s, n, batches, s') && lo <= s.nextBatch && k <= |batches|
    ensures OpsBetween(s', lo, s.nextBatch + k, m)
            == OpsBetween(s', lo, s.nextBatch, m) + if m == n then Concat(batches[..k]) else []
    decreases k
  {
    hide Older, Concat, QueueOf, Numbers;
    if k == 0 {
      NoOps();
      assert batches[..0] == [];
    } else {
      OpsStarted(s, n, batches, s', lo, k - 1, m);
      assert Started(s', s.nextBatch + (k - 1), n, batches[k - 1], s.lastTask + 1 + (k - 1));
      assert batches[..k] == batches[..k - 1] + [batches[k - 1]];
      ConcatLast(batches[..k - 1], batches[k - 1]);
      Rebracket(OpsBetween(s', lo, s.nextBatch, m), Concat(batches[..k - 1]), batches[k - 1], Concat(batches[..k]));
    }
  }

  lemma MadeGrows(s: Store, n: Network, batches: seq<seq<Op>>, s': Store, lo: BatchId)
    requires StartsAll(s, n, batches, s') && Made(s, lo, s.nextBatch)
    ensures Made(s', lo, s'.nextBatch)
  {
    forall b | lo <= b < s'.nextBatch
      ensures b in s'.batchOps && b in s'.batchTask && s'.batchTask[b] in s'.taskNetwork
              && s'.batchTask[b] <= s'.lastTask
    {
      if b >= s.nextBatch {
        var i := b - s.nextBatch;
        assert Started(s', s.nextBatch + i, n, batches[i], s.lastTask + 1 + i);
      }
    }
  }

  /** What is batched and what is still queued for network m are what was queued at first. */
  ghost predicate Conserves(s: Store, s': Store, m: Network) {
    s.nextBatch <= s'.nextBatch && OpsBetween(s', s.nextBatch, s'.nextBatch, m) + OpsOf(s', m) == OpsOf(s, m)
  }

  lemma NetworkConserves(s: Store, s1: Store, env: Env, n: Network, started: nat, m: Network)
    requires s.nextBatch <= s1.nextBatch && Made(s1, s.nextBatch, s1.nextBatch) && Conserves(s, s1, m)
    ensures var s' := PrepareNetwork(s1, env, n, started).0;
            Conserves(s, s', m) && Made(s', s.nextBatch, s'.nextBatch)
  {
    hide Batches, StartBatches, StartsAll, OpsBetween, Made, Older, Concat, NoneEmpty;
    var (batches, rest) := Batches(OpsOf(s1, n), [], env.Gas(n), started, env.Cap());
    var s2 := s1.(ops := s1.ops[n := rest]);
    var s' := StartBatches(s2, n, batches);
    BatchesConserve(OpsOf(s1, n), [], env.Gas(n), started, env.Cap());
    BatchesStart(s2, n, batches);
    SameBatches(s1, s2, s.nextBatch, s1.nextBatch, m);
    MadeGrows(s2, n, batches, s', s.nextBatch);
    StartsParts(s2, n, batches, s');
    OpsStay(s2, s', s.nextBatch, s2.nextBatch, m);
    OpsStarted(s2, n, batches, s', s.nextBatch, |batches|, m);
    assert batches[..|batches|] == batches;
    Rebracket(OpsBetween(s1, s.nextBatch, s1.nextBatch, m), Concat(batches), rest, OpsOf(s1, n));
  }

  lemma Rebracket(before: seq<Op>, batched: seq<Op>, rest: seq<Op>, queue: seq<Op>)
    requires batched + rest == [] + queue
    ensures before + batched + rest == before + queue && before + [] == before
  {
    assert before + (batched + rest) == before + batched + rest && [] + queue == queue;
  }

  lemma StartsParts(s: Store, n: Network, batches: seq<seq<Op>>, s': Store)
    requires StartsAll(s, n, batches, s')
    ensures s'.nextBatch == s.nextBatch + |batches| && s'.ops == s.ops && Older(s, s')
  {}

  lemma {:induction false} SameBatches(s: Store, s': Store, lo: BatchId, hi: BatchId, m: Network)
    requires lo <= hi && s' == s.(ops := s'.ops) && Made(s, lo, hi)
    ensures OpsBetween(s', lo, hi, m) == OpsBetween(s, lo, hi, m) && Made(s', lo, hi)
    decreases hi - lo
  {
    if lo < hi {
      SameBatches(s, s', lo, hi - 1, m);
    }
  }

  /** For every network: the operations batched by this call, in batch order, then the queue left, are the old queue. */
  lemma {:induction false} PrepareConserves(s: Store, env: Env, networks: seq<Network>, m: Network)
    ensures var s' := PrepareBatches(s, env, networks).0; Conserves(s, s', m) && Made(s', s.nextBatch, s'.nextBatch)
  {
    if networks == [] {
      assert [] + OpsOf(s, m) == OpsOf(s, m);
    } else {
      hide Conserves, Made, PrepareNetwork;
      var k := |networks| - 1;
      PrepareConserves(s, env, networks[..k], m);
      var (s1, started) := PrepareBatches(s, env, networks[..k]);
      ConservesOrder(s, s1, m);
      NetworkConserves(s, s1, env, networks[k], started, m);
    }
  }

  lemma ConservesOrder(s: Store, s': Store, m: Network)
    requires Conserves(s, s', m)
    ensures s.nextBatch <= s'.nextBatch
  {}

  /** One network: nonempty batches with consecutive numbers, each with one new task at the end of the queue. */
  lemma NetworkStarts(s: Store, env: Env, n: Network, started: nat)
    ensures var (batches, rest) := Batches(OpsOf(s, n), [], env.Gas(n), started, env.Cap());
            var s' := PrepareNetwork(s, env, n, started).0;
            && NoneEmpty(batches) && OpsOf(s', n) == rest && Concat(batches) + rest == OpsOf(s, n)
            && StartsAll(s.(ops := s.ops[n := rest]), n, batches, s')
  {
    hide Batches, StartBatches, StartsAll;
    var (batches, rest) := Batches(OpsOf(s, n), [], env.Gas(n), started, env.Cap());
    BatchesConserve(OpsOf(s, n), [], env.Gas(n), started, env.Cap());
    assert [] + OpsOf(s, n) == OpsOf(s, n);
    BatchesStart(s.(ops := s.ops[n := rest]), n, batches);
    StartsParts(s.(ops := s.ops[n := rest]), n, batches, PrepareNetwork(s, env, n, started).0);
  }

  // --------------------------------------------------------------- the cap of a whole block

  /** The batches wanted by the queues of the networks together. */
  ghost function Wanted(s: Store, env: Env, networks: seq<Network>): (k: nat) {
    if networks == [] then 0
    else
      var k := |networks| - 1;
      Wanted(s, env, networks[..k]) + Pieces(OpsOf(s, networks[k]), env.Gas(networks[k]))
  }

  /** MaxBatchesPerBlock, read as at least one. */
  function Allowed(env: Env): (k: nat) {
    if env.maxBatches == 0 then 1 else env.maxBatches
  }

  /** Once the networks before want MaxBatchesPerBlock batches, the later queues are empty. */
  ghost predicate CapSuffices(s: Store, env: Env, networks: seq<Network>) {
    forall k :: 0 <= k < |networks| && Wanted(s, env, networks[..k]) >= Allowed(env) ==> OpsOf(s, networks[k]) == []
  }

  lemma {:induction false} OtherOps(s: Store, env: Env, networks: seq<Network>, n: Network)
    requires n !in networks
    ensures OpsOf(PrepareBatches(s, env, networks).0, n) == OpsOf(s, n)
  {
    hide Batches, StartBatches;
    if networks != [] {
      var k := |networks| - 1;
      OtherOps(s, env, networks[..k], n);
      var (s1, started) := PrepareBatches(s, env, networks[..k]);
      var (batches, rest) := Batches(OpsOf(s1, networks[k]), [], env.Gas(networks[k]), started, env.Cap());
      StartedOps(s1.(ops := s1.ops[networks[k] := rest]), networks[k], batches);
      assert networks[k] in networks;
    }
  }

  lemma {:induction false} StartedOps(s: Store, n: Network, batches: seq<seq<Op>>)
    ensures StartBatches(s, n, batches).ops == s.ops
  {
    if batches != [] {
      StartedOps(s, n, batches[..|batches| - 1]);
    }
  }

  lemma SufficesBefore(s: Store, env: Env, networks: seq<Network>, k: nat)
    requires k == |networks| - 1
    ensures CapSuffices(s, env, networks)
            <==> CapSuffices(s, env, networks[..k])
                 && (Wanted(s, env, networks[..k]) >= Allowed(env) ==> OpsOf(s, networks[k]) == [])
  {
    hide Wanted, OpsOf;
    assert forall i :: 0 <= i < k ==> networks[..k][i] == networks[i] && networks[..k][..i] == networks[..i];
    if CapSuffices(s, env, networks[..k])
       && (Wanted(s, env, networks[..k]) >= Allowed(env) ==> OpsOf(s, networks[k]) == []) {
      forall i | 0 <= i < |networks| && Wanted(s, env, networks[..i]) >= Allowed(env)
        ensures OpsOf(s, networks[i]) == []
      {
        if i < k {
          assert Wanted(s, env, networks[..k][..i]) >= Allowed(env);
        }
      }
    }
  }

  /**
    A block keeps to MaxBatchesPerBlock, read as at least one, if and only if no queue is left once the
    networks before want that many batches: the loop of a later network is not stopped any more.
   */
  lemma {:induction false} CapKeptExactly(s: Store, env: Env, networks: seq<Network>)
    requires NoDuplicates(networks)
    ensures var started := PrepareBatches(s, env, networks).1;
            && (started <= Allowed(env) <==> CapSuffices(s, env, networks))
            && (started <= Allowed(env) ==> started == Smaller(Wanted(s, env, networks), Allowed(env)))
  {
    hide Batches, StartBatches, NoDuplicates, Pieces;
    if networks != [] {
      var k := |networks| - 1;
      var n := networks[k];
      NotInPrefix(networks, k);
      CapKeptExactly(s, env, networks[..k]);
      OtherOps(s, env, networks[..k], n);
      SufficesBefore(s, env, networks, k);
      var (s1, started) := PrepareBatches(s, env, networks[..k]);
      BatchCount(OpsOf(s, n), [], env.Gas(n), started, env.Cap());
      NoPieces(OpsOf(s, n), env.Gas(n));
    }
  }

  lemma NoPieces(queue: seq<Op>, limit: nat)
    ensures Pieces(queue, limit) == 0 <==> queue == []
  {}

  /** Two networks with one operation each make two batches in a block that may start one. */
  lemma CapExceeded(s: Store, env: Env, a: Op, b: Op)
    requires OpsOf(s, 0) == [a] && OpsOf(s, 1) == [b] && env.maxBatches == 1
    ensures PrepareBatches(s, env, [0, 1]).1 > env.maxBatches
  {
    hide PrepareBatches;
    CapKeptExactly(s, env, [0, 1]);
    assert [0, 1][..1] == [0] && [0][..0] == [] && [a][1..] == [];
    assert Wanted(s, env, []) == 0 && Wanted(s, env, [0]) == 1;
    assert OpsOf(s, [0, 1][1]) != [];
  }
}
