/** What a list of gateway events does to the operation queues, the registered keys and the batch books. */
module TasksEvents {
  import opened TasksSpec
  import opened TasksInvariant
  import opened TasksReports

  /** The messages received for network d, in order, as operations. */
  function MessagesTo(events: seq<GmpEvent>, d: Network): (r: seq<Op>) {
    if events == [] then []
    else
      var e := events[0];
      (if e.MessageReceived? && e.destination == d then [SendMessage(e.message, d, e.cost)] else [])
      + MessagesTo(events[1..], d)
  }

  lemma {:induction false} MessagesMore(events: seq<GmpEvent>, e: GmpEvent, d: Network)
    ensures MessagesTo(events + [e], d) == MessagesTo(events, d) + MessagesTo([e], d)
  {
    if events == [] {
      assert [] + [e] == [e];
    } else {
      assert (events + [e])[1..] == events[1..] + [e];
      MessagesMore(events[1..], e, d);
    }
  }

  /** The key was registered and not unregistered since, or known before and never unregistered. */
  ghost predicate RegisteredAfter(before: bool, events: seq<GmpEvent>, key: Key) {
    || (before && ShardUnregistered(key) !in events)
    || exists i :: 0 <= i < |events| && events[i] == ShardRegistered(key) && ShardUnregistered(key) !in events[i..]
  }

  lemma RegisteredMore(before: bool, events: seq<GmpEvent>, e: GmpEvent, key: Key)
    ensures RegisteredAfter(before, events + [e], key)
            <==> e == ShardRegistered(key) || (e != ShardUnregistered(key) && RegisteredAfter(before, events, key))
  {
    var all := events + [e];
    if e == ShardRegistered(key) {
      assert all[|events|..] == [e] && all[|events|] == e;
    } else {
      forall i | 0 <= i < |events| ensures all[i] == events[i] && all[i..] == events[i..] + [e] {}
    }
  }

  /** What processing events leaves of the queues and books of operations. */
  ghost predicate Processes(s: Store, s': Store, events: seq<GmpEvent>) {
    && (forall d :: OpsOf(s', d) == OpsOf(s, d) + MessagesTo(events, d))
    && (forall key :: key in s'.registered <==> RegisteredAfter(key in s.registered, events, key))
    && (forall b :: b in s'.pending <==> b in s.pending && BatchExecuted(b) !in events)
    && s'.failed == s.failed && s'.nextBatch == s.nextBatch
  }

  lemma FinishBooks(s: Store, n: Network, t: TaskId)
    ensures var s' := FinishTask(s, n, t, true);
            && s'.ops == s.ops && s'.registered == s.registered && s'.pending == s.pending && s'.failed == s.failed
            && s'.nextBatch == s.nextBatch
  {
    if t !in s.output && t in s.taskShard {
      hide FinishTask, TasksOf, CountOf, ExecutedCount;
      FinishUnplaces(s, n, t, true);
    }
  }

  /** What one event does to them. */
  ghost predicate ProcessesOne(s: Store, s': Store, e: GmpEvent) {
    && (forall d :: OpsOf(s', d) == OpsOf(s, d) + MessagesTo([e], d))
    && (forall key :: key in s'.registered <==>
          e == ShardRegistered(key) || (e != ShardUnregistered(key) && key in s.registered))
    && (forall b :: b in s'.pending <==> b in s.pending && BatchExecuted(b) != e)
    && s'.failed == s.failed && s'.nextBatch == s.nextBatch
  }

  lemma BatchProcessed(s: Store, n: Network, b: BatchId)
    ensures ProcessesOne(s, ProcessEvent(s, n, BatchExecuted(b)), BatchExecuted(b))
  {
    var e, s' := BatchExecuted(b), ProcessEvent(s, n, BatchExecuted(b));
    hide FinishTask;
    if b in s.batchTask {
      FinishBooks(s.(pending := s.pending - {b}), n, s.batchTask[b]);
    }
    assert s'.ops == s.ops && s'.registered == s.registered && s'.pending == s.pending - {b} && s'.failed == s.failed
        && s'.nextBatch == s.nextBatch;
    hide ProcessEvent;
    forall d ensures OpsOf(s', d) == OpsOf(s, d) + MessagesTo([e], d) {
      assert MessagesTo([e], d) == MessagesTo([e][1..], d) == [];
    }
  }

  lemma EventProcessed(s: Store, n: Network, e: GmpEvent)
    ensures ProcessesOne(s, ProcessEvent(s, n, e), e)
  {
    if e.BatchExecuted? {
      hide ProcessEvent, ProcessesOne;
      BatchProcessed(s, n, e.batch);
    } else {
      hide FinishTask;
      forall d ensures MessagesTo([e], d)
                       == if e.MessageReceived? && e.destination == d then [SendMessage(e.message, d, e.cost)] else []
      {
        assert [e][1..] == [];
      }
    }
  }

  lemma ProcessesMore(s: Store, s1: Store, s2: Store, before: seq<GmpEvent>, e: GmpEvent)
    requires Processes(s, s1, before) && ProcessesOne(s1, s2, e)
    ensures Processes(s, s2, before + [e])
  {
    hide OpsOf, MessagesTo, RegisteredAfter;
    forall d ensures OpsOf(s2, d) == OpsOf(s, d) + MessagesTo(before + [e], d) {
      MessagesMore(before, e, d);
      assert OpsOf(s2, d) == OpsOf(s1, d) + MessagesTo([e], d);
    }
    forall key ensures key in s2.registered <==> RegisteredAfter(key in s.registered, before + [e], key) {
      RegisteredMore(key in s.registered, before, e, key);
      assert key in s1.registered <==> RegisteredAfter(key in s.registered, before, key);
    }
  }

  lemma NothingProcessed(s: Store)
    ensures Processes(s, s, [])
  {}

  /**
    Messages go to the queues of their destinations in order, whichever network reports them; a key counts as
    registered by the last word on it; executed batches are no longer pending.
   */
  lemma {:induction false} EventsProcessed(s: Store, n: Network, events: seq<GmpEvent>)
    ensures Processes(s, ProcessEvents(s, n, events), events)
  {
    hide Processes, ProcessesOne, ProcessEvent;
    if events == [] {
      NothingProcessed(s);
    } else {
      var k := |events| - 1;
      var s1 := ProcessEvents(s, n, events[..k]);
      EventsProcessed(s, n, events[..k]);
      EventProcessed(s1, n, events[k]);
      assert events == events[..k] + [events[k]];
      ProcessesMore(s, s1, ProcessEvents(s, n, events), events[..k], events[k]);
    }
  }

  lemma {:induction false} ForgetsFailed(s: Store, events: seq<GmpEvent>)
    ensures forall b :: b in Forget(s, events).failed <==> b in s.failed && BatchExecuted(b) !in events
    ensures Forget(s, events).nextBatch == s.nextBatch && Forget(s, events).ops == s.ops
  {
    if events != [] {
      var k := |events| - 1;
      ForgetsFailed(s, events[..k]);
      assert events == events[..k] + [events[k]];
    }
  }

  /** Events submitted by hand do the same, and batches reported as executed no longer count as failed. */
  lemma SubmittedProcessed(s: Store, n: Network, events: seq<GmpEvent>)
    ensures var s' := SubmitGmpEvents(s, n, events);
            && Processes(s, s'.(failed := s.failed), events)
            && (forall b :: b in s'.failed <==> b in s.failed && BatchExecuted(b) !in events)
  {
    var s1 := Forget(s, events);
    ForgetsReported(s, events);
    ForgetsFailed(s, events);
    EventsProcessed(s1, n, events);
    hide Forget, ProcessEvents, RegisteredAfter, MessagesTo;
    var s' := SubmitGmpEvents(s, n, events);
    forall d ensures OpsOf(s'.(failed := s.failed), d) == OpsOf(s', d) && OpsOf(s1, d) == OpsOf(s, d) {}
  }
}
