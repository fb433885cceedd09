/** Nonce bookkeeping and retries of the transaction worker (tc-subxt/src/worker.rs). */
module Worker {
  import opened Options

  const MORTALITY: nat := 32

  type Tx = nat
  type Hash = nat

  datatype TxData = TxData(tx: Tx, hash: Hash, era: nat, nonce: nat)
  datatype TxStatus = TxStatus(data: TxData, hasSender: bool, bestBlock: Option<nat>)

  /** The worker's fields; `submitted` is every transaction handed to the pool, in order. */
  datatype State = State(nonce: nat, latest: nat, pending: seq<TxStatus>, submitted: seq<TxData>)

  /** The hash of a transaction signed with a nonce against the latest block. */
  type Hasher = (Tx, nat, nat) -> Hash

  function Signed(hash: Hasher, tx: Tx, nonce: nat, latest: nat): (d: TxData) {
    TxData(tx, hash(tx, nonce, latest), latest + MORTALITY, nonce)
  }

  /** A new transaction takes the next nonce and goes to the back. */
  function AddNew(hash: Hasher, s: State, tx: Tx): (s': State) {
    var data := Signed(hash, tx, s.nonce, s.latest);
    State(s.nonce + 1, s.latest, s.pending + [TxStatus(data, true, None)], s.submitted + [data])
  }

  // ------------------------------------------------------------- a best block

  function Mark(p: TxStatus, hashes: set<Hash>, latest: nat): (p': TxStatus) {
    if p.data.hash in hashes then p.(bestBlock := Some(latest)) else p
  }

  function MarkAll(pending: seq<TxStatus>, hashes: set<Hash>, latest: nat): (r: seq<TxStatus>)
    ensures |r| == |pending|
  {
    seq(|pending|, i requires 0 <= i < |pending| => Mark(pending[i], hashes, latest))
  }

  predicate Outdated(p: TxStatus, latest: nat) {
    p.bestBlock.None? && latest > p.data.era
  }

  /** What becomes of one pending transaction: kept, or signed again with its own nonce. */
  function Refresh(hash: Hasher, p: TxStatus, latest: nat): (p': TxStatus)
    ensures !Outdated(p', latest) && p'.data.nonce == p.data.nonce && p'.data.tx == p.data.tx
            && p'.hasSender == p.hasSender
  {
    if Outdated(p, latest) then TxStatus(Signed(hash, p.data.tx, p.data.nonce, latest), p.hasSender, None) else p
  }

  function RefreshAll(hash: Hasher, pending: seq<TxStatus>, latest: nat): (r: seq<TxStatus>)
    ensures |r| == |pending|
  {
    seq(|pending|, i requires 0 <= i < |pending| => Refresh(hash, pending[i], latest))
  }

  /** The resubmissions: one for each outdated transaction, in queue order. */
  function Resubmissions(hash: Hasher, pending: seq<TxStatus>, latest: nat): (r: seq<TxData>) {
    if pending == [] then []
    else
      (if Outdated(pending[0], latest) then [Refresh(hash, pending[0], latest).data] else [])
      + Resubmissions(hash, pending[1..], latest)
  }

  function OnBest(hash: Hasher, s: State, block: nat, hashes: set<Hash>): (s': State) {
    var marked := MarkAll(s.pending, hashes, block);
    s.(latest := block,
       pending := RefreshAll(hash, marked, block),
       submitted := s.submitted + Resubmissions(hash, marked, block))
  }

  // -------------------------------------------------------- a finalized block

  /** Drops the front of the queue each time its hash comes up. */
  function Settle(pending: seq<TxStatus>, hashes: seq<Hash>): (r: seq<TxStatus>)
    decreases |hashes|
  {
    if hashes == [] then pending
    else if pending != [] && pending[0].data.hash == hashes[0] then Settle(pending[1..], hashes[1..])
    else Settle(pending, hashes[1..])
  }

  lemma {:induction false} SettleDropsFront(pending: seq<TxStatus>, hashes: seq<Hash>)
    ensures |Settle(pending, hashes)| <= |pending|
    ensures Settle(pending, hashes) == pending[|pending| - |Settle(pending, hashes)|..]
    decreases |hashes|
  {
    if hashes != [] {
      if pending != [] && pending[0].data.hash == hashes[0] {
        SettleDropsFront(pending[1..], hashes[1..]);
      } else {
        SettleDropsFront(pending, hashes[1..]);
      }
    }
  }

  /** Only finalized transactions are dropped. */
  lemma {:induction false} SettledWereFinal(pending: seq<TxStatus>, hashes: seq<Hash>, i: nat)
    requires i < |pending| - |Settle(pending, hashes)|
    ensures pending[i].data.hash in hashes
    decreases |hashes|
  {
    if hashes == [] {
      assert false;
    } else if pending != [] && pending[0].data.hash == hashes[0] {
      if i > 0 {
        SettledWereFinal(pending[1..], hashes[1..], i - 1);
      }
    } else {
      SettledWereFinal(pending, hashes[1..], i);
    }
  }

  /** The block holds the hashes of the first pending transactions, in this order, at the places idx. */
  ghost predicate Includes(pending: seq<TxStatus>, hashes: seq<Hash>, idx: seq<nat>) {
    && |idx| <= |pending|
    && (forall k :: 0 <= k < |idx| ==> idx[k] < |hashes| && hashes[idx[k]] == pending[k].data.hash)
    && (forall j, k :: 0 <= j < k < |idx| ==> idx[j] < idx[k])
  }

  function Shifted(idx: seq<nat>): (r: seq<nat>)
    ensures |r| == |idx| && forall k :: 0 <= k < |idx| ==> r[k] == idx[k] + 1
  {
    seq(|idx|, k requires 0 <= k < |idx| => idx[k] + 1)
  }

  function Unshifted(idx: seq<nat>): (r: seq<nat>)
    requires forall k :: 0 <= k < |idx| ==> idx[k] > 0
    ensures |r| == |idx| && forall k :: 0 <= k < |idx| ==> r[k] == idx[k] - 1
  {
    seq(|idx|, k requires 0 <= k < |idx| => idx[k] - 1)
  }

  /** What is dropped was in the block in this order. */
  lemma {:induction false} SettledInOrder(pending: seq<TxStatus>, hashes: seq<Hash>) returns (idx: seq<nat>)
    ensures Includes(pending, hashes, idx) && |idx| == |pending| - |Settle(pending, hashes)|
    decreases |hashes|
  {
    if hashes == [] {
      idx := [];
    } else if pending != [] && pending[0].data.hash == hashes[0] {
      var rest := SettledInOrder(pending[1..], hashes[1..]);
      idx := [0] + Shifted(rest);
    } else {
      var rest := SettledInOrder(pending, hashes[1..]);
      idx := Shifted(rest);
    }
  }

  /** Whatever the block holds in this order from the front is dropped. */
  lemma {:induction false} SettleDropsAll(pending: seq<TxStatus>, hashes: seq<Hash>, idx: seq<nat>)
    requires Includes(pending, hashes, idx)
    ensures |idx| <= |pending| - |Settle(pending, hashes)|
    decreases |hashes|
  {
    SettleDropsFront(pending, hashes);
    if idx != [] {
      if pending[0].data.hash == hashes[0] {
        var rest := Unshifted(idx[1..]);
        assert Includes(pending[1..], hashes[1..], rest);
        SettleDropsAll(pending[1..], hashes[1..], rest);
      } else {
        assert idx[0] > 0;
        assert Includes(pending, hashes[1..], Unshifted(idx));
        SettleDropsAll(pending, hashes[1..], Unshifted(idx));
      }
    }
  }

  // ----------------------------------------------------------------- invariant

  /** The pending nonces are the interval that ends just below the next nonce. */
  ghost predicate Contiguous(s: State) {
    && |s.pending| <= s.nonce
    && (forall i :: 0 <= i < |s.pending| ==> s.pending[i].data.nonce == s.nonce - |s.pending| + i)
    && (forall i :: 0 <= i < |s.pending| ==> s.pending[i].hasSender)
  }

  datatype Event = Submit(tx: Tx) | BestBlock(number: nat, hashes: set<Hash>) | Finalized(included: seq<Hash>)

  function Step(hash: Hasher, s: State, e: Event): (s': State) {
    match e
    case Submit(tx) => AddNew(hash, s, tx)
    case BestBlock(n, hashes) => OnBest(hash, s, n, hashes)
    case Finalized(hashes) => s.(pending := Settle(s.pending, hashes))
  }

  function Run(hash: Hasher, nonce: nat, latest: nat, events: seq<Event>): (s: State) {
    if events == [] then State(nonce, latest, [], [])
    else Step(hash, Run(hash, nonce, latest, events[..|events| - 1]), events[|events| - 1])
  }

  lemma StepContiguous(hash: Hasher, s: State, e: Event)
    requires Contiguous(s)
    ensures Contiguous(Step(hash, s, e))
  {
    if e.Finalized? {
      SettleDropsFront(s.pending, e.included);
    }
  }

  /** From an empty recovered set the pending nonces are contiguous after any events. */
  lemma {:induction false} AlwaysContiguous(hash: Hasher, nonce: nat, latest: nat, events: seq<Event>)
    ensures Contiguous(Run(hash, nonce, latest, events))
  {
    if events != [] {
      var before := events[..|events| - 1];
      AlwaysContiguous(hash, nonce, latest, before);
      StepContiguous(hash, Run(hash, nonce, latest, before), events[|events| - 1]);
    }
  }

  /** Not in this best block nor in one before, and past the end of its era. */
  ghost predicate Needy(p: TxStatus, hashes: set<Hash>, block: nat) {
    p.data.hash !in hashes && p.bestBlock.None? && block > p.data.era
  }

  /** idx lists the places of the outdated unseen transactions, each once, in queue order. */
  ghost predicate Picks(pending: seq<TxStatus>, hashes: set<Hash>, block: nat, idx: seq<nat>) {
    && (forall k :: 0 <= k < |idx| ==> idx[k] < |pending| && Needy(pending[idx[k]], hashes, block))
    && (forall j, k :: 0 <= j < k < |idx| ==> idx[j] < idx[k])
    && (forall i :: 0 <= i < |pending| && Needy(pending[i], hashes, block) ==> i in idx)
  }

  /** The transactions at the places idx, signed again against `block` with their own nonces. */
  ghost function Resigned(hash: Hasher, pending: seq<TxStatus>, idx: seq<nat>, block: nat): (r: seq<TxData>)
    requires forall k :: 0 <= k < |idx| ==> idx[k] < |pending|
  {
    seq(|idx|, k requires 0 <= k < |idx| => Signed(hash, pending[idx[k]].data.tx, pending[idx[k]].data.nonce, block))
  }

  /** The places of the tail, each moved up by one, with the place of the head before them if d is one. */
  ghost predicate MovedUp(rest: seq<nat>, idx: seq<nat>, d: nat) {
    && d <= 1 && |idx| == d + |rest| && (d == 1 ==> idx[0] == 0)
    && forall k :: d <= k < |idx| ==> idx[k] == rest[k - d] + 1
  }

  lemma MovedPlaces(rest: seq<nat>, idx: seq<nat>, d: nat)
    requires MovedUp(rest, idx, d) && forall j, k :: 0 <= j < k < |rest| ==> rest[j] < rest[k]
    ensures forall j, k :: 0 <= j < k < |idx| ==> idx[j] < idx[k]
    ensures forall i: nat :: i in rest ==> i + 1 in idx
  {
    forall i: nat | i in rest ensures i + 1 in idx {
      var k :| 0 <= k < |rest| && rest[k] == i;
      assert idx[k + d] == i + 1;
    }
  }

  lemma ShiftPicks(first: TxStatus, tail: seq<TxStatus>, hashes: set<Hash>, block: nat, rest: seq<nat>, idx: seq<nat>)
    requires Picks(tail, hashes, block, rest)
    requires MovedUp(rest, idx, if Needy(first, hashes, block) then 1 else 0)
    ensures Picks([first] + tail, hashes, block, idx)
  {
    hide Needy;
    var pending, d := [first] + tail, if Needy(first, hashes, block) then 1 else 0;
    MovedPlaces(rest, idx, d);
    forall k | 0 <= k < |idx| ensures idx[k] < |pending| && Needy(pending[idx[k]], hashes, block) {
      if k >= d {
        assert pending[idx[k]] == tail[rest[k - d]];
      }
    }
    forall i: nat | i < |pending| && Needy(pending[i], hashes, block) ensures i in idx {
      if i > 0 {
        assert pending[i] == tail[i - 1];
        assert i - 1 in rest;
      }
    }
  }

  lemma ResignedShift(hash: Hasher, first: TxStatus, tail: seq<TxStatus>, rest: seq<nat>, idx: seq<nat>, d: nat,
                      block: nat)
    requires MovedUp(rest, idx, d) && (forall k :: 0 <= k < |rest| ==> rest[k] < |tail|)
    requires forall k :: 0 <= k < |idx| ==> idx[k] <= |tail|
    ensures Resigned(hash, [first] + tail, idx, block)
         == (if d == 1 then [Signed(hash, first.data.tx, first.data.nonce, block)] else [])
            + Resigned(hash, tail, rest, block)
  {
    hide Signed;
  }

  lemma MarkedTail(pending: seq<TxStatus>, hashes: set<Hash>, block: nat)
    requires pending != []
    ensures MarkAll(pending, hashes, block)[0] == Mark(pending[0], hashes, block)
    ensures MarkAll(pending, hashes, block)[1..] == MarkAll(pending[1..], hashes, block)
  {
    hide Mark;
  }

  lemma PlacesStep(hash: Hasher, first: TxStatus, tail: seq<TxStatus>, hashes: set<Hash>, block: nat, rest: seq<nat>)
      returns (idx: seq<nat>)
    requires Picks(tail, hashes, block, rest)
    ensures Picks([first] + tail, hashes, block, idx)
    ensures Resigned(hash, [first] + tail, idx, block)
         == (if Needy(first, hashes, block) then [Signed(hash, first.data.tx, first.data.nonce, block)] else [])
            + Resigned(hash, tail, rest, block)
  {
    hide Needy, Signed;
    var d := if Needy(first, hashes, block) then 1 else 0;
    idx := (if d == 1 then [0] else []) + Shifted(rest);
    assert MovedUp(rest, idx, d);
    hide MovedUp;
    ShiftPicks(first, tail, hashes, block, rest, idx);
    ResignedShift(hash, first, tail, rest, idx, d, block);
  }

  lemma {:induction false} RetryPlaces(hash: Hasher, pending: seq<TxStatus>, hashes: set<Hash>, block: nat)
      returns (idx: seq<nat>)
    ensures Picks(pending, hashes, block, idx)
    ensures Resubmissions(hash, MarkAll(pending, hashes, block), block) == Resigned(hash, pending, idx, block)
  {
    if pending == [] {
      idx := [];
    } else {
      var rest := RetryPlaces(hash, pending[1..], hashes, block);
      idx := PlacesStep(hash, pending[0], pending[1..], hashes, block, rest);
      assert pending == [pending[0]] + pending[1..];
      MarkedTail(pending, hashes, block);
      hide MarkAll, Resigned, Picks;
    }
  }

  /** A best block resubmits each outdated unseen transaction once, in order, and changes no nonce or order. */
  lemma BestBlockRetriesOnce(hash: Hasher, s: State, block: nat, hashes: set<Hash>) returns (idx: seq<nat>)
    ensures Picks(s.pending, hashes, block, idx)
    ensures var s' := OnBest(hash, s, block, hashes);
            && s'.submitted == s.submitted + Resigned(hash, s.pending, idx, block)
            && |s'.pending| == |s.pending| && s'.nonce == s.nonce
            && (forall i :: 0 <= i < |s.pending| ==>
                  && s'.pending[i].data.nonce == s.pending[i].data.nonce
                  && s'.pending[i].data.tx == s.pending[i].data.tx
                  && (s.pending[i].data.hash in hashes ==> s'.pending[i].bestBlock == Some(block))
                  && (s.pending[i].data.hash !in hashes ==> s'.pending[i].bestBlock == s.pending[i].bestBlock)
                  && (!Needy(s.pending[i], hashes, block) ==> s'.pending[i].data == s.pending[i].data)
                  && (Needy(s.pending[i], hashes, block) ==>
                        s'.pending[i].data == Signed(hash, s.pending[i].data.tx, s.pending[i].data.nonce, block)))
  {
    idx := RetryPlaces(hash, s.pending, hashes, block);
  }

  /** Every pending transaction is in a best block, or its era of 32 blocks is not over. */
  ghost predicate Timely(s: State) {
    forall i :: 0 <= i < |s.pending| ==> s.pending[i].bestBlock.Some? || s.latest <= s.pending[i].data.era
  }

  /** A transaction signed now is valid for 32 blocks and has the given nonce. */
  lemma StepTimely(hash: Hasher, s: State, e: Event)
    requires Timely(s)
    ensures Timely(Step(hash, s, e))
    ensures e.Submit? ==> var d := Step(hash, s, e).pending[|s.pending|].data;
                          d.tx == e.tx && d.nonce == s.nonce && d.era == s.latest + 32
  {
    if e.Finalized? {
      SettleDropsFront(s.pending, e.included);
    }
  }

  lemma {:induction false} AlwaysTimely(hash: Hasher, nonce: nat, latest: nat, events: seq<Event>)
    ensures Timely(Run(hash, nonce, latest, events))
  {
    if events != [] {
      var before := events[..|events| - 1];
      AlwaysTimely(hash, nonce, latest, before);
      StepTimely(hash, Run(hash, nonce, latest, before), events[|events| - 1]);
    }
  }

  // ------------------------------------------------------------- the worker itself

  class SubxtWorker {
    const hash: Hasher
    var nonce: nat
    var latest: nat
    var pending: seq<TxStatus>
    var submitted: seq<TxData>

    ghost function Value(): (s: State)
      reads this
    {
      State(nonce, latest, pending, submitted)
    }

    constructor (hash: Hasher, nonce: nat, latest: nat)
      ensures Value() == Run(hash, nonce, latest, []) && this.hash == hash
    {
      this.hash, this.nonce, this.latest := hash, nonce, latest;
      pending, submitted := [], [];
    }

    /** `add_tx_to_pool`: with a nonce it is a retry and goes to the front. */
    method AddToPool(tx: Tx, hasSender: bool, reuse: Option<nat>)
      modifies this
      ensures latest == old(latest)
      ensures reuse.None? ==>
                var data := Signed(hash, tx, old(nonce), latest);
                && nonce == old(nonce) + 1
                && pending == old(pending) + [TxStatus(data, hasSender, None)]
                && submitted == old(submitted) + [data]
      ensures reuse.None? && hasSender ==> Value() == AddNew(hash, old(Value()), tx)
      ensures reuse.Some? ==>
                var data := Signed(hash, tx, reuse.value, latest);
                && nonce == old(nonce)
                && pending == [TxStatus(data, hasSender, None)] + old(pending)
                && submitted == old(submitted) + [data]
    {
      var used := if reuse.Some? then reuse.value else nonce;
      var status := TxStatus(Signed(hash, tx, used, latest), hasSender, None);
      if reuse.None? {
        pending := pending + [status];
        nonce := nonce + 1;
      } else {
        pending := [status] + pending;
      }
      submitted := submitted + [status.data];
    }

    method HandleFinalized(hashes: seq<Hash>)
      requires Contiguous(Value())
      modifies this
      ensures Value() == old(Value()).(pending := Settle(old(pending), hashes))
    {
      for i := 0 to |hashes|
        invariant nonce == old(nonce) && latest == old(latest) && submitted == old(submitted)
        invariant Settle(pending, hashes[i..]) == Settle(old(pending), hashes)
        invariant Contiguous(Value())
      {
        assert hashes[i..][1..] == hashes[i + 1..];
        if pending != [] && pending[0].data.hash == hashes[i] {
          // the source unwraps the sender here
          assert pending[0].hasSender;
          pending := pending[1..];
        }
      }
    }

    method MarkSeen(hashes: set<Hash>)
      modifies this
      ensures pending == MarkAll(old(pending), hashes, latest)
      ensures nonce == old(nonce) && latest == old(latest) && submitted == old(submitted)
    {
      var i := 0;
      while i < |pending|
        invariant 0 <= i <= |pending| == |old(pending)|
        invariant nonce == old(nonce) && latest == old(latest) && submitted == old(submitted)
        invariant forall j :: 0 <= j < i ==> pending[j] == Mark(old(pending)[j], hashes, latest)
        invariant forall j :: i <= j < |pending| ==> pending[j] == old(pending)[j]
      {
        if pending[i].data.hash in hashes {
          pending := pending[i := pending[i].(bestBlock := Some(latest))];
        }
        i := i + 1;
      }
    }

    /** The retry loop: resubmissions are pushed onto the queue that is being drained. */
    method Drain()
      modifies this
      ensures pending == RefreshAll(hash, old(pending), latest)
      ensures submitted == old(submitted) + Resubmissions(hash, old(pending), latest)
      ensures nonce == old(nonce) && latest == old(latest)
    {
      var kept: seq<TxStatus> := [];
      while pending != []
        invariant nonce == old(nonce) && latest == old(latest)
        invariant kept + RefreshAll(hash, pending, latest) == RefreshAll(hash, old(pending), latest)
        invariant submitted + Resubmissions(hash, pending, latest)
                  == old(submitted) + Resubmissions(hash, old(pending), latest)
        decreases CountOutdated(pending, latest), |pending|
      {
        DrainStep(hash, pending, latest);
        var tx := pending[0];
        pending := pending[1..];
        if tx.bestBlock.None? && latest > tx.data.era {
          AddToPool(tx.data.tx, tx.hasSender, Some(tx.data.nonce));
          DrainStep(hash, pending, latest);
        } else {
          kept := kept + [tx];
        }
      }
      pending := kept;
    }

    method HandleBest(block: nat, hashes: set<Hash>)
      modifies this
      ensures Value() == OnBest(hash, old(Value()), block, hashes)
    {
      latest := block;
      if pending == [] {
        return;
      }
      MarkSeen(hashes);
      Drain();
    }
  }

  ghost function CountOutdated(pending: seq<TxStatus>, latest: nat): (n: nat) {
    if pending == [] then 0 else (if Outdated(pending[0], latest) then 1 else 0) + CountOutdated(pending[1..], latest)
  }

  lemma DrainStep(hash: Hasher, pending: seq<TxStatus>, latest: nat)
    requires pending != []
    ensures RefreshAll(hash, pending, latest)
            == [Refresh(hash, pending[0], latest)] + RefreshAll(hash, pending[1..], latest)
  {}
}
