/** The sparse indexed queue of pallets/tasks/src/queue.rs refines a sequence. */
module Queue {
  import opened Options

  const MAX_INDEX: nat := 0xFFFF_FFFF_FFFF_FFFF

  function SaturatingPlusOne(i: nat): (j: nat)
    requires i <= MAX_INDEX
    ensures j <= MAX_INDEX && (i < MAX_INDEX ==> j == i + 1)
  {
    if i == MAX_INDEX then i else i + 1
  }

  /** The entries stored at lo, lo + 1, ..., hi - 1, in that order, with their indices. */
  function Entries<V>(items: map<nat, V>, lo: nat, hi: nat): (s: seq<(nat, V)>)
    requires lo <= hi
    decreases hi - lo
  {
    if lo == hi then []
    else (if lo in items then [(lo, items[lo])] else []) + Entries(items, lo + 1, hi)
  }

  lemma {:induction false} EntriesSplit<V>(items: map<nat, V>, lo: nat, mid: nat, hi: nat)
    requires lo <= mid <= hi
    ensures Entries(items, lo, hi) == Entries(items, lo, mid) + Entries(items, mid, hi)
    decreases mid - lo
  {
    if lo < mid {
      EntriesSplit(items, lo + 1, mid, hi);
    }
  }

  lemma {:induction false} EntriesAgree<V>(items: map<nat, V>, other: map<nat, V>, lo: nat, hi: nat)
    requires lo <= hi
    requires forall i :: lo <= i < hi ==> (i in items <==> i in other) && (i in items ==> items[i] == other[i])
    ensures Entries(items, lo, hi) == Entries(other, lo, hi)
    decreases hi - lo
  {
    if lo < hi {
      EntriesAgree(items, other, lo + 1, hi);
    }
  }

  /** Deleting one stored index deletes exactly its entry. */
  lemma EntriesRemove<V>(items: map<nat, V>, lo: nat, index: nat, hi: nat)
    requires lo <= index < hi && index in items
    ensures Entries(items, lo, hi)
            == Entries(items, lo, index) + [(index, items[index])] + Entries(items, index + 1, hi)
    ensures Entries(items - {index}, lo, hi) == Entries(items, lo, index) + Entries(items, index + 1, hi)
  {
    var less := items - {index};
    EntriesSplit(items, lo, index, hi);
    EntriesSplit(less, lo, index, hi);
    EntriesAgree(less, items, lo, index);
    EntriesAgree(less, items, index + 1, hi);
    assert Entries(less, index, hi) == Entries(less, index + 1, hi);
    assert Entries(items, index, hi) == [(index, items[index])] + Entries(items, index + 1, hi);
  }

  class StoredQueue<V> {
    var items: map<nat, V>
    var insertIndex: nat
    var removeIndex: nat

    /** Stored indices lie in the window, and the oldest one is where the window starts. */
    ghost predicate Valid()
      reads this
    {
      && removeIndex <= insertIndex <= MAX_INDEX
      && (forall i :: i in items ==> removeIndex <= i < insertIndex)
      && (removeIndex < insertIndex ==> removeIndex in items)
    }

    ghost function Contents(): (s: seq<(nat, V)>)
      requires Valid()
      reads this
    {
      Entries(items, removeIndex, insertIndex)
    }

    constructor ()
      ensures Valid() && Contents() == []
    {
      items, insertIndex, removeIndex := map[], 0, 0;
    }

    /** Once the insert index is saturated every push overwrites the entry after the window, where none looks. */
    method Push(value: V)
      requires Valid()
      modifies this
      ensures removeIndex == old(removeIndex) && items == old(items)[old(insertIndex) := value]
      ensures old(insertIndex) < MAX_INDEX ==>
                Valid() && Contents() == old(Contents()) + [(old(insertIndex), value)]
      ensures old(insertIndex) == MAX_INDEX ==>
                insertIndex == MAX_INDEX && Entries(items, removeIndex, insertIndex) == old(Contents())
    {
      ghost var before := items;
      items := items[insertIndex := value];
      insertIndex := SaturatingPlusOne(insertIndex);
      if old(insertIndex) < MAX_INDEX {
        EntriesSplit(items, removeIndex, old(insertIndex), insertIndex);
        EntriesAgree(items, before, removeIndex, old(insertIndex));
        assert Entries(items, old(insertIndex), insertIndex) == [(old(insertIndex), value)];
      } else {
        EntriesAgree(items, before, removeIndex, insertIndex);
      }
    }

    /** Removes the item at `index`, wherever it is, and moves the window past the holes it leaves. */
    method Remove(index: nat) returns (value: Option<V>)
      requires Valid()
      modifies this
      ensures Valid() && insertIndex == old(insertIndex)
      ensures index !in old(items) ==> value == None && Contents() == old(Contents())
      ensures index in old(items) ==>
                && value == Some(old(items)[index])
                && items == old(items) - {index}
                && Contents() == Entries(old(items), old(removeIndex), index)
                   + Entries(old(items), index + 1, insertIndex)
                && old(Contents()) == Entries(old(items), old(removeIndex), index) + [(index, value.value)]
                                      + Entries(old(items), index + 1, insertIndex)
    {
      var insertI, removeI := insertIndex, removeIndex;
      if removeI >= insertI {
        return None;
      }
      ghost var before := items;
      value := if index in items then Some(items[index]) else None;
      items := items - {index};
      if index in before {
        EntriesRemove(before, removeIndex, index, insertI);
      } else {
        assert items == before;
      }
      if index == removeI {
        removeI := SaturatingPlusOne(removeI);
        ghost var start := removeIndex;
        while removeI !in items && removeI < insertI
          invariant start < removeI <= insertI
          invariant forall i :: i in items ==> removeI <= i < insertI
          invariant Entries(items, start, insertI) == Entries(items, removeI, insertI)
          decreases insertI - removeI
        {
          removeI := SaturatingPlusOne(removeI);
        }
        removeIndex := removeI;
      }
    }

    /** Takes the oldest surviving item. */
    method Pop() returns (value: Option<V>)
      requires Valid()
      modifies this
      ensures Valid() && insertIndex == old(insertIndex)
      ensures old(Contents()) == [] ==> value == None && Contents() == []
      ensures old(Contents()) != [] ==>
                value == Some(old(Contents())[0].1) && Contents() == old(Contents())[1..]
    {
      ghost var lo, hi := removeIndex, insertIndex;
      if lo < hi {
        EntriesRemove(items, lo, lo, hi);
      }
      value := Remove(removeIndex);
    }
  }
}
