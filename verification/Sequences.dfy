/** Duplicate-free lists, filtering and descending sort, as the pallets use them on account lists. */
module Sequences {

  ghost predicate NoDuplicates<T(!new)>(s: seq<T>) {
    forall x :: multiset(s)[x] <= 1
  }

  function Elements(s: seq<nat>): (r: set<nat>) {
    set x | x in s
  }

  /** `retain`: the elements of s outside `gone`, in order. */
  function Without(s: seq<nat>, gone: set<nat>): (r: seq<nat>) {
    if s == [] then [] else (if s[0] in gone then [] else [s[0]]) + Without(s[1..], gone)
  }

  lemma {:induction false} WithoutCounts(s: seq<nat>, gone: set<nat>, x: nat)
    ensures multiset(Without(s, gone))[x] == if x in gone then 0 else multiset(s)[x]
  {
    if s != [] {
      assert s == [s[0]] + s[1..];
      WithoutCounts(s[1..], gone, x);
    }
  }

  lemma WithoutKeeps(s: seq<nat>, gone: set<nat>)
    ensures forall x :: x in Without(s, gone) <==> x in s && x !in gone
    ensures NoDuplicates(s) ==> NoDuplicates(Without(s, gone))
  {
    forall x ensures x in Without(s, gone) <==> x in s && x !in gone
             ensures multiset(Without(s, gone))[x] <= multiset(s)[x]
    {
      WithoutCounts(s, gone, x);
      assert x in Without(s, gone) <==> multiset(Without(s, gone))[x] > 0;
      assert x in s <==> multiset(s)[x] > 0;
    }
  }

  lemma {:induction false} WithoutOneMore(s: seq<nat>, gone: set<nat>, x: nat)
    ensures Without(s + [x], gone) == Without(s, gone) + if x in gone then [] else [x]
  {
    if s != [] {
      WithoutOneMore(s[1..], gone, x);
      assert (s + [x])[1..] == s[1..] + [x];
    } else {
      assert [x][1..] == [];
    }
  }

  function InsertDescending(s: seq<nat>, x: nat): (r: seq<nat>) {
    if s == [] || s[0] <= x then [x] + s else [s[0]] + InsertDescending(s[1..], x)
  }

  /** `sort_by(|a, b| a.cmp(b).reverse())`. */
  function SortDescending(s: seq<nat>): (r: seq<nat>) {
    if s == [] then [] else InsertDescending(SortDescending(s[1..]), s[0])
  }

  ghost predicate Descending(s: seq<nat>) {
    forall i, j :: 0 <= i < j < |s| ==> s[i] >= s[j]
  }

  lemma {:induction false} InsertCounts(s: seq<nat>, x: nat)
    ensures multiset(InsertDescending(s, x)) == multiset(s) + multiset{x}
  {
    if s != [] && !(s[0] <= x) {
      assert s == [s[0]] + s[1..];
      InsertCounts(s[1..], x);
    }
  }

  lemma {:induction false} SortCounts(s: seq<nat>)
    ensures multiset(SortDescending(s)) == multiset(s)
  {
    if s != [] {
      assert s == [s[0]] + s[1..];
      SortCounts(s[1..]);
      InsertCounts(SortDescending(s[1..]), s[0]);
    }
  }

  lemma SameElements(s: seq<nat>, t: seq<nat>)
    requires multiset(s) == multiset(t)
    ensures forall x :: x in s <==> x in t
  {
    forall x ensures x in s <==> x in t {
      assert x in s <==> x in multiset(s);
      assert x in t <==> x in multiset(t);
    }
  }

  lemma {:induction false} InsertDescends(s: seq<nat>, x: nat)
    requires Descending(s)
    ensures Descending(InsertDescending(s, x))
  {
    if s != [] && !(s[0] <= x) {
      var rest := InsertDescending(s[1..], x);
      InsertDescends(s[1..], x);
      InsertCounts(s[1..], x);
      forall j | 0 <= j < |rest| ensures s[0] >= rest[j] {
        var y := rest[j];
        assert y in multiset(rest);
        assert y == x || y in multiset(s[1..]);
        if y != x {
          assert y in s[1..];
        }
      }
      PrependDescends(s[0], rest);
    }
  }

  lemma PrependDescends(x: nat, s: seq<nat>)
    requires Descending(s) && forall j :: 0 <= j < |s| ==> x >= s[j]
    ensures Descending([x] + s)
  {}

  lemma {:induction false} SortDescends(s: seq<nat>)
    ensures Descending(SortDescending(s))
  {
    if s != [] {
      SortDescends(s[1..]);
      InsertDescends(SortDescending(s[1..]), s[0]);
    }
  }

  lemma {:induction false} WithoutDescends(s: seq<nat>, gone: set<nat>)
    requires Descending(s)
    ensures Descending(Without(s, gone))
  {
    if s != [] {
      var rest := Without(s[1..], gone);
      WithoutDescends(s[1..], gone);
      WithoutKeeps(s[1..], gone);
      if s[0] !in gone {
        forall j | 0 <= j < |rest| ensures s[0] >= rest[j] {
          assert rest[j] in s[1..];
        }
        PrependDescends(s[0], rest);
      } else {
        assert Without(s, gone) == rest;
      }
    }
  }

  lemma TailCounts(s: seq<nat>)
    requires s != []
    ensures multiset(s[1..]) == multiset(s) - multiset{s[0]}
  {
    assert s == [s[0]] + s[1..];
  }

  lemma SameHead(s: seq<nat>, t: seq<nat>)
    requires Descending(s) && Descending(t) && multiset(s) == multiset(t) && s != [] && t != []
    ensures s[0] == t[0]
  {
    assert s[0] in multiset(t) && t[0] in multiset(s);
    assert s[0] in t && t[0] in s;
  }

  /** A multiset has one descending listing, so sorting forgets the order of its input. */
  lemma {:induction false} DescendingUnique(s: seq<nat>, t: seq<nat>)
    requires Descending(s) && Descending(t) && multiset(s) == multiset(t)
    ensures s == t
  {
    assert |multiset(s)| == |s| && |multiset(t)| == |t|;
    if s != [] {
      SameHead(s, t);
      TailCounts(s);
      TailCounts(t);
      DescendingUnique(s[1..], t[1..]);
      assert s == [s[0]] + s[1..] && t == [t[0]] + t[1..];
    }
  }

  lemma SortForgetsOrder(s: seq<nat>, t: seq<nat>)
    requires multiset(s) == multiset(t)
    ensures SortDescending(s) == SortDescending(t)
  {
    SortCounts(s);
    SortCounts(t);
    SortDescends(s);
    SortDescends(t);
    DescendingUnique(SortDescending(s), SortDescending(t));
  }

  /** Some listing of a finite set; sorted lists built from it do not depend on which. */
  ghost function Listing(s: set<nat>): (r: seq<nat>)
    ensures multiset(r) == multiset(s)
  {
    if s == {} then []
    else
      var x :| x in s;
      assert multiset(s) == multiset(s - {x}) + multiset{x};
      [x] + Listing(s - {x})
  }

  lemma ListingMembers(s: set<nat>)
    ensures forall x :: x in Listing(s) <==> x in s
  {
    forall x ensures x in Listing(s) <==> x in s {
      assert x in Listing(s) <==> x in multiset(Listing(s));
    }
  }

  /** Merging a duplicate-free list with a disjoint set and sorting keeps it duplicate-free. */
  lemma MergeSorted(p: seq<nat>, q: seq<nat>, s: set<nat>)
    requires NoDuplicates(p) && multiset(q) == multiset(s)
    requires forall x :: x in p ==> x !in s
    ensures NoDuplicates(SortDescending(p + q))
    ensures forall x :: x in SortDescending(p + q) <==> x in p || x in s
  {
    var list := p + q;
    SortCounts(list);
    SameElements(SortDescending(list), list);
    assert multiset(list) == multiset(p) + multiset(q);
    forall x ensures multiset(list)[x] <= 1 && (x in list <==> x in p || x in s) {
      assert x in p <==> multiset(p)[x] > 0;
      assert x in list <==> multiset(list)[x] > 0;
    }
  }

  // ------------------------------------------------------------- duplicate-free lists

  lemma NotInPrefix(order: seq<nat>, n: nat)
    requires NoDuplicates(order) && n < |order|
    ensures order[n] !in order[..n] && NoDuplicates(order[..n])
  {
    assert order == order[..n] + [order[n]] + order[n + 1..];
    forall x ensures multiset(order[..n])[x] <= multiset(order)[x] {}
    assert multiset(order)[order[n]] >= multiset(order[..n])[order[n]] + 1;
    assert order[n] in order[..n] <==> multiset(order[..n])[order[n]] > 0;
  }

  lemma {:induction false} NoDuplicatesSize(s: seq<nat>)
    requires NoDuplicates(s)
    ensures |Elements(s)| == |s|
  {
    if s == [] {
      assert Elements(s) == {};
    } else {
      var n := |s| - 1;
      NotInPrefix(s, n);
      NoDuplicatesSize(s[..n]);
      assert s == s[..n] + [s[n]];
      assert Elements(s) == Elements(s[..n]) + {s[n]};
    }
  }

  lemma SplitNoDuplicates(s: seq<nat>, k: nat)
    requires NoDuplicates(s) && k <= |s|
    ensures NoDuplicates(s[..k]) && NoDuplicates(s[k..])
    ensures forall m :: m in s[..k] ==> m !in s[k..]
    ensures forall m :: m in s <==> m in s[..k] || m in s[k..]
  {
    assert s == s[..k] + s[k..];
    assert multiset(s) == multiset(s[..k]) + multiset(s[k..]);
    forall x
      ensures multiset(s[..k])[x] <= 1 && multiset(s[k..])[x] <= 1
      ensures x in s[..k] ==> x !in s[k..]
    {
      assert multiset(s)[x] <= 1;
      assert x in s[..k] <==> multiset(s[..k])[x] > 0;
      assert x in s[k..] <==> multiset(s[k..])[x] > 0;
    }
  }

  lemma AppendNoDuplicates<T(!new)>(s: seq<T>, t: seq<T>)
    requires NoDuplicates(s) && NoDuplicates(t) && forall x :: x in t ==> x !in s
    ensures NoDuplicates(s + t)
  {
    assert multiset(s + t) == multiset(s) + multiset(t);
    forall x ensures multiset(s + t)[x] <= 1 {
      assert x in s <==> multiset(s)[x] > 0;
      assert x in t <==> multiset(t)[x] > 0;
    }
  }

  /** `order` lists the elements of s, each once. */
  ghost predicate ListsOnce(order: seq<nat>, s: set<nat>) {
    NoDuplicates(order) && Elements(order) == s
  }

  lemma ListsOneMore(order: seq<nat>, all: set<nat>, todo: set<nat>, n: nat)
    requires ListsOnce(order, all - todo) && n in todo && todo <= all
    ensures ListsOnce(order + [n], all - (todo - {n}))
  {
    assert n !in Elements(order);
    AppendNoDuplicates(order, [n]);
    assert Elements(order + [n]) == Elements(order) + {n};
  }

  lemma ListsOnceNothing()
    ensures ListsOnce([], {})
  {}

  lemma ListsOnceDistinct(order: seq<nat>, s: set<nat>)
    requires ListsOnce(order, s)
    ensures NoDuplicates(order) && Elements(order) == s
  {}

  lemma NextElement(s: seq<nat>, i: nat)
    requires i < |s|
    ensures Elements(s[..i + 1]) == Elements(s[..i]) + {s[i]}
    ensures NoDuplicates(s) ==> s[i] !in Elements(s[..i])
  {
    assert s[..i + 1] == s[..i] + [s[i]];
    if NoDuplicates(s) {
      NotInPrefix(s, i);
    }
  }

  lemma TailDistinct(q: seq<nat>)
    requires NoDuplicates(q) && q != []
    ensures NoDuplicates(q[1..]) && q[0] !in q[1..]
  {
    assert q == [q[0]] + q[1..];
    assert multiset(q) == multiset{q[0]} + multiset(q[1..]);
    forall x ensures multiset(q[1..])[x] <= 1 {
      assert multiset(q)[x] <= 1;
    }
    assert multiset(q)[q[0]] <= 1;
    assert q[0] in q[1..] <==> multiset(q[1..])[q[0]] > 0;
  }
}
