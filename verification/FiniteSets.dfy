/** Cardinality, ordering and summation facts about finite sets, used by every module. */
module FiniteSets {

  lemma SubsetSize<T>(a: set<T>, b: set<T>)
    requires a <= b
    ensures |a| <= |b|
    ensures |a| == |b| ==> a == b
  {
    assert b == a + (b - a);
  }

  predicate IsMax(s: set<nat>, m: nat) {
    m in s && forall x :: x in s ==> x <= m
  }

  predicate IsMin(s: set<nat>, m: nat) {
    m in s && forall x :: x in s ==> m <= x
  }

  lemma HasMax(s: set<nat>)
    requires s != {}
    ensures exists m :: m in s && IsMax(s, m)
  {
    var x :| x in s;
    var rest := s - {x};
    assert forall y :: y in s ==> y == x || y in rest;
    if rest == {} {
      assert IsMax(s, x);
    } else {
      HasMax(rest);
      var m :| m in rest && IsMax(rest, m);
      assert IsMax(s, if m < x then x else m);
    }
  }

  lemma HasMin(s: set<nat>)
    requires s != {}
    ensures exists m :: m in s && IsMin(s, m)
  {
    var x :| x in s;
    var rest := s - {x};
    assert forall y :: y in s ==> y == x || y in rest;
    if rest == {} {
      assert IsMin(s, x);
    } else {
      HasMin(rest);
      var m :| m in rest && IsMin(rest, m);
      assert IsMin(s, if x < m then x else m);
    }
  }

  ghost function Max(s: set<nat>): (m: nat)
    requires s != {}
    ensures IsMax(s, m)
  {
    HasMax(s);
    var m :| m in s && IsMax(s, m);
    m
  }

  ghost function Min(s: set<nat>): (m: nat)
    requires s != {}
    ensures IsMin(s, m)
  {
    HasMin(s);
    var m :| m in s && IsMin(s, m);
    m
  }

  method FindMax(s: set<nat>) returns (m: nat)
    requires s != {}
    ensures m == Max(s)
  {
    HasMax(s);
    m :| m in s && IsMax(s, m);
  }

  method FindMin(s: set<nat>) returns (m: nat)
    requires s != {}
    ensures m == Min(s)
  {
    HasMin(s);
    m :| m in s && IsMin(s, m);
  }

  /** `low` holds `k` elements of `s`, all below the ones left out. */
  ghost predicate IsLowest(s: set<nat>, k: nat, low: set<nat>) {
    && low <= s
    && |low| == k
    && forall a, b :: a in low && b in s && b !in low ==> a < b
  }

  lemma LowestExists(s: set<nat>, k: nat)
    requires k <= |s|
    ensures exists low :: IsLowest(s, k, low)
    decreases |s|
  {
    if |s| == k {
      assert IsLowest(s, k, s);
    } else {
      var m := Max(s);
      assert |s - {m}| == |s| - 1;
      LowestExists(s - {m}, k);
      var low :| IsLowest(s - {m}, k, low);
      assert forall b :: b in s && b !in low ==> b == m || b in s - {m};
      assert IsLowest(s, k, low);
    }
  }

  /** The `k` smallest elements of `s`. */
  ghost function Lowest(s: set<nat>, k: nat): (low: set<nat>)
    requires k <= |s|
    ensures IsLowest(s, k, low)
  {
    LowestExists(s, k);
    var low :| IsLowest(s, k, low);
    low
  }

  lemma LowestUnique(s: set<nat>, k: nat, a: set<nat>, b: set<nat>)
    requires IsLowest(s, k, a) && IsLowest(s, k, b)
    ensures a == b
  {
    if a <= b {
      SubsetSize(a, b);
    } else if b <= a {
      SubsetSize(b, a);
    } else {
      assert false;
    }
  }

  /** Any two subsets of `s` whose sizes add up to more than |s| share an element. */
  lemma Overlap<T>(s: set<T>, a: set<T>, b: set<T>)
    requires a <= s && b <= s
    requires |a| + |b| > |s|
    ensures exists x :: x in a && x in b
  {
    if a !! b {
      assert |a + b| == |a| + |b|;
      SubsetSize(a + b, s);
    }
  }

  ghost function Sum<T>(s: set<T>, f: T -> nat): (total: nat) {
    if s == {} then 0
    else
      var x :| x in s;
      f(x) + Sum(s - {x}, f)
  }

  lemma SumRemove<T>(s: set<T>, f: T -> nat, x: T)
    requires x in s
    ensures Sum(s, f) == f(x) + Sum(s - {x}, f)
    decreases |s|
  {
    var y :| y in s && Sum(s, f) == f(y) + Sum(s - {y}, f);
    if y != x {
      assert |s - {y}| == |s| - 1 && |s - {x}| == |s| - 1;
      SumRemove(s - {y}, f, x);
      SumRemove(s - {x}, f, y);
      assert s - {y} - {x} == s - {x} - {y};
    }
  }

  lemma SumAgree<T>(s: set<T>, f: T -> nat, g: T -> nat)
    requires forall x :: x in s ==> f(x) == g(x)
    ensures Sum(s, f) == Sum(s, g)
    decreases |s|
  {
    if s != {} {
      var x :| x in s;
      SumRemove(s, f, x);
      SumRemove(s, g, x);
      assert |s - {x}| < |s|;
      SumAgree(s - {x}, f, g);
    }
  }

  /** Changing the summand at one element changes the sum by that element's difference. */
  lemma SumChange<T>(s: set<T>, f: T -> nat, g: T -> nat, x: T)
    requires x in s
    requires forall y :: y in s && y != x ==> f(y) == g(y)
    ensures Sum(s, g) + f(x) == Sum(s, f) + g(x)
  {
    SumRemove(s, f, x);
    SumRemove(s, g, x);
    SumAgree(s - {x}, f, g);
  }

  lemma SumSplit<T>(s: set<T>, part: set<T>, f: T -> nat)
    requires part <= s
    ensures Sum(s, f) == Sum(part, f) + Sum(s - part, f)
    decreases |part|
  {
    if part == {} {
      assert s - part == s;
    } else {
      var x :| x in part;
      SumRemove(s, f, x);
      SumRemove(part, f, x);
      assert |part - {x}| < |part|;
      SumSplit(s - {x}, part - {x}, f);
      assert s - {x} - (part - {x}) == s - part;
    }
  }

  lemma SumConstant<T>(s: set<T>, f: T -> nat, c: nat)
    requires forall x :: x in s ==> f(x) == c
    ensures Sum(s, f) == c * |s|
    decreases |s|
  {
    if s != {} {
      var x :| x in s;
      SumRemove(s, f, x);
      assert |s - {x}| == |s| - 1;
      SumConstant(s - {x}, f, c);
      assert c * (|s| - 1) + c == c * |s|;
    }
  }
}
