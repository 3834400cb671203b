/** Sorting as the programs use it: an order given by a strict "less" test, a sort that promises
    only a sorted permutation, and the fact that a strictly sorted sequence is determined by its
    elements. */
module Sorting {

  /** A strict weak order: what sort.Slice needs from its less function. */
  ghost predicate WeakOrder<T(!new)>(less: (T, T) -> bool) {
    && (forall x, y :: less(x, y) ==> !less(y, x))
    && (forall x, y, z :: !less(y, x) && !less(z, y) ==> !less(z, x))
  }

  /** A strict total order: distinct elements are always related. */
  ghost predicate TotalOrder<T(!new)>(less: (T, T) -> bool) {
    && (forall x, y :: less(x, y) ==> !less(y, x))
    && (forall x, y, z :: less(x, y) && less(y, z) ==> less(x, z))
    && (forall x, y :: x != y ==> less(x, y) || less(y, x))
  }

  ghost predicate SortedBy<T>(s: seq<T>, less: (T, T) -> bool) {
    forall i, j :: 0 <= i < j < |s| ==> !less(s[j], s[i])
  }

  ghost predicate StrictlySorted<T>(s: seq<T>, less: (T, T) -> bool) {
    forall i, j :: 0 <= i < j < |s| ==> less(s[i], s[j])
  }

  ghost predicate Distinct<T>(s: seq<T>) {
    forall i, j :: 0 <= i < j < |s| ==> s[i] != s[j]
  }

  /** The library sort. Nothing is promised about the order of ties. */
  method Sort<T(!new)>(s: seq<T>, less: (T, T) -> bool) returns (r: seq<T>)
    requires WeakOrder(less)
    ensures multiset(r) == multiset(s)
    ensures SortedBy(r, less)
  {
    r := [];
    for i := 0 to |s|
      invariant multiset(r) == multiset(s[..i])
      invariant SortedBy(r, less)
    {
      assert s[..i + 1] == s[..i] + [s[i]];
      r := Insert(r, s[i], less);
    }
    assert s[..|s|] == s;
  }

  method Insert<T(!new)>(s: seq<T>, x: T, less: (T, T) -> bool) returns (r: seq<T>)
    requires WeakOrder(less) && SortedBy(s, less)
    ensures multiset(r) == multiset(s) + multiset{x}
    ensures SortedBy(r, less)
  {
    var k := |s|;
    while k > 0 && less(x, s[k - 1])
      invariant 0 <= k <= |s|
      invariant forall j :: k <= j < |s| ==> less(x, s[j])
    {
      k := k - 1;
    }
    r := s[..k] + [x] + s[k..];
    assert s == s[..k] + s[k..];
    InsertedInOrder(s, x, k, less);
  }

  lemma InsertedInOrder<T(!new)>(s: seq<T>, x: T, k: nat, less: (T, T) -> bool)
    requires WeakOrder(less) && SortedBy(s, less) && k <= |s|
    requires k > 0 ==> !less(x, s[k - 1])
    requires forall j :: k <= j < |s| ==> less(x, s[j])
    ensures SortedBy(s[..k] + [x] + s[k..], less)
  {
    var r := s[..k] + [x] + s[k..];
    forall i, j | 0 <= i < j < |r| ensures !less(r[j], r[i]) {
      var si := if i < k then s[i] else if i == k then x else s[i - 1];
      var sj := if j < k then s[j] else if j == k then x else s[j - 1];
      assert r[i] == si && r[j] == sj;
      if i < k && j == k {
        BeforeInserted(s, x, i, k, less);
      }
    }
  }

  lemma BeforeInserted<T(!new)>(s: seq<T>, x: T, i: nat, k: nat, less: (T, T) -> bool)
    requires WeakOrder(less) && SortedBy(s, less) && i < k <= |s|
    requires !less(x, s[k - 1])
    ensures !less(x, s[i])
  {
    if i < k - 1 {
      var y := s[k - 1];
      assert !less(y, s[i]) && !less(x, y);
    }
  }

  lemma TotalIsWeak<T(!new)>(less: (T, T) -> bool)
    requires TotalOrder(less)
    ensures WeakOrder(less)
  {
    forall x, y, z | !less(y, x) && !less(z, y) ensures !less(z, x) {
      assert x != y ==> less(x, y);
      assert y != z ==> less(y, z);
    }
  }

  lemma MembersOfPermutation<T>(a: seq<T>, b: seq<T>)
    requires multiset(a) == multiset(b)
    ensures |a| == |b|
    ensures forall x :: x in a <==> x in b
  {
    assert |multiset(a)| == |a| && |multiset(b)| == |b|;
    forall x ensures x in a <==> x in b {
      assert x in a <==> x in multiset(a);
      assert x in b <==> x in multiset(b);
    }
  }

  lemma DistinctPermutation<T>(a: seq<T>, b: seq<T>)
    requires multiset(a) == multiset(b) && Distinct(a)
    ensures Distinct(b)
  {
    if i, j :| 0 <= i < j < |b| && b[i] == b[j] {
      var x := b[i];
      assert multiset(b)[x] >= 2 by { TwoOccurrences(b, i, j); }
      AtMostOneOccurrence(a, x);
    }
  }

  lemma TwoOccurrences<T>(s: seq<T>, i: nat, j: nat)
    requires i < j < |s| && s[i] == s[j]
    ensures multiset(s)[s[i]] >= 2
  {
    assert s == s[..i] + [s[i]] + s[i + 1..j] + [s[j]] + s[j + 1..];
  }

  lemma {:induction false} AtMostOneOccurrence<T>(s: seq<T>, x: T)
    requires Distinct(s)
    ensures multiset(s)[x] <= 1
  {
    if s != [] {
      assert s == [s[0]] + s[1..];
      if s[0] == x {
        assert x !in s[1..];
      } else {
        AtMostOneOccurrence(s[1..], x);
      }
    }
  }

  lemma SubsetSize<T>(small: set<T>, big: set<T>)
    requires small <= big
    ensures |small| <= |big|
  {
    assert big == small + (big - small);
  }

  lemma ProperSubsetSize<T>(small: set<T>, big: set<T>)
    requires small < big
    ensures |small| < |big|
  {
    assert big == small + (big - small);
    assert big - small != {};
  }

  lemma TakenByPosition<T>(s: seq<T>, n: nat, i: nat)
    requires Distinct(s) && n <= |s| && i < |s|
    ensures s[i] in s[..n] <==> i < n
  {
    if i < n {
      assert s[..n][i] == s[i];
    }
  }

  /** Sorting distinct elements under a total order leaves no ties. */
  lemma DistinctSortedIsStrict<T(!new)>(s: seq<T>, less: (T, T) -> bool)
    requires TotalOrder(less) && SortedBy(s, less) && Distinct(s)
    ensures StrictlySorted(s, less)
  {
  }

  lemma StrictIsDistinct<T(!new)>(s: seq<T>, less: (T, T) -> bool)
    requires TotalOrder(less) && StrictlySorted(s, less)
    ensures Distinct(s)
  {
    forall i, j | 0 <= i < j < |s| ensures s[i] != s[j] { assert less(s[i], s[j]) && !less(s[j], s[i]); }
  }

  ghost predicate Asymmetric<T(!new)>(less: (T, T) -> bool) {
    forall x, y :: less(x, y) ==> !less(y, x)
  }

  /** A strictly sorted sequence is determined by the set of its elements. */
  lemma {:induction false} StrictlySortedUnique<T(!new)>(a: seq<T>, b: seq<T>, less: (T, T) -> bool)
    requires Asymmetric(less)
    requires StrictlySorted(a, less) && StrictlySorted(b, less)
    requires forall x :: x in a <==> x in b
    ensures a == b
  {
    assert |b| > 0 ==> b[0] in b;
    if a != [] {
      assert a[0] in a && a[0] in b;
      assert b[0] in b && b[0] in a;
      var a0, b0 := a[0], b[0];
      assert a0 == b0 by {
        var i :| 0 <= i < |a| && a[i] == b[0];
        var j :| 0 <= j < |b| && b[j] == a[0];
        assert i > 0 ==> less(a0, b0);
        assert j > 0 ==> less(b0, a0);
      }
      forall x ensures x in a[1..] <==> x in b[1..] {
        TailMembers(a, x, less);
        TailMembers(b, x, less);
      }
      StrictlySortedUnique(a[1..], b[1..], less);
      assert a == [a[0]] + a[1..] && b == [b[0]] + b[1..];
    }
  }

  lemma TailMembers<T(!new)>(s: seq<T>, x: T, less: (T, T) -> bool)
    requires Asymmetric(less) && StrictlySorted(s, less) && s != []
    ensures x in s[1..] <==> x in s && x != s[0]
  {
    if x in s[1..] {
      var i :| 0 <= i < |s[1..]| && s[1..][i] == x;
      assert less(s[0], s[i + 1]);
    }
    if x in s && x != s[0] {
      var i :| 0 <= i < |s| && s[i] == x;
      assert s[1..][i - 1] == x;
    }
  }

  /** In a strictly sorted sequence, an element's position counts the elements before it. */
  lemma RankIsPosition<T(!new)>(s: seq<T>, i: nat, before: set<T>, less: (T, T) -> bool)
    requires Asymmetric(less) && StrictlySorted(s, less) && i < |s|
    requires forall x :: x in before <==> x in s && less(x, s[i])
    ensures |before| == i
  {
    var pivot := s[i];
    forall x ensures x in before <==> x in s[..i] {
      if x in before {
        var j :| 0 <= j < |s| && s[j] == x;
        assert j > i ==> less(pivot, x);
        assert s[..i][j] == x;
      }
    }
    assert StrictlySorted(s[..i], less);
    SizeOfStrict(s[..i], before, less);
  }

  lemma {:induction false} SizeOfStrict<T(!new)>(s: seq<T>, elements: set<T>, less: (T, T) -> bool)
    requires Asymmetric(less) && StrictlySorted(s, less)
    requires forall x :: x in elements <==> x in s
    ensures |elements| == |s|
  {
    if s == [] {
      assert elements == {};
    } else {
      forall x ensures x in elements - {s[0]} <==> x in s[1..] { TailMembers(s, x, less); }
      SizeOfStrict(s[1..], elements - {s[0]}, less);
    }
  }

  /** Byte order on strings, the order of sort.Strings and of < on strings. */
  predicate StringLess(a: string, b: string) {
    b != [] && (a == [] || a[0] < b[0] || (a[0] == b[0] && StringLess(a[1..], b[1..])))
  }

  lemma StringLessTotal()
    ensures TotalOrder(StringLess)
  {
    forall x, y | StringLess(x, y) ensures !StringLess(y, x) { StringLessAsymmetric(x, y); }
    forall x, y, z | StringLess(x, y) && StringLess(y, z) ensures StringLess(x, z) {
      StringLessTransitive(x, y, z);
    }
    forall x: string, y: string | x != y ensures StringLess(x, y) || StringLess(y, x) {
      StringLessTrichotomy(x, y);
    }
  }

  lemma {:induction false} StringLessAsymmetric(x: string, y: string)
    requires StringLess(x, y)
    ensures !StringLess(y, x)
  {
    if x != [] && x[0] == y[0] { StringLessAsymmetric(x[1..], y[1..]); }
  }

  lemma {:induction false} StringLessTransitive(x: string, y: string, z: string)
    requires StringLess(x, y) && StringLess(y, z)
    ensures StringLess(x, z)
  {
    if x != [] && x[0] == y[0] && y[0] == z[0] { StringLessTransitive(x[1..], y[1..], z[1..]); }
  }

  lemma {:induction false} StringLessTrichotomy(x: string, y: string)
    requires x != y
    ensures StringLess(x, y) || StringLess(y, x)
  {
    if x != [] && y != [] && x[0] == y[0] {
      assert x == [x[0]] + x[1..] && y == [y[0]] + y[1..];
      StringLessTrichotomy(x[1..], y[1..]);
    }
  }
}
