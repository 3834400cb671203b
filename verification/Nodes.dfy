/** Node attribution: a capped, sorted, deduplicated set of node ids, and its union. */
module Nodes {
  import opened Sets
  import opened Sorting

  const MAX_NODES_PER_TEMPLATE: nat := 64

  predicate IntLess(a: int, b: int) { a < b }

  lemma IntLessTotal()
    ensures TotalOrder(IntLess)
  {
  }

  function Valid(ids: seq<int>): set<int> { set id | id in ids && id >= 1 }

  /** r lists, in order, the n smallest elements of s (all of them if there are no more). */
  ghost predicate IsSmallest(r: seq<int>, s: set<int>, n: nat) {
    && |r| <= n
    && StrictlySorted(r, IntLess)
    && (forall x :: x in r ==> x in s)
    && (forall x :: x in s && x !in r ==> |r| == n && forall y :: y in r ==> y < x)
  }

  ghost predicate IsLeast(m: int, s: set<int>) { m in s && forall x :: x in s ==> m <= x }

  lemma {:induction false} LeastExists(s: set<int>)
    requires |s| > 0
    ensures exists m :: IsLeast(m, s)
    decreases |s|
  {
    var x := Pick(s);
    var rest := s - {x};
    if |rest| == 0 {
      assert forall y :: y in s ==> y == x || y in rest;
      assert IsLeast(x, s);
    } else {
      LeastExists(rest);
      var k :| IsLeast(k, rest);
      assert forall y :: y in s ==> y == x || y in rest;
      assert IsLeast(if k < x then k else x, s);
    }
  }

  /** The n smallest elements of s, in order. */
  ghost function Smallest(s: set<int>, n: nat): (r: seq<int>)
    ensures IsSmallest(r, s, n)
  {
    if n == 0 || |s| == 0 then []
    else
      LeastExists(s);
      var m :| IsLeast(m, s);
      var rest := Smallest(s - {m}, n - 1);
      PutFirst(m, rest, s, n);
      [m] + rest
  }

  lemma EmptyIffNone(s: set<int>, n: nat)
    requires n > 0
    ensures |Smallest(s, n)| > 0 <==> s != {}
  {
    if s != {} { assert |s| > 0; }
  }

  /** A stored node set: the MAX_NODES_PER_TEMPLATE smallest. */
  ghost function Capped(ids: set<int>): seq<int> { Smallest(ids, MAX_NODES_PER_TEMPLATE) }

  /** The node ids kept: in increasing order, at most 64, and the ones left out are greater than all of them. */
  lemma CappedIsSmallest(ids: set<int>)
    ensures var r := Capped(ids);
            && IsSmallest(r, ids, 64) && |r| <= 64
            && (forall i, j :: 0 <= i < j < |r| ==> r[i] < r[j])
            && (forall x :: x in r ==> x in ids)
            && (forall x, y :: x in ids && x !in r && y in r ==> |r| == 64 && y < x)
  {
    var r := Capped(ids);
    forall i, j | 0 <= i < j < |r| ensures r[i] < r[j] { assert IntLess(r[i], r[j]); }
  }

  lemma PutFirst(m: int, rest: seq<int>, s: set<int>, n: nat)
    requires n > 0 && IsLeast(m, s) && IsSmallest(rest, s - {m}, n - 1)
    ensures IsSmallest([m] + rest, s, n)
  {
    forall j | 0 <= j < |rest| ensures IntLess(m, rest[j]) {
      assert rest[j] in rest;
    }
    var r := [m] + rest;
    forall x | x in s && x !in r ensures |r| == n && forall y :: y in r ==> y < x {
      assert x in s - {m} && x !in rest;
    }
  }

  /** There is one such list, so the order in which sets were merged cannot show. */
  lemma {:induction false} SmallestUnique(q: seq<int>, r: seq<int>, s: set<int>, n: nat)
    requires IsSmallest(q, s, n) && IsSmallest(r, s, n)
    ensures q == r
  {
    SmallestIncluded(q, r, s, n);
    SmallestIncluded(r, q, s, n);
    IntLessTotal();
    forall x ensures x in q <==> x in r {}
    StrictlySortedUnique(q, r, IntLess);
  }

  lemma SmallestIncluded(q: seq<int>, r: seq<int>, s: set<int>, n: nat)
    requires IsSmallest(q, s, n) && IsSmallest(r, s, n)
    ensures forall x :: x in q ==> x in r
  {
    var qs, rs := Elements(q), Elements(r);
    ElementsSize(q);
    ElementsSize(r);
    forall x | x in q ensures x in r {
      if x !in r {
        assert |r| == n && forall y :: y in r ==> y < x;
        forall y | y in r ensures y in q {
          assert y !in q ==> x < y;
        }
        assert rs < qs by { assert x in qs && x !in rs; }
        ProperSubsetSize(rs, qs);
        assert false;
      }
    }
  }

  lemma ElementsSize(s: seq<int>)
    requires StrictlySorted(s, IntLess)
    ensures |Elements(s)| == |s|
  {
    SizeOfStrict(s, Elements(s), IntLess);
  }

  /** SanitizeNodeIDs: drop ids below 1 and duplicates, sort, cap. */
  method SanitizeNodeIDs(ids: seq<int>) returns (out: seq<int>)
    ensures out == Smallest(Valid(ids), MAX_NODES_PER_TEMPLATE)
  {
    var seen: set<int> := {};
    out := [];
    for i := 0 to |ids|
      invariant seen == Valid(ids[..i]) == Elements(out)
      invariant Distinct(out)
    {
      assert ids[..i + 1] == ids[..i] + [ids[i]];
      if ids[i] < 1 || ids[i] in seen { continue; }
      seen := seen + {ids[i]};
      out := out + [ids[i]];
    }
    assert ids[..|ids|] == ids;
    var all := Sort(out, IntLess);
    MembersOfPermutation(out, all);
    DistinctPermutation(out, all);
    DistinctSortedIsStrict(all, IntLess);
    FirstOfSorted(all, Valid(ids), MAX_NODES_PER_TEMPLATE);
    out := all;
    if |out| > MAX_NODES_PER_TEMPLATE { out := out[..MAX_NODES_PER_TEMPLATE]; }
  }

  lemma FirstOfSorted(all: seq<int>, s: set<int>, n: nat)
    requires StrictlySorted(all, IntLess) && forall x :: x in all <==> x in s
    ensures (if |all| > n then all[..n] else all) == Smallest(s, n)
  {
    var out := if |all| > n then all[..n] else all;
    assert all == out + all[|out|..];
    SmallestUnique(out, Smallest(s, n), s, n);
  }

  /** MergeNodeIDs: the capped union; an empty side is skipped. */
  method MergeNodeIDs(a: seq<int>, b: seq<int>) returns (out: seq<int>)
    ensures out == Smallest(Valid(a) + Valid(b), MAX_NODES_PER_TEMPLATE)
  {
    assert Valid(a + b) == Valid(a) + Valid(b);
    if |a| == 0 {
      out := SanitizeNodeIDs(b);
    } else if |b| == 0 {
      out := SanitizeNodeIDs(a);
    } else {
      out := SanitizeNodeIDs(a + b);
    }
  }

  /** Capping before a union loses nothing of the capped union. */
  lemma CappedUnion(a: set<int>, b: set<int>, n: nat)
    ensures Smallest(Elements(Smallest(a, n)) + b, n) == Smallest(a + b, n)
  {
    var r := Smallest(a, n);
    var q := Smallest(Elements(r) + b, n);
    forall x | x in a + b && x !in q ensures |q| == n && forall y :: y in q ==> y < x {
      if x !in Elements(r) + b {
        if y :| y in r && y !in q {
          assert y < x;
        } else {
          AllTaken(r, q, n);
        }
      }
    }
    SmallestUnique(q, Smallest(a + b, n), a + b, n);
  }

  lemma AllTaken(r: seq<int>, q: seq<int>, n: nat)
    requires |r| == n && |q| <= n && StrictlySorted(r, IntLess) && StrictlySorted(q, IntLess)
    requires forall y :: y in r ==> y in q
    ensures q == r
  {
    ElementsSize(r);
    ElementsSize(q);
    if Elements(r) < Elements(q) {
      ProperSubsetSize(Elements(r), Elements(q));
    }
    assert Elements(r) == Elements(q);
    forall x ensures x in q <==> x in r { assert x in Elements(q) <==> x in Elements(r); }
    StrictlySortedUnique(q, r, IntLess);
  }

  function Union(sets: seq<seq<int>>): set<int> {
    if sets == [] then {} else Union(sets[..|sets| - 1]) + Valid(sets[|sets| - 1])
  }

  /** The analyzer's fold over the cited templates: the smallest ids of their union. */
  method MergeAll(sets: seq<seq<int>>) returns (out: seq<int>)
    ensures out == Smallest(Union(sets), MAX_NODES_PER_TEMPLATE)
  {
    out := [];
    for i := 0 to |sets|
      invariant out == Smallest(Union(sets[..i]), MAX_NODES_PER_TEMPLATE)
    {
      assert sets[..i + 1][..i] == sets[..i];
      CappedMerge(Union(sets[..i]), Valid(sets[i]), MAX_NODES_PER_TEMPLATE);
      UnionIsValid(sets[..i]);
      out := MergeNodeIDs(out, sets[i]);
    }
    assert sets[..|sets|] == sets;
  }

  lemma {:induction false} UnionIsValid(sets: seq<seq<int>>)
    ensures forall x :: x in Union(sets) ==> x >= 1
  {
    if sets != [] { UnionIsValid(sets[..|sets| - 1]); }
  }

  lemma CappedMerge(a: set<int>, b: set<int>, n: nat)
    ensures (forall x :: x in a ==> x >= 1) ==> Smallest(Valid(Smallest(a, n)) + b, n) == Smallest(a + b, n)
  {
    if forall x :: x in a ==> x >= 1 {
      assert Valid(Smallest(a, n)) == Elements(Smallest(a, n));
      CappedUnion(a, b, n);
    }
  }

  lemma UnionOfPermutation(a: seq<seq<int>>, b: seq<seq<int>>)
    requires forall s :: s in a <==> s in b
    ensures Union(a) == Union(b)
  {
    forall x ensures x in Union(a) <==> x in Union(b) {
      UnionMember(a, x);
      UnionMember(b, x);
    }
  }

  lemma {:induction false} UnionMember(sets: seq<seq<int>>, x: int)
    ensures x in Union(sets) <==> exists s :: s in sets && x in Valid(s)
  {
    if sets != [] {
      var init := sets[..|sets| - 1];
      assert sets == init + [sets[|sets| - 1]];
      UnionMember(init, x);
      if s :| s in sets && x in Valid(s) && s !in init { assert s == sets[|sets| - 1]; }
    }
  }
}
