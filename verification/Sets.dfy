/** Finite sets: an arbitrary element, the greatest one, a listing, a sum. */
module Sets {
  import opened Sorting

  function MaxInt(a: int, b: int): int { if a < b then b else a }

  function MinInt(a: int, b: int): int { if b < a then b else a }

  function Elements<T>(s: seq<T>): set<T> { set x | x in s }

  ghost function Pick<T>(s: set<T>): (x: T)
    requires s != {}
    ensures x in s
  {
    var x :| x in s; x
  }

  method SetToSeq<T(!new)>(s: set<T>) returns (r: seq<T>)
    ensures Distinct(r) && forall x :: x in r <==> x in s
  {
    r := [];
    var todo := s;
    while todo != {}
      invariant todo <= s && Distinct(r)
      invariant forall x :: x in r <==> x in s - todo
    {
      var x :| x in todo;
      assert x !in r;
      todo := todo - {x};
      r := r + [x];
    }
  }

  method InOrder<T(!new)>(s: set<T>, less: (T, T) -> bool) returns (r: seq<T>)
    requires TotalOrder(less)
    ensures StrictlySorted(r, less) && forall x :: x in r <==> x in s
  {
    var some := SetToSeq(s);
    TotalIsWeak(less);
    r := Sort(some, less);
    MembersOfPermutation(some, r);
    DistinctPermutation(some, r);
    DistinctSortedIsStrict(r, less);
  }

  // ----- the greatest element -----

  ghost predicate IsGreatest(m: int, s: set<int>) { m in s && forall x :: x in s ==> x <= m }

  lemma {:induction false} GreatestExists(s: set<int>)
    requires |s| > 0
    ensures exists m :: IsGreatest(m, s)
    decreases |s|
  {
    var x := Pick(s);
    var rest := s - {x};
    assert forall y :: y in s ==> y == x || y in rest;
    if |rest| == 0 {
      assert IsGreatest(x, s);
    } else {
      GreatestExists(rest);
      var k :| IsGreatest(k, rest);
      assert IsGreatest(MaxInt(k, x), s);
    }
  }

  ghost function Greatest(s: set<int>): (m: int)
    requires s != {}
    ensures IsGreatest(m, s)
  {
    assert |s| > 0;
    GreatestExists(s);
    var m :| IsGreatest(m, s); m
  }

  // ----- the last in an order -----

  lemma {:induction false} LastExists<T(!new)>(s: set<T>, less: (T, T) -> bool)
    requires TotalOrder(less) && |s| > 0
    ensures exists z :: z in s && forall x :: x in s && x != z ==> less(x, z)
    decreases |s|
  {
    var p := Pick(s);
    var rest := s - {p};
    assert forall x :: x in s ==> x == p || x in rest;
    if |rest| == 0 {
      assert forall x :: x in s && x != p ==> less(x, p);
    } else {
      LastExists(rest, less);
      var z :| z in rest && forall x :: x in rest && x != z ==> less(x, z);
      var last := if less(z, p) then p else z;
      assert last in s && forall x :: x in s && x != last ==> less(x, last);
    }
  }

  /** The elements in order: the one strictly sorted sequence of them. */
  ghost function Ordered<T(!new)>(s: set<T>, less: (T, T) -> bool): (r: seq<T>)
    requires TotalOrder(less)
    ensures StrictlySorted(r, less) && forall x :: x in r <==> x in s
    decreases |s|
  {
    if |s| == 0 then []
    else
      LastExists(s, less);
      var z :| z in s && forall x :: x in s && x != z ==> less(x, z);
      var init := Ordered(s - {z}, less);
      PutLast(init, z, less);
      init + [z]
  }

  lemma PutLast<T(!new)>(init: seq<T>, z: T, less: (T, T) -> bool)
    requires StrictlySorted(init, less) && forall x :: x in init ==> less(x, z)
    ensures StrictlySorted(init + [z], less)
  {
    forall i, j | 0 <= i < j < |init + [z]| ensures less((init + [z])[i], (init + [z])[j]) {
      assert init[i] in init;
    }
  }

  lemma OrderedIs<T(!new)>(s: set<T>, r: seq<T>, less: (T, T) -> bool)
    requires TotalOrder(less) && StrictlySorted(r, less) && forall x :: x in r <==> x in s
    ensures r == Ordered(s, less)
  {
    forall x ensures x in r <==> x in Ordered(s, less) {}
    assert Asymmetric(less);
    StrictlySortedUnique(r, Ordered(s, less), less);
  }

  // ----- sums -----

  ghost function Sum<T>(s: set<T>, weight: T -> int): int
    decreases |s|
  {
    if s == {} then 0 else var x := Pick(s); weight(x) + Sum(s - {x}, weight)
  }

  /** The order in which the elements are taken does not matter. */
  lemma {:induction false} SumInsert<T>(s: set<T>, x: T, weight: T -> int)
    requires x !in s
    ensures Sum(s + {x}, weight) == Sum(s, weight) + weight(x)
    decreases |s|
  {
    var y := Pick(s + {x});
    if y == x {
      assert (s + {x}) - {x} == s;
    } else {
      assert (s + {x}) - {y} == (s - {y}) + {x} && (s - {y}) + {y} == s;
      SumInsert(s - {y}, x, weight);
      SumInsert(s - {y}, y, weight);
    }
  }

  lemma {:induction false} SumUnion<T>(a: set<T>, b: set<T>, weight: T -> int)
    requires a !! b
    ensures Sum(a + b, weight) == Sum(a, weight) + Sum(b, weight)
    decreases |b|
  {
    if b == {} {
      assert a + b == a;
    } else {
      var x := Pick(b);
      assert a + b == (a + (b - {x})) + {x} && b == (b - {x}) + {x};
      SumUnion(a, b - {x}, weight);
      SumInsert(a + (b - {x}), x, weight);
      SumInsert(b - {x}, x, weight);
    }
  }

  lemma {:induction false} SumSame<T>(s: set<T>, f: T -> int, g: T -> int)
    requires forall x :: x in s ==> f(x) == g(x)
    ensures Sum(s, f) == Sum(s, g)
    decreases |s|
  {
    if s != {} { SumSame(s - {Pick(s)}, f, g); }
  }

  lemma {:induction false} SumAtLeastSize<T>(s: set<T>, weight: T -> int)
    requires forall x :: x in s ==> weight(x) >= 1
    ensures Sum(s, weight) >= |s|
  {
    if x :| x in s {
      SumAtLeastSize(s - {x}, weight);
      SumInsert(s - {x}, x, weight);
      assert s - {x} + {x} == s;
    }
  }
}
