/** The identity pre-image: length-prefixed fields and lists, and the decoder that shows nothing can be forged by
    moving characters across a boundary. */
module Fingerprint {
  import opened Model
  import opened Sets
  import opened Sorting

  const VERSION := "v7"

  /** Lengths are 64-bit. */
  const LIMIT: nat := 0x1_0000_0000_0000_0000

  predicate Fits(s: string) { |s| < LIMIT }

  // ----- big-endian numbers -----

  function Byte(n: nat): char { (n % 256) as char }

  function Bytes(n: nat, k: nat): (r: string)
    ensures |r| == k
  {
    if k == 0 then [] else Bytes(n / 256, k - 1) + [Byte(n)]
  }

  function Value(s: string): nat {
    if s == [] then 0 else Value(s[..|s| - 1]) * 256 + s[|s| - 1] as nat
  }

  function Power(k: nat): nat { if k == 0 then 1 else 256 * Power(k - 1) }

  lemma {:induction false} BytesRoundTrip(n: nat, k: nat)
    requires n < Power(k)
    ensures Value(Bytes(n, k)) == n
  {
    if k > 0 {
      BytesRoundTrip(n / 256, k - 1);
      assert Bytes(n, k)[..k - 1] == Bytes(n / 256, k - 1);
    }
  }

  lemma EightBytes(n: nat)
    requires n < LIMIT
    ensures Value(Bytes(n, 8)) == n
  {
    assert Power(2) == 0x1_0000 && Power(4) == 0x1_0000_0000;
    assert Power(6) == 0x1_0000_0000_0000 && Power(8) == LIMIT;
    BytesRoundTrip(n, 8);
  }

  // ----- encoding -----

  function Field(s: string): string { Bytes(|s|, 8) + s }

  function Fields(items: seq<string>): string {
    if items == [] then [] else Field(items[0]) + Fields(items[1..])
  }

  function List(items: seq<string>): string { Bytes(|items|, 8) + Fields(items) }

  ghost function SortedSet(items: seq<string>): seq<string> {
    StringLessTotal();
    Ordered(Elements(items), StringLess)
  }

  ghost function PreImage(system: string, modules: seq<string>, evidence: seq<string>, category: string): string {
    Field(VERSION) + (Field(system) + (Field(category) + (List(SortedSet(modules)) + List(SortedSet(evidence)))))
  }

  /** The system left out: what names a finding's class on every system. */
  ghost function ClassPreImage(modules: seq<string>, evidence: seq<string>, category: string): string {
    Field(VERSION) + (Field(category) + (List(SortedSet(modules)) + List(SortedSet(evidence))))
  }

  /** A hash state: the bytes written so far. */
  class Hash {
    var written: string

    constructor ()
      ensures written == []
    {
      written := [];
    }

    method WriteField(s: string)
      modifies this
      ensures written == old(written) + Field(s)
    {
      written := written + Bytes(|s|, 8);
      written := written + s;
    }

    method WriteList(items: seq<string>)
      modifies this
      ensures written == old(written) + List(SortedSet(items))
    {
      hide SortedSet, Bytes, Field, Fields;
      var deduped := SortDedup(items);
      ghost var before := written;
      written := written + Bytes(|deduped|, 8);
      ghost var start := written;
      NoFields();
      for i := 0 to |deduped|
        invariant written == start + Fields(deduped[..i])
      {
        FieldsAppend(deduped[..i], deduped[i]);
        assert deduped[..i + 1] == deduped[..i] + [deduped[i]];
        WriteField(deduped[i]);
      }
      assert deduped[..|deduped|] == deduped;
      assert written == before + (Bytes(|deduped|, 8) + Fields(deduped));
    }
  }

  lemma NoFields()
    ensures Fields([]) == []
  {
  }

  /** Sort a copy, then keep each element that differs from the one before it. */
  method SortDedup(items: seq<string>) returns (deduped: seq<string>)
    ensures deduped == SortedSet(items)
  {
    StringLessTotal();
    TotalIsWeak(StringLess);
    var sorted := Sort(items, StringLess);
    MembersOfPermutation(items, sorted);
    deduped := [];
    for i := 0 to |sorted|
      invariant StrictlySorted(deduped, StringLess)
      invariant forall s :: s in deduped <==> s in sorted[..i]
      invariant i == 0 ==> deduped == []
      invariant i > 0 ==> |deduped| > 0 && deduped[|deduped| - 1] == sorted[i - 1]
    {
      assert sorted[..i + 1] == sorted[..i] + [sorted[i]];
      if i == 0 || sorted[i] != sorted[i - 1] {
        AppendsInOrder(sorted, deduped, i);
        deduped := deduped + [sorted[i]];
      } else {
        assert sorted[i - 1] in sorted[..i];
      }
    }
    assert sorted[..|sorted|] == sorted;
    OrderedIs(Elements(items), deduped, StringLess);
  }

  lemma AppendsInOrder(sorted: seq<string>, deduped: seq<string>, i: nat)
    requires TotalOrder(StringLess) && SortedBy(sorted, StringLess) && i < |sorted|
    requires StrictlySorted(deduped, StringLess)
    requires i > 0 ==> |deduped| > 0 && deduped[|deduped| - 1] == sorted[i - 1] && sorted[i] != sorted[i - 1]
    requires i == 0 ==> deduped == []
    ensures StrictlySorted(deduped + [sorted[i]], StringLess)
  {
    if i > 0 {
      assert !StringLess(sorted[i], sorted[i - 1]);
      forall x | x in deduped ensures StringLess(x, sorted[i]) {
        var j :| 0 <= j < |deduped| && deduped[j] == x;
        assert j < |deduped| - 1 ==> StringLess(x, deduped[|deduped| - 1]);
      }
    }
    PutLast(deduped, sorted[i], StringLess);
  }

  lemma {:induction false} FieldsAppend(items: seq<string>, s: string)
    ensures Fields(items + [s]) == Fields(items) + Field(s)
  {
    if items == [] {
      assert (items + [s])[1..] == [] && Fields([s]) == Field(s) + Fields([]);
    } else {
      assert (items + [s])[1..] == items[1..] + [s];
      FieldsAppend(items[1..], s);
    }
  }

  method Compute(system: string, modules: seq<string>, evidence: seq<string>, category: string) returns (hashed: string)
    ensures hashed == PreImage(system, modules, evidence, category)
  {
    hide Field, List, SortedSet;
    var h := new Hash();
    h.WriteField(VERSION);
    h.WriteField(system);
    h.WriteField(category);
    h.WriteList(modules);
    h.WriteList(evidence);
    hashed := h.written;
    Regroup(Field(VERSION), Field(system), Field(category), List(SortedSet(modules)), List(SortedSet(evidence)));
  }

  method Class(modules: seq<string>, evidence: seq<string>, category: string) returns (hashed: string)
    ensures hashed == ClassPreImage(modules, evidence, category)
  {
    hide Field, List, SortedSet;
    var h := new Hash();
    h.WriteField(VERSION);
    h.WriteField(category);
    h.WriteList(modules);
    h.WriteList(evidence);
    hashed := h.written;
    Regroup([], Field(VERSION), Field(category), List(SortedSet(modules)), List(SortedSet(evidence)));
  }

  lemma Regroup(a: string, b: string, c: string, d: string, e: string)
    ensures [] + a + b + c + d + e == a + (b + (c + (d + e)))
    ensures [] + b + c + d + e == b + (c + (d + e))
  {
  }

  // ----- decoding -----

  /** A field and what follows it. */
  function ReadField(s: string): Option<(string, string)> {
    if |s| < 8 then None
    else
      var n := Value(s[..8]);
      if |s| - 8 < n then None else Some((s[8..8 + n], s[8 + n..]))
  }

  function ReadFields(n: nat, s: string): Option<(seq<string>, string)> {
    if n == 0 then Some(([], s))
    else match ReadField(s)
         case None => None
         case Some(f) =>
           match ReadFields(n - 1, f.1)
           case None => None
           case Some(r) => Some(([f.0] + r.0, r.1))
  }

  function ReadList(s: string): Option<(seq<string>, string)> {
    if |s| < 8 then None else ReadFields(Value(s[..8]), s[8..])
  }

  lemma FieldReads(f: string, rest: string)
    requires Fits(f)
    ensures ReadField(Field(f) + rest) == Some((f, rest))
  {
    var s := Field(f) + rest;
    EightBytes(|f|);
    assert s[..8] == Bytes(|f|, 8);
    assert s[8..8 + |f|] == f && s[8 + |f|..] == rest;
  }

  lemma {:induction false} FieldsRead(items: seq<string>, rest: string)
    requires forall s :: s in items ==> Fits(s)
    ensures ReadFields(|items|, Fields(items) + rest) == Some((items, rest))
  {
    if items == [] {
      assert Fields(items) + rest == rest;
    } else {
      var more := Fields(items[1..]) + rest;
      assert Fields(items) + rest == Field(items[0]) + more;
      FieldReads(items[0], more);
      FieldsRead(items[1..], rest);
      assert items == [items[0]] + items[1..];
    }
  }

  lemma ListReads(items: seq<string>, rest: string)
    requires |items| < LIMIT && forall s :: s in items ==> Fits(s)
    ensures ReadList(List(items) + rest) == Some((items, rest))
  {
    var s := List(items) + rest;
    EightBytes(|items|);
    assert s[..8] == Bytes(|items|, 8) && s[8..] == Fields(items) + rest;
    FieldsRead(items, rest);
  }

  // ----- what the pre-image identifies -----

  ghost predicate AllFit(items: seq<string>) { |items| < LIMIT && forall s :: s in items ==> Fits(s) }

  lemma SortedSetFits(items: seq<string>)
    requires AllFit(items)
    ensures |SortedSet(items)| < LIMIT && forall s :: s in SortedSet(items) ==> Fits(s)
  {
    StringLessTotal();
    var elements := Elements(items);
    assert Asymmetric(StringLess);
    SizeOfStrict(SortedSet(items), elements, StringLess);
    DistinctBound(items, elements);
  }

  lemma {:induction false} DistinctBound(items: seq<string>, elements: set<string>)
    requires elements == Elements(items)
    ensures |elements| <= |items|
  {
    if items != [] {
      var init, last := items[..|items| - 1], items[|items| - 1];
      var before := Elements(init);
      DistinctBound(init, before);
      assert elements == before + {last};
    }
  }

  lemma SortedSetSame(a: seq<string>, b: seq<string>)
    ensures SortedSet(a) == SortedSet(b) <==> Elements(a) == Elements(b)
  {
    StringLessTotal();
    assert forall s :: s in SortedSet(a) <==> s in a;
    assert forall s :: s in SortedSet(b) <==> s in b;
    if SortedSet(a) == SortedSet(b) {
      assert forall s :: s in a <==> s in b;
    }
  }

  lemma FieldThen(a: string, x: string, b: string, y: string)
    requires Fits(a) && Fits(b) && Field(a) + x == Field(b) + y
    ensures a == b && x == y
  {
    FieldReads(a, x);
    FieldReads(b, y);
  }

  lemma ListThen(a: seq<string>, x: string, b: seq<string>, y: string)
    requires |a| < LIMIT && |b| < LIMIT && (forall s :: s in a ==> Fits(s)) && (forall s :: s in b ==> Fits(s))
    requires List(a) + x == List(b) + y
    ensures a == b && x == y
  {
    ListReads(a, x);
    ListReads(b, y);
  }

  lemma TwoLists(m: seq<string>, e: seq<string>, m': seq<string>, e': seq<string>)
    requires AllFit(m) && AllFit(e) && AllFit(m') && AllFit(e')
    requires List(SortedSet(m)) + List(SortedSet(e)) == List(SortedSet(m')) + List(SortedSet(e'))
    ensures SortedSet(m) == SortedSet(m') && SortedSet(e) == SortedSet(e')
  {
    hide List, SortedSet;
    SortedSetFits(m);
    SortedSetFits(e);
    SortedSetFits(m');
    SortedSetFits(e');
    ListThen(SortedSet(m), List(SortedSet(e)), SortedSet(m'), List(SortedSet(e')));
    assert List(SortedSet(e)) + [] == List(SortedSet(e)) && List(SortedSet(e')) + [] == List(SortedSet(e'));
    ListThen(SortedSet(e), [], SortedSet(e'), []);
  }

  /** Two findings hash the same bytes exactly when system and category are equal and modules and evidence are
      equal as sets. */
  lemma PreImageIdentifies(s: string, m: seq<string>, e: seq<string>, c: string,
                           s': string, m': seq<string>, e': seq<string>, c': string)
    requires Fits(s) && Fits(c) && Fits(s') && Fits(c') && AllFit(m) && AllFit(e) && AllFit(m') && AllFit(e')
    ensures PreImage(s, m, e, c) == PreImage(s', m', e', c')
       <==> s == s' && c == c' && Elements(m) == Elements(m') && Elements(e) == Elements(e')
  {
    hide Field, List, SortedSet;
    SortedSetSame(m, m');
    SortedSetSame(e, e');
    if PreImage(s, m, e, c) == PreImage(s', m', e', c') {
      var lists, lists' := List(SortedSet(m)) + List(SortedSet(e)), List(SortedSet(m')) + List(SortedSet(e'));
      FieldThen(VERSION, Field(s) + (Field(c) + lists), VERSION, Field(s') + (Field(c') + lists'));
      FieldThen(s, Field(c) + lists, s', Field(c') + lists');
      FieldThen(c, lists, c', lists');
      TwoLists(m, e, m', e');
    }
  }

  lemma ClassPreImageIdentifies(m: seq<string>, e: seq<string>, c: string, m': seq<string>, e': seq<string>, c': string)
    requires Fits(c) && Fits(c') && AllFit(m) && AllFit(e) && AllFit(m') && AllFit(e')
    ensures ClassPreImage(m, e, c) == ClassPreImage(m', e', c')
       <==> c == c' && Elements(m) == Elements(m') && Elements(e) == Elements(e')
  {
    hide Field, List, SortedSet;
    SortedSetSame(m, m');
    SortedSetSame(e, e');
    if ClassPreImage(m, e, c) == ClassPreImage(m', e', c') {
      var lists, lists' := List(SortedSet(m)) + List(SortedSet(e)), List(SortedSet(m')) + List(SortedSet(e'));
      FieldThen(VERSION, Field(c) + lists, VERSION, Field(c') + lists');
      FieldThen(c, lists, c', lists');
      TwoLists(m, e, m', e');
    }
  }

  /** A class is a fingerprint without the system: within one system they tell the same findings apart. */
  lemma FingerprintRefinesClass(s: string, m: seq<string>, e: seq<string>, c: string, m': seq<string>,
                                e': seq<string>, c': string)
    requires Fits(s) && Fits(c) && Fits(c') && AllFit(m) && AllFit(e) && AllFit(m') && AllFit(e')
    ensures PreImage(s, m, e, c) == PreImage(s, m', e', c') <==> ClassPreImage(m, e, c) == ClassPreImage(m', e', c')
  {
    hide PreImage, ClassPreImage;
    PreImageIdentifies(s, m, e, c, s, m', e', c');
    ClassPreImageIdentifies(m, e, c, m', e', c');
  }

  /** The whole identity, read back. */
  datatype Identity = Identity(system: string, category: string, modules: seq<string>, evidence: seq<string>)

  function Decode(s: string): Option<Identity> {
    match ReadField(s)
    case None => None
    case Some(v) =>
      match ReadField(v.1)
      case None => None
      case Some(system) =>
        match ReadField(system.1)
        case None => None
        case Some(category) =>
          match ReadList(category.1)
          case None => None
          case Some(modules) =>
            match ReadList(modules.1)
            case None => None
            case Some(evidence) =>
              if v.0 == VERSION && evidence.1 == []
              then Some(Identity(system.0, category.0, modules.0, evidence.0)) else None
  }

  /** The hashed bytes can be read back. */
  lemma DecodesBack(s: string, m: seq<string>, e: seq<string>, c: string)
    requires Fits(s) && Fits(c) && AllFit(m) && AllFit(e)
    ensures Decode(PreImage(s, m, e, c)) == Some(Identity(s, c, SortedSet(m), SortedSet(e)))
  {
    hide Field, List, SortedSet, ReadField, ReadList;
    SortedSetFits(m);
    SortedSetFits(e);
    var evidence := List(SortedSet(e));
    var modules := List(SortedSet(m)) + evidence;
    FieldReads(VERSION, Field(s) + (Field(c) + modules));
    FieldReads(s, Field(c) + modules);
    FieldReads(c, modules);
    ListReads(SortedSet(m), evidence);
    assert evidence + [] == evidence;
    ListReads(SortedSet(e), []);
  }
}
