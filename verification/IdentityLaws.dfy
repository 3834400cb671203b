/** What a finding's identity depends on, said of the cited lines' own fields: not their spelling, not their order,
    and which of them is asked first. */
module IdentityLaws {
  import opened Model
  import opened Sets
  import opened Sorting
  import E = Evidence
  import F = Fingerprint
  import Nodes

  // ----- spelling -----

  /** Two spellings of one line: one module and priority, one canonical text, and the security mark on both or
      neither. */
  predicate Respelled(canon: Canon, t: Template, u: Template) {
    && t.moduleId == u.moduleId && t.priority == u.priority
    && canon(ModuleFamily(t.moduleId), t.text) == canon(ModuleFamily(u.moduleId), u.text)
    && (t.category == "security" <==> u.category == "security")
  }

  /** Lines that are only spelled differently give one class, one fingerprint, the same modules and category. */
  lemma SpellingIsIrrelevant(canon: Canon, system: string, a: seq<Template>, b: seq<Template>, existing: set<string>,
                             d: E.Derived, e: E.Derived)
    requires |a| == |b| && forall i :: 0 <= i < |a| ==> Respelled(canon, a[i], b[i])
    requires d.modules == E.Modules(a) && d.category == E.Category(a)
    requires e.modules == E.Modules(b) && e.category == E.Category(b)
    requires exists key :: E.KeyedBy(canon, system, a, existing, d, key)
    requires exists key :: E.KeyedBy(canon, system, b, existing, e, key)
    ensures d.modules == e.modules && d.category == e.category
    ensures d.class_ == e.class_ && d.fingerprint == e.fingerprint
  {
    hide E.KeyedBy, E.Modules, E.Category;
    SameParts(canon, a, b);
    var x :| E.KeyedBy(canon, system, a, existing, d, x);
    var y :| E.KeyedBy(canon, system, b, existing, e, y);
    SameKey(canon, system, a, b, existing, d, e, x, y);
  }

  lemma SameParts(canon: Canon, a: seq<Template>, b: seq<Template>)
    requires |a| == |b| && forall i :: 0 <= i < |a| ==> Respelled(canon, a[i], b[i])
    ensures E.Modules(a) == E.Modules(b) && E.Category(a) == E.Category(b)
    ensures E.Lines(canon, a) == E.Lines(canon, b)
  {
    SameMembers(canon, a, b);
    assert forall i :: 0 <= i < |b| ==> Respelled(canon, b[i], a[i]);
    SameMembers(canon, b, a);
    assert E.Families(a) == E.Families(b);
  }

  lemma SameMembers(canon: Canon, a: seq<Template>, b: seq<Template>)
    requires |a| == |b| && forall i :: 0 <= i < |a| ==> Respelled(canon, a[i], b[i])
    ensures E.Families(a) <= E.Families(b) && E.Lines(canon, a) <= E.Lines(canon, b)
    ensures E.Category(a) == SECURITY ==> E.Category(b) == SECURITY
  {
    forall t | t in a
      ensures ModuleFamily(t.moduleId) in E.Families(b) && E.LineOf(canon, t) in E.Lines(canon, b)
      ensures t.category == SECURITY ==> E.Category(b) == SECURITY
    {
      var i :| 0 <= i < |a| && a[i] == t;
      assert b[i] in b && Respelled(canon, t, b[i]);
    }
  }

  lemma SameKey(canon: Canon, system: string, a: seq<Template>, b: seq<Template>, existing: set<string>, d: E.Derived,
                e: E.Derived, x: seq<string>, y: seq<string>)
    requires |a| == |b| && E.Lines(canon, a) == E.Lines(canon, b)
    requires d.modules == e.modules && d.category == e.category
    requires E.KeyedBy(canon, system, a, existing, d, x) && E.KeyedBy(canon, system, b, existing, e, y)
    ensures e.class_ == d.class_ && e.fingerprint == d.fingerprint
  {
    hide F.PreImage, F.ClassPreImage, E.Candidates, E.IsChosen;
    if a != [] {
      E.ChosenUnique(E.Candidates(E.Lines(canon, a)), d.modules, d.category, existing, x[0], y[0]);
      assert x == y;
    }
  }

  // ----- the derived fields -----

  /** The modules are the families of the cited lines, each once and in byte order; the finding is one of security
      if any cited line is. */
  lemma DerivedMeans(cited: seq<Template>, d: E.Derived)
    requires d.modules == E.Modules(cited) && d.category == E.Category(cited)
    ensures forall m :: m in d.modules <==> FamilyOfOne(cited, m)
    ensures forall i, j :: 0 <= i < j < |d.modules| ==> StringLess(d.modules[i], d.modules[j])
    ensures d.category == (if exists i :: 0 <= i < |cited| && cited[i].category == "security" then "security" else "")
  {
    forall m ensures m in d.modules <==> FamilyOfOne(cited, m) { FamilyMembers(cited, m); }
    CategoryMeans(cited);
    StringLessTotal();
    hide FamilyOfOne, E.Category, StringLess;
  }

  /** Its nodes are the smallest 64 positive ones of all its lines, in order. */
  lemma DerivedNodesMean(cited: seq<Template>, d: E.Derived)
    requires d.nodes == Nodes.Capped(Nodes.Union(E.NodeLists(cited)))
    ensures forall id :: id in d.nodes ==> NodeOfOne(cited, id)
    ensures forall i, j :: 0 <= i < j < |d.nodes| ==> d.nodes[i] < d.nodes[j]
    ensures forall id :: NodeOfOne(cited, id) && id !in d.nodes ==>
              |d.nodes| == 64 && forall i :: 0 <= i < 64 ==> d.nodes[i] < id
  {
    var union := Nodes.Union(E.NodeLists(cited));
    forall id ensures id in union <==> NodeOfOne(cited, id) { NodeMembers(cited, id); }
    Nodes.CappedIsSmallest(union);
    hide Nodes.Union, Nodes.Capped, E.NodeLists, NodeOfOne;
  }

  predicate FamilyOfOne(cited: seq<Template>, m: string) {
    exists i :: 0 <= i < |cited| && ModuleFamily(cited[i].moduleId) == m
  }

  predicate NodeOfOne(cited: seq<Template>, id: int) {
    id >= 1 && exists i :: 0 <= i < |cited| && id in cited[i].nodes
  }

  lemma FamilyMembers(cited: seq<Template>, m: string)
    ensures m in E.Modules(cited) <==> FamilyOfOne(cited, m)
  {
    StringLessTotal();
    if m in E.Families(cited) {
      var t :| t in cited && ModuleFamily(t.moduleId) == m;
      var i :| 0 <= i < |cited| && cited[i] == t;
    }
  }

  lemma NodeMembers(cited: seq<Template>, id: int)
    ensures id in Nodes.Union(E.NodeLists(cited)) <==> NodeOfOne(cited, id)
  {
    var lists := E.NodeLists(cited);
    Nodes.UnionMember(lists, id);
    if s :| s in lists && id in Nodes.Valid(s) {
      var i :| 0 <= i < |lists| && lists[i] == s;
      assert id in cited[i].nodes;
    }
    if NodeOfOne(cited, id) {
      var i :| 0 <= i < |cited| && id in cited[i].nodes;
      assert lists[i] in lists && id in Nodes.Valid(lists[i]);
    }
  }

  lemma CategoryMeans(cited: seq<Template>)
    ensures E.Category(cited)
         == if exists i :: 0 <= i < |cited| && cited[i].category == "security" then "security" else ""
  {
    if t :| t in cited && t.category == SECURITY {
      var i :| 0 <= i < |cited| && cited[i] == t;
    }
    if i :| 0 <= i < |cited| && cited[i].category == "security" { assert cited[i] in cited; }
  }

  // ----- which cited line names the finding -----

  /** By module, then priority, then canonical text. */
  predicate Earlier(a: E.Line, b: E.Line) {
    || StringLess(a.moduleId, b.moduleId)
    || (a.moduleId == b.moduleId && a.priority < b.priority)
    || (a.moduleId == b.moduleId && a.priority == b.priority && StringLess(a.text, b.text))
  }

  ghost predicate Stored(modules: seq<string>, category: string, existing: set<string>, l: E.Line) {
    E.ClassOf(modules, E.KeyOfLine(l), category) in existing
  }

  /** The earliest cited line whose class is stored names the finding, and the earliest of all if none is. */
  ghost predicate Names(lines: set<E.Line>, modules: seq<string>, category: string, existing: set<string>, l: E.Line) {
    if exists m :: m in lines && Stored(modules, category, existing, m)
    then l in lines && Stored(modules, category, existing, l)
         && forall m :: m in lines && Stored(modules, category, existing, m) ==> !Earlier(m, l)
    else l in lines && forall m :: m in lines ==> !Earlier(m, l)
  }

  lemma ChosenIsEarliest(lines: set<E.Line>, modules: seq<string>, category: string, existing: set<string>,
                         key: string)
    requires E.IsChosen(E.Candidates(lines), modules, category, existing, key)
    ensures exists l :: Names(lines, modules, category, existing, l) && E.KeyOfLine(l) == key
  {
    hide E.KeyOfLine, E.LineLess, E.ClassOf;
    E.CandidatesAreTheCitedLines(lines);
    E.LineLessTotal();
    var ordered := Ordered(lines, E.LineLess);
    var candidates := E.Candidates(lines);
    var keys := E.KeysOf(ordered);
    var i: nat;
    if exists c :: c in candidates && E.ClassOf(modules, c, category) in existing {
      var k :| E.IsFirst(candidates, modules, category, existing, k) && candidates[k] == key;
      i := k;
    } else {
      i := 0;
    }
    var p := FirstSeen(keys, i);
    var l := ordered[p];
    forall m | m in lines && Earlier(m, l)
      ensures E.KeyOfLine(m) in candidates[..i]
    {
      var q := PlaceBefore(ordered, m, p);
      assert keys[q] in candidates[..i];
    }
    EarliestNames(lines, modules, category, existing, l, i);
  }

  /** The place of the i-th key in the list it was taken from: everything before it is one of the first i. */
  lemma {:induction false} FirstSeen(keys: seq<string>, i: nat) returns (p: nat)
    requires i < |E.Firsts(keys)|
    ensures p < |keys| && keys[p] == E.Firsts(keys)[i]
    ensures forall q :: 0 <= q < p ==> keys[q] in E.Firsts(keys)[..i]
  {
    var before := keys[..|keys| - 1];
    if i < |E.Firsts(before)| {
      p := FirstSeen(before, i);
      assert E.Firsts(keys)[..i] == E.Firsts(before)[..i];
    } else {
      p := |keys| - 1;
      E.FirstsAreDistinct(before);
      assert E.Firsts(keys)[..i] == E.Firsts(before);
      forall q | 0 <= q < p ensures keys[q] in E.Firsts(before) { assert before[q] in before; }
    }
  }

  lemma PlaceBefore(ordered: seq<E.Line>, m: E.Line, p: nat) returns (q: nat)
    requires StrictlySorted(ordered, E.LineLess) && m in ordered && p < |ordered| && Earlier(m, ordered[p])
    ensures q < p && ordered[q] == m
  {
    E.LineLessTotal();
    StringLessTotal();
    q :| 0 <= q < |ordered| && ordered[q] == m;
    assert E.LineLess(m, ordered[p]);
    hide Earlier, E.LineLess;
  }

  lemma EarliestNames(lines: set<E.Line>, modules: seq<string>, category: string, existing: set<string>, l: E.Line,
                      i: nat)
    requires var candidates := E.Candidates(lines);
             && i < |candidates| && l in lines && E.KeyOfLine(l) == candidates[i]
             && (forall m :: m in lines && Earlier(m, l) ==> E.KeyOfLine(m) in candidates[..i])
             && if exists c :: c in candidates && E.ClassOf(modules, c, category) in existing
                then E.IsFirst(candidates, modules, category, existing, i) else i == 0
    ensures Names(lines, modules, category, existing, l)
  {
    hide E.KeyOfLine, E.ClassOf, Earlier;
    var candidates := E.Candidates(lines);
    E.CandidatesAreTheCitedLines(lines);
    hide E.Candidates;
    forall m | m in lines ensures E.KeyOfLine(m) in candidates {}
    if c :| c in candidates && E.ClassOf(modules, c, category) in existing {
      var m :| m in lines && E.KeyOfLine(m) == c;
      assert Stored(modules, category, existing, m);
    }
  }

  // ----- the bytes -----

  function Shifted(n: nat, k: nat): nat { if k == 0 then n else Shifted(n / 256, k - 1) }

  /** A length is eight bytes, the most significant first. */
  lemma {:induction false} LengthIsBigEndian(n: nat, k: nat, i: nat)
    requires i < k
    ensures |F.Bytes(n, k)| == k && F.Bytes(n, k)[i] as int == Shifted(n, k - 1 - i) % 256
  {
    if i < k - 1 { LengthIsBigEndian(n / 256, k - 1, i); }
  }

  /** What is hashed for a finding with one module and one key: the version, the system, the category and the two
      lists, every string after its length and every list after its size. */
  lemma PreImageIsSpelled(system: string, m: string, key: string, category: string)
    ensures var l := (s: string) => F.Bytes(|s|, 8) + s;
            var one := F.Bytes(1, 8);
            && F.PreImage(system, [m], [key], category)
               == l("v7") + (l(system) + (l(category) + ((one + l(m)) + (one + l(key)))))
            && F.ClassPreImage([m], [key], category) == l("v7") + (l(category) + ((one + l(m)) + (one + l(key))))
  {
    OneInOrder(m);
    OneInOrder(key);
    OneField(m);
    OneField(key);
    hide F.SortedSet, F.Bytes, F.Fields;
  }

  lemma OneInOrder(s: string)
    ensures F.SortedSet([s]) == [s]
  {
    StringLessTotal();
    OrderedIs(Elements([s]), [s], StringLess);
  }

  lemma OneField(s: string)
    ensures F.Fields([s]) == F.Bytes(|s|, 8) + s
  {
    assert F.Fields([s]) == F.Field(s) + F.Fields([]);
  }
}
