/** From the lines a finding cites to its identity: the candidate keys, the choice among them, and the fact that
    only which lines are cited can matter. */
module Evidence {
  import opened Model
  import opened Sets
  import opened Sorting
  import Fingerprint
  import Nodes
  import Prompt

  // ----- candidates -----

  /** A cited line as identity sees it: module, priority and canonical text. */
  datatype Line = Line(moduleId: string, priority: int, text: string)

  function LineOf(canon: Canon, t: Template): Line {
    Line(t.moduleId, t.priority, canon(ModuleFamily(t.moduleId), t.text))
  }

  function Lines(canon: Canon, cited: seq<Template>): set<Line> { set t | t in cited :: LineOf(canon, t) }

  predicate LineLess(a: Line, b: Line) {
    if a.moduleId != b.moduleId then StringLess(a.moduleId, b.moduleId)
    else if a.priority != b.priority then a.priority < b.priority
    else StringLess(a.text, b.text)
  }

  lemma LineLessTotal()
    ensures TotalOrder(LineLess)
  {
    StringLessTotal();
    forall x: Line, y: Line | x != y ensures LineLess(x, y) || LineLess(y, x) {
      assert x.moduleId != y.moduleId ==> StringLess(x.moduleId, y.moduleId) || StringLess(y.moduleId, x.moduleId);
      assert x.text != y.text ==> StringLess(x.text, y.text) || StringLess(y.text, x.text);
    }
    forall x: Line, y: Line, z: Line | LineLess(x, y) && LineLess(y, z) ensures LineLess(x, z) {
      LineTransitive(x, y, z);
    }
  }

  lemma LineTransitive(x: Line, y: Line, z: Line)
    requires TotalOrder(StringLess) && LineLess(x, y) && LineLess(y, z)
    ensures LineLess(x, z)
  {
    if x.moduleId != y.moduleId && y.moduleId != z.moduleId {
      assert StringLess(x.moduleId, z.moduleId) && !StringLess(z.moduleId, x.moduleId);
    }
  }

  function SignedDecimal(n: int): string { if n < 0 then "-" + Prompt.Decimal(-n) else Prompt.Decimal(n) }

  function KeyOfLine(l: Line): string {
    "primary:" + l.moduleId + "/" + SignedDecimal(l.priority) + "/" + TrimSpace(l.text)
  }

  lemma NoSlashInDecimal(n: int)
    ensures '/' !in SignedDecimal(n)
  {
    Prompt.DecimalIsClean(if n < 0 then -n else n);
  }

  lemma SignedDecimalInjective(m: int, n: int)
    requires SignedDecimal(m) == SignedDecimal(n)
    ensures m == n
  {
    var a, b := if m < 0 then -m else m, if n < 0 then -n else n;
    Prompt.DecimalIsClean(a);
    Prompt.DecimalIsClean(b);
    Prompt.DecimalNonEmpty(a);
    Prompt.DecimalNonEmpty(b);
    assert m < 0 ==> SignedDecimal(m)[0] == '-' && SignedDecimal(m)[1..] == Prompt.Decimal(a);
    assert n < 0 ==> SignedDecimal(n)[0] == '-' && SignedDecimal(n)[1..] == Prompt.Decimal(b);
    assert m >= 0 ==> IsDigit(SignedDecimal(m)[0]);
    assert n >= 0 ==> IsDigit(SignedDecimal(n)[0]);
    Prompt.DecimalInjective(a, b);
  }

  /** What follows the module id in a line's key. */
  function KeyTail(l: Line): string { "/" + SignedDecimal(l.priority) + "/" + TrimSpace(l.text) }

  lemma KeyParts(l: Line)
    ensures KeyOfLine(l) == "primary:" + (l.moduleId + KeyTail(l))
    ensures Cut(KeyTail(l)[1..], '/') == Some((SignedDecimal(l.priority), TrimSpace(l.text)))
  {
    hide TrimSpace, SignedDecimal, Cut;
    NoSlashInDecimal(l.priority);
    CutOfJoin(SignedDecimal(l.priority), TrimSpace(l.text), '/');
    assert KeyTail(l)[1..] == SignedDecimal(l.priority) + ['/'] + TrimSpace(l.text);
  }

  predicate ShadowsBy(a: Line, b: Line, e: string) {
    a.moduleId == b.moduleId + "/" + SignedDecimal(b.priority) + e && e + KeyTail(a) == "/" + TrimSpace(b.text)
  }

  /** a's module id goes on with b's priority, and b's text then reads like the rest of a's key. */
  ghost predicate Shadows(a: Line, b: Line) {
    exists e :: ShadowsBy(a, b, e)
  }

  /** Two lines share a key exactly when module, priority and trimmed text agree, or one shadows the other. */
  lemma KeyOfLineIff(a: Line, b: Line)
    ensures KeyOfLine(a) == KeyOfLine(b)
       <==> || (a.moduleId == b.moduleId && a.priority == b.priority && TrimSpace(a.text) == TrimSpace(b.text))
            || Shadows(a, b) || Shadows(b, a)
  {
    KeyParts(a);
    KeyParts(b);
    if |a.moduleId| == |b.moduleId| { SameKeyIff(a, b); }
    if Shadows(a, b) { ShadowsShares(a, b); }
    if Shadows(b, a) { ShadowsShares(b, a); }
    hide KeyOfLine, KeyTail, Shadows, TrimSpace, SignedDecimal, Cut;
    if KeyOfLine(a) == KeyOfLine(b) {
      if |b.moduleId| < |a.moduleId| { LongerShadows(a, b); }
      else if |a.moduleId| < |b.moduleId| { LongerShadows(b, a); }
    }
  }

  lemma SameKeyIff(a: Line, b: Line)
    requires |a.moduleId| == |b.moduleId|
    ensures KeyOfLine(a) == KeyOfLine(b)
       <==> a.moduleId == b.moduleId && a.priority == b.priority && TrimSpace(a.text) == TrimSpace(b.text)
  {
    KeyParts(a);
    KeyParts(b);
    hide KeyOfLine, TrimSpace, SignedDecimal, Cut;
    if KeyOfLine(a) == KeyOfLine(b) {
      var x, y := a.moduleId + KeyTail(a), b.moduleId + KeyTail(b);
      SamePrefixed("primary:", x, y);
      assert x[..|a.moduleId|] == a.moduleId && y[..|b.moduleId|] == b.moduleId;
      assert x[|a.moduleId|..] == KeyTail(a) && y[|b.moduleId|..] == KeyTail(b);
      SignedDecimalInjective(a.priority, b.priority);
    }
  }

  lemma SamePrefixed(p: string, x: string, y: string)
    requires p + x == p + y
    ensures x == y
  {
    assert (p + x)[|p|..] == x && (p + y)[|p|..] == y;
  }

  lemma ShadowsShares(a: Line, b: Line)
    requires Shadows(a, b)
    ensures KeyOfLine(a) == KeyOfLine(b)
  {
    KeyParts(a);
    KeyParts(b);
    hide KeyOfLine, TrimSpace, SignedDecimal, Cut;
    var e :| ShadowsBy(a, b, e);
    var d := b.moduleId + "/" + SignedDecimal(b.priority);
    assert a.moduleId + KeyTail(a) == d + (e + KeyTail(a));
    assert b.moduleId + KeyTail(b) == d + ("/" + TrimSpace(b.text));
  }

  lemma LongerShadows(a: Line, b: Line)
    requires |b.moduleId| < |a.moduleId| && KeyOfLine(a) == KeyOfLine(b)
    ensures Shadows(a, b)
  {
    KeyParts(a);
    KeyParts(b);
    NoSlashInDecimal(b.priority);
    hide KeyOfLine, TrimSpace, SignedDecimal, Cut;
    SamePrefixed("primary:", a.moduleId + KeyTail(a), b.moduleId + KeyTail(b));
    var rest := SplitAt(a.moduleId, KeyTail(a), b.moduleId, KeyTail(b));
    var d := SignedDecimal(b.priority);
    var r := AfterSlash(rest, KeyTail(a), KeyTail(b));
    assert KeyTail(b)[1..] == d + ("/" + TrimSpace(b.text));
    SlashSplits(r, KeyTail(a), d, "/" + TrimSpace(b.text));
    assert a.moduleId == b.moduleId + "/" + d + r[|d|..];
    assert ShadowsBy(a, b, r[|d|..]);
  }

  lemma AfterSlash(rest: string, tail: string, tail': string) returns (r: string)
    requires rest != [] && rest + tail == tail' && tail'[0] == '/'
    ensures rest == "/" + r && r + tail == tail'[1..]
  {
    r := rest[1..];
    assert (rest + tail)[0] == rest[0] && (rest + tail)[1..] == r + tail;
  }

  lemma SplitAt(x: string, tail: string, y: string, tail': string) returns (rest: string)
    requires x + tail == y + tail' && |y| < |x|
    ensures x == y + rest && rest != [] && rest + tail == tail'
  {
    rest := x[|y|..];
    assert (x + tail)[..|y|] == x[..|y|] && (y + tail')[..|y|] == y;
    assert (x + tail)[|y|..] == rest + tail && (y + tail')[|y|..] == tail';
  }

  /** d, which has no slash, ends before tail, which begins with one. */
  lemma {:induction false} SlashSplits(rest: string, tail: string, d: string, text: string)
    requires tail != [] && tail[0] == '/' && '/' !in d && rest + tail == d + text
    ensures |d| <= |rest| && rest == d + rest[|d|..] && rest[|d|..] + tail == text
  {
    if d == [] {
      assert d + text == text && rest[0..] == rest;
    } else {
      assert (d + text)[0] == d[0] && (d + text)[1..] == d[1..] + text;
      assert rest != [];
      assert (rest + tail)[0] == rest[0] && (rest + tail)[1..] == rest[1..] + tail;
      SlashSplits(rest[1..], tail, d[1..], text);
      assert rest == [rest[0]] + rest[1..] && d == [d[0]] + d[1..];
    }
  }

  /** In particular if no module id has a slash. */
  lemma KeyOfLineInjective(a: Line, b: Line)
    requires '/' !in a.moduleId && '/' !in b.moduleId
    ensures KeyOfLine(a) == KeyOfLine(b)
       <==> a.moduleId == b.moduleId && a.priority == b.priority && TrimSpace(a.text) == TrimSpace(b.text)
  {
    KeyOfLineIff(a, b);
    hide TrimSpace, SignedDecimal, KeyTail, KeyOfLine;
    if Shadows(a, b) { SlashShadows(a, b); }
    if Shadows(b, a) { SlashShadows(b, a); }
  }

  lemma SlashShadows(a: Line, b: Line)
    requires Shadows(a, b)
    ensures '/' in a.moduleId
  {
    var e :| ShadowsBy(a, b, e);
    assert a.moduleId[|b.moduleId|] == '/';
  }

  /** Two different lines of two module families, texts that no masking rule touches, and one key. */
  lemma SlashInModuleCollides(canon: Canon, a: Template, b: Template)
    requires a.moduleId == "web/4/a" && a.priority == 10 && a.text == "(x)" == canon("web/4/a", "(x)")
    requires b.moduleId == "web" && b.priority == 4 && b.text == "a/10/(x)" == canon("web", "a/10/(x)")
    ensures ModuleFamily(a.moduleId) == a.moduleId && ModuleFamily(b.moduleId) == b.moduleId
    ensures LineOf(canon, a) != LineOf(canon, b) && KeyOfLine(LineOf(canon, a)) == KeyOfLine(LineOf(canon, b))
  {
    assert TrimDigits("web") == "web" && TrimDigits("web/4/a") == "web/4/a";
    assert LineOf(canon, a) == Line("web/4/a", 10, "(x)") && LineOf(canon, b) == Line("web", 4, "a/10/(x)");
    SpelledAlike();
    hide KeyOfLine, LineOf;
  }

  lemma SpelledAlike()
    ensures KeyOfLine(Line("web/4/a", 10, "(x)")) == KeyOfLine(Line("web", 4, "a/10/(x)"))
  {
    var a, b := Line("web/4/a", 10, "(x)"), Line("web", 4, "a/10/(x)");
    TwoDecimals();
    Untrimmed();
    hide TrimSpace, SignedDecimal, KeyOfLine;
    assert KeyTail(a) == "/10/(x)" && "/a" + KeyTail(a) == "/" + TrimSpace(b.text);
    hide KeyTail;
    assert a.moduleId == b.moduleId + "/" + SignedDecimal(b.priority) + "/a";
    assert ShadowsBy(a, b, "/a");
    ShadowsShares(a, b);
  }

  lemma TwoDecimals()
    ensures SignedDecimal(4) == "4" && SignedDecimal(10) == "10"
  {
    assert Prompt.Decimal(1) == "1";
  }

  lemma Untrimmed()
    ensures TrimSpace("(x)") == "(x)" && TrimSpace("a/10/(x)") == "a/10/(x)"
  {
  }

  function KeysOf(ls: seq<Line>): seq<string> { seq(|ls|, i requires 0 <= i < |ls| => KeyOfLine(ls[i])) }

  /** First occurrences, in order. */
  function Firsts(keys: seq<string>): seq<string> {
    if keys == [] then []
    else
      var init := Firsts(keys[..|keys| - 1]);
      if keys[|keys| - 1] in init then init else init + [keys[|keys| - 1]]
  }

  /** One key per distinct line, in line order; lines that read the same once trimmed share one. */
  ghost function Candidates(lines: set<Line>): seq<string> {
    LineLessTotal();
    Firsts(KeysOf(Ordered(lines, LineLess)))
  }

  /** A sorted list with repeats, without them. */
  function Squeezed(ls: seq<Line>): seq<Line> {
    if ls == [] then []
    else
      var init, last := Squeezed(ls[..|ls| - 1]), ls[|ls| - 1];
      if init != [] && init[|init| - 1] == last then init else init + [last]
  }

  lemma {:induction false} SqueezedOrders(ls: seq<Line>)
    requires TotalOrder(LineLess) && SortedBy(ls, LineLess)
    ensures StrictlySorted(Squeezed(ls), LineLess) && forall l :: l in Squeezed(ls) <==> l in ls
    ensures ls != [] ==> Squeezed(ls) != [] && Squeezed(ls)[|Squeezed(ls)| - 1] == ls[|ls| - 1]
  {
    hide TotalOrder, LineLess;
    if ls != [] {
      var before, last := ls[..|ls| - 1], ls[|ls| - 1];
      SqueezedOrders(before);
      assert ls == before + [last];
      if before == [] {
        assert Squeezed(ls) == [last];
      } else {
        assert !LineLess(last, before[|before| - 1]);
        SqueezedOneMore(Squeezed(before), before, last);
      }
    }
  }

  lemma SqueezedOneMore(init: seq<Line>, before: seq<Line>, last: Line)
    requires TotalOrder(LineLess) && StrictlySorted(init, LineLess) && forall l :: l in init <==> l in before
    requires init != [] && !LineLess(last, init[|init| - 1])
    ensures var out := if init[|init| - 1] == last then init else init + [last];
            && StrictlySorted(out, LineLess) && out[|out| - 1] == last
            && forall l :: l in out <==> l in before + [last]
  {
    var top := init[|init| - 1];
    if top != last {
      forall x | x in init ensures LineLess(x, last) {
        var j :| 0 <= j < |init| && init[j] == x;
        assert j < |init| - 1 ==> LineLess(x, top);
      }
      PutLast(init, last, LineLess);
    }
    hide TotalOrder, StrictlySorted, LineLess;
  }

  /** One more line adds its key unless it is there. */
  lemma FirstsOfMore(ls: seq<Line>, last: Line)
    ensures var before, key := Firsts(KeysOf(ls)), KeyOfLine(last);
            Firsts(KeysOf(ls + [last])) == if key in before then before else before + [key]
  {
    hide KeyOfLine;
    assert KeysOf(ls + [last]) == KeysOf(ls) + [KeyOfLine(last)];
    assert KeysOf(ls + [last])[..|ls|] == KeysOf(ls);
  }

  lemma {:induction false} SqueezingKeepsFirsts(ls: seq<Line>)
    ensures Firsts(KeysOf(ls)) == Firsts(KeysOf(Squeezed(ls)))
    ensures forall l :: l in ls ==> KeyOfLine(l) in Firsts(KeysOf(ls))
  {
    hide KeyOfLine, Firsts, KeysOf;
    if ls != [] {
      var before, last := ls[..|ls| - 1], ls[|ls| - 1];
      assert ls == before + [last];
      SqueezingKeepsFirsts(before);
      var init := Squeezed(before);
      FirstsOfMore(before, last);
      FirstsOfMore(init, last);
      if init != [] && init[|init| - 1] == last { LastIsFirst(init, last); }
      assert forall l :: l in ls ==> l in before || l == last;
    }
  }

  lemma LastIsFirst(init: seq<Line>, last: Line)
    requires init != [] && init[|init| - 1] == last
    ensures KeyOfLine(last) in Firsts(KeysOf(init))
  {
    hide KeyOfLine;
    var keys := KeysOf(init);
    assert keys[|keys| - 1] == KeyOfLine(last);
  }

  /** Normalize a copy, sort it, keep each key the first time it is seen. */
  method EvidenceCandidates(canon: Canon, cited: seq<Template>) returns (out: seq<string>)
    ensures out == Candidates(Lines(canon, cited))
  {
    hide KeyOfLine, Firsts;
    var normalized: seq<Line> := [];
    for i := 0 to |cited|
      invariant forall l :: l in normalized <==> l in Lines(canon, cited[..i])
    {
      assert cited[..i + 1] == cited[..i] + [cited[i]];
      LinesGrow(canon, cited[..i], cited[i]);
      normalized := normalized + [LineOf(canon, cited[i])];
    }
    assert cited[..|cited|] == cited;
    LineLessTotal();
    TotalIsWeak(LineLess);
    var sorted := Sort(normalized, LineLess);
    MembersOfPermutation(normalized, sorted);
    out := KeepFirsts(sorted);
    SqueezedOrders(sorted);
    SqueezingKeepsFirsts(sorted);
    OrderedIs(Lines(canon, cited), Squeezed(sorted), LineLess);
  }

  method KeepFirsts(sorted: seq<Line>) returns (out: seq<string>)
    ensures out == Firsts(KeysOf(sorted))
  {
    out := [];
    var seen: set<string> := {};
    for i := 0 to |sorted|
      invariant out == Firsts(KeysOf(sorted[..i])) && forall k :: k in seen <==> k in out
    {
      assert KeysOf(sorted[..i + 1])[..i] == KeysOf(sorted[..i]);
      var key := KeyOfLine(sorted[i]);
      if key in seen { continue; }
      seen := seen + {key};
      out := out + [key];
    }
    assert sorted[..|sorted|] == sorted;
  }

  lemma LinesGrow(canon: Canon, ts: seq<Template>, t: Template)
    ensures Lines(canon, ts + [t]) == Lines(canon, ts) + {LineOf(canon, t)}
  {
    forall l | l in Lines(canon, ts) + {LineOf(canon, t)} ensures l in Lines(canon, ts + [t]) {
      if l in Lines(canon, ts) {
        var u :| u in ts && LineOf(canon, u) == l;
        assert u in ts + [t];
      } else {
        assert t in ts + [t];
      }
    }
  }

  lemma {:induction false} FirstsAreDistinct(keys: seq<string>)
    ensures Distinct(Firsts(keys)) && forall k :: k in Firsts(keys) <==> k in keys
  {
    if keys != [] {
      var init, last := keys[..|keys| - 1], keys[|keys| - 1];
      FirstsAreDistinct(init);
      assert keys == init + [last];
    }
  }

  /** The candidates are the keys of exactly the cited lines, each once. */
  lemma CandidatesAreTheCitedLines(lines: set<Line>)
    ensures Distinct(Candidates(lines))
    ensures forall k :: k in Candidates(lines) <==> exists l :: l in lines && KeyOfLine(l) == k
    ensures Candidates(lines) == [] <==> lines == {}
  {
    hide KeyOfLine;
    LineLessTotal();
    var ordered := Ordered(lines, LineLess);
    var keys := KeysOf(ordered);
    FirstsAreDistinct(keys);
    forall k ensures k in Candidates(lines) <==> exists l :: l in lines && KeyOfLine(l) == k {
      if k in keys {
        var i :| 0 <= i < |keys| && keys[i] == k;
        assert ordered[i] in lines;
      }
      if l :| l in lines && KeyOfLine(l) == k {
        assert l in ordered;
        var i :| 0 <= i < |ordered| && ordered[i] == l;
        assert keys[i] == k;
      }
    }
    if l :| l in lines { assert KeyOfLine(l) in Candidates(lines); }
    if Candidates(lines) != [] { assert Candidates(lines)[0] in Candidates(lines); }
  }

  // ----- the choice -----

  ghost function ClassOf(modules: seq<string>, key: string, category: string): string {
    Fingerprint.ClassPreImage(modules, [key], category)
  }

  ghost predicate IsFirst(candidates: seq<string>, modules: seq<string>, category: string, existing: set<string>,
                          i: int) {
    0 <= i < |candidates| && ClassOf(modules, candidates[i], category) in existing
    && forall j :: 0 <= j < i ==> ClassOf(modules, candidates[j], category) !in existing
  }

  lemma FirstUnique(candidates: seq<string>, modules: seq<string>, category: string, existing: set<string>, i: int,
                    k: int)
    requires IsFirst(candidates, modules, category, existing, i) && IsFirst(candidates, modules, category, existing, k)
    ensures i == k
  {
  }

  /** The first candidate whose class is stored, else the first. */
  ghost predicate IsChosen(candidates: seq<string>, modules: seq<string>, category: string, existing: set<string>,
                           key: string) {
    candidates != []
    && if exists c :: c in candidates && ClassOf(modules, c, category) in existing
       then exists i :: IsFirst(candidates, modules, category, existing, i) && candidates[i] == key
       else key == candidates[0]
  }

  datatype Choice = Choice(evidence: seq<string>, class_: string)

  method ChooseEvidenceKey(canon: Canon, cited: seq<Template>, modules: seq<string>, category: string,
                           existing: set<string>)
    returns (choice: Choice)
    ensures choice.class_ == Fingerprint.ClassPreImage(modules, choice.evidence, category)
    ensures if cited == [] then choice.evidence == []
            else |choice.evidence| == 1
                 && IsChosen(Candidates(Lines(canon, cited)), modules, category, existing, choice.evidence[0])
  {
    hide Fingerprint.ClassPreImage, Candidates;
    var candidates := EvidenceCandidates(canon, cited);
    CandidatesAreTheCitedLines(Lines(canon, cited));
    if cited != [] { assert LineOf(canon, cited[0]) in Lines(canon, cited); }
    if |candidates| == 0 {
      var none := Fingerprint.Class(modules, [], category);
      return Choice([], none);
    }
    var classes: seq<string> := [];
    for i := 0 to |candidates|
      invariant |classes| == i && forall j :: 0 <= j < i ==> classes[j] == ClassOf(modules, candidates[j], category)
    {
      var c := Fingerprint.Class(modules, [candidates[i]], category);
      classes := classes + [c];
    }
    if |candidates| == 1 { return Choice([candidates[0]], classes[0]); }
    for i := 0 to |candidates|
      invariant forall j :: 0 <= j < i ==> ClassOf(modules, candidates[j], category) !in existing
    {
      if classes[i] in existing { return Choice([candidates[i]], classes[i]); }
    }
    return Choice([candidates[0]], classes[0]);
  }

  /** A finding joins an existing class whenever one is keyed on any line it cites; and it never names a line it
      does not cite. */
  lemma ChoiceJoinsExisting(canon: Canon, cited: seq<Template>, modules: seq<string>, category: string,
                            existing: set<string>, key: string)
    requires IsChosen(Candidates(Lines(canon, cited)), modules, category, existing, key)
    ensures ClassOf(modules, key, category) in existing
       <==> exists t :: t in cited && ClassOf(modules, KeyOfLine(LineOf(canon, t)), category) in existing
    ensures exists t :: t in cited && KeyOfLine(LineOf(canon, t)) == key
  {
    hide KeyOfLine, ClassOf, Candidates;
    var candidates := Candidates(Lines(canon, cited));
    CandidatesAreTheCitedLines(Lines(canon, cited));
    assert key in candidates;
    var l :| l in Lines(canon, cited) && KeyOfLine(l) == key;
    var t :| t in cited && LineOf(canon, t) == l;
    if u :| u in cited && ClassOf(modules, KeyOfLine(LineOf(canon, u)), category) in existing {
      assert LineOf(canon, u) in Lines(canon, cited) && KeyOfLine(LineOf(canon, u)) in candidates;
    }
  }

  /** Once the chosen class is stored, the same lines choose it again. */
  lemma ChoiceIsStable(candidates: seq<string>, modules: seq<string>, category: string, existing: set<string>,
                       key: string, again: string)
    requires IsChosen(candidates, modules, category, existing, key)
    requires IsChosen(candidates, modules, category, existing + {ClassOf(modules, key, category)}, again)
    ensures ClassOf(modules, again, category) == ClassOf(modules, key, category)
  {
    hide ClassOf;
    var class_ := ClassOf(modules, key, category);
    assert key in candidates && class_ in existing + {class_};
    var i :| IsFirst(candidates, modules, category, existing + {class_}, i) && candidates[i] == again;
    if exists c :: c in candidates && ClassOf(modules, c, category) in existing {
      var k :| IsFirst(candidates, modules, category, existing, k) && candidates[k] == key;
      assert IsFirst(candidates, modules, category, existing + {class_}, k);
      FirstUnique(candidates, modules, category, existing + {class_}, i, k);
    }
  }

  // ----- a finding's identity -----

  /** Everything about a finding that is derived from its lines. */
  datatype Derived = Derived(evidence: seq<string>, nodes: seq<int>, modules: seq<string>, category: string,
                             class_: string, fingerprint: string)

  function Families(cited: seq<Template>): set<string> { set t | t in cited :: ModuleFamily(t.moduleId) }

  ghost function Modules(cited: seq<Template>): seq<string> {
    StringLessTotal();
    Ordered(Families(cited), StringLess)
  }

  function Category(cited: seq<Template>): string {
    if exists t :: t in cited && t.category == SECURITY then SECURITY else ""
  }

  function NodeLists(cited: seq<Template>): seq<seq<int>> {
    seq(|cited|, i requires 0 <= i < |cited| => cited[i].nodes)
  }

  method DeriveFinding(canon: Canon, system: string, cited: seq<Template>, existing: set<string>) returns (d: Derived)
    ensures d.modules == Modules(cited) && d.category == Category(cited)
    ensures d.nodes == Nodes.Capped(Nodes.Union(NodeLists(cited)))
    ensures |d.evidence| == |cited| && forall i :: 0 <= i < |cited| ==> d.evidence[i] == cited[i].text
    ensures exists key :: KeyedBy(canon, system, cited, existing, d, key)
  {
    var category := "";
    var evidence: seq<string> := [];
    var moduleSet: set<string> := {};
    for i := 0 to |cited|
      invariant |evidence| == i && forall j :: 0 <= j < i ==> evidence[j] == cited[j].text
      invariant moduleSet == Families(cited[..i])
      invariant category == Category(cited[..i])
    {
      assert cited[..i + 1] == cited[..i] + [cited[i]];
      FamiliesGrow(cited[..i], cited[i]);
      evidence := evidence + [cited[i].text];
      moduleSet := moduleSet + {ModuleFamily(cited[i].moduleId)};
      if cited[i].category == SECURITY { category := SECURITY; }
    }
    assert cited[..|cited|] == cited;
    var nodes := Nodes.MergeAll(NodeLists(cited));
    StringLessTotal();
    var modules := InOrder(moduleSet, StringLess);
    OrderedIs(moduleSet, modules, StringLess);
    var choice := ChooseEvidenceKey(canon, cited, modules, category, existing);
    var fingerprint := Fingerprint.Compute(system, modules, choice.evidence, category);
    d := Derived(evidence, nodes, modules, category, choice.class_, fingerprint);
    assert KeyedBy(canon, system, cited, existing, d, choice.evidence);
  }

  lemma FamiliesGrow(ts: seq<Template>, t: Template)
    ensures Families(ts + [t]) == Families(ts) + {ModuleFamily(t.moduleId)}
    ensures Category(ts + [t]) == if t.category == SECURITY then SECURITY else Category(ts)
  {
    assert forall x :: x in ts + [t] <==> x in ts || x == t;
    forall m | m in Families(ts) + {ModuleFamily(t.moduleId)} ensures m in Families(ts + [t]) {
      if m != ModuleFamily(t.moduleId) {
        var x :| x in ts && ModuleFamily(x.moduleId) == m;
        assert x in ts + [t];
      } else {
        assert t in ts + [t];
      }
    }
    if Category(ts) == SECURITY {
      if x :| x in ts && x.category == SECURITY { assert x in ts + [t]; }
    }
  }

  /** One key, chosen among the cited lines, is hashed into both names. */
  ghost predicate KeyedBy(canon: Canon, system: string, cited: seq<Template>, existing: set<string>, d: Derived,
                          key: seq<string>) {
    && d.class_ == Fingerprint.ClassPreImage(d.modules, key, d.category)
    && d.fingerprint == Fingerprint.PreImage(system, d.modules, key, d.category)
    && if cited == [] then key == []
       else |key| == 1 && IsChosen(Candidates(Lines(canon, cited)), d.modules, d.category, existing, key[0])
  }

  /** The same lines cited in another order, or more than once, give a finding the same identity, class, modules,
      category and nodes: nothing but which lines the model cites reaches them. */
  lemma CitationOrderIsIrrelevant(canon: Canon, system: string, a: seq<Template>, b: seq<Template>,
                                  existing: set<string>,
                                  d: Derived, e: Derived)
    requires forall t :: t in a <==> t in b
    requires d.modules == Modules(a) && d.category == Category(a) && d.nodes == Nodes.Capped(Nodes.Union(NodeLists(a)))
    requires e.modules == Modules(b) && e.category == Category(b) && e.nodes == Nodes.Capped(Nodes.Union(NodeLists(b)))
    requires exists key :: KeyedBy(canon, system, a, existing, d, key)
    requires exists key :: KeyedBy(canon, system, b, existing, e, key)
    ensures e == d.(evidence := e.evidence)
  {
    hide KeyedBy, Modules, Category, NodeLists;
    var x :| KeyedBy(canon, system, a, existing, d, x);
    var y :| KeyedBy(canon, system, b, existing, e, y);
    SameLines(canon, a, b);
    SameKey(canon, system, a, b, existing, d, e, x, y);
  }

  lemma SameKey(canon: Canon, system: string, a: seq<Template>, b: seq<Template>, existing: set<string>, d: Derived,
                e: Derived,
                x: seq<string>, y: seq<string>)
    requires (forall t :: t in a <==> t in b) && Lines(canon, a) == Lines(canon, b)
    requires d.modules == e.modules && d.category == e.category
    requires KeyedBy(canon, system, a, existing, d, x) && KeyedBy(canon, system, b, existing, e, y)
    ensures e.class_ == d.class_ && e.fingerprint == d.fingerprint
  {
    hide Fingerprint.PreImage, Fingerprint.ClassPreImage, Candidates, IsChosen;
    assert b != [] ==> b[0] in b && b[0] in a;
    if a != [] {
      assert a[0] in b;
      ChosenUnique(Candidates(Lines(canon, a)), d.modules, d.category, existing, x[0], y[0]);
      assert x == y;
    }
  }

  lemma SameLines(canon: Canon, a: seq<Template>, b: seq<Template>)
    requires forall t :: t in a <==> t in b
    ensures Lines(canon, a) == Lines(canon, b) && Modules(a) == Modules(b) && Category(a) == Category(b)
    ensures Nodes.Union(NodeLists(a)) == Nodes.Union(NodeLists(b))
  {
    assert Families(a) == Families(b);
    forall s ensures s in NodeLists(a) <==> s in NodeLists(b) {
      NodesOf(a, b, s);
      NodesOf(b, a, s);
    }
    Nodes.UnionOfPermutation(NodeLists(a), NodeLists(b));
  }

  lemma NodesOf(a: seq<Template>, b: seq<Template>, s: seq<int>)
    requires forall t :: t in a <==> t in b
    ensures s in NodeLists(a) ==> s in NodeLists(b)
  {
    if s in NodeLists(a) {
      var i :| 0 <= i < |a| && NodeLists(a)[i] == s;
      assert a[i] in a && a[i] in b;
      var j :| 0 <= j < |b| && b[j] == a[i];
      assert NodeLists(b)[j] == s;
    }
  }

  lemma ChosenUnique(candidates: seq<string>, modules: seq<string>, category: string, existing: set<string>,
                     x: string, y: string)
    requires IsChosen(candidates, modules, category, existing, x)
    requires IsChosen(candidates, modules, category, existing, y)
    ensures x == y
  {
    hide ClassOf;
    if exists c :: c in candidates && ClassOf(modules, c, category) in existing {
      var i :| IsFirst(candidates, modules, category, existing, i) && candidates[i] == x;
      var k :| IsFirst(candidates, modules, category, existing, k) && candidates[k] == y;
      FirstUnique(candidates, modules, category, existing, i, k);
    }
  }
}
