/** The prompt's selection: templates collapsed into lines, the novel and security lines kept, the
    busiest of the rest as context, and the identifiers the model cites. */
module Prompt {
  import opened Sorting
  import opened Model
  import Nodes
  import Gate

  datatype Group = Group(family: string, priority: int, canon: string)

  datatype Line = Line(template: Template, variants: int)

  datatype Selection = Selection(novel: set<string>, maxAmbient: int)

  function GroupOf(canon: Canon, t: Template): Group {
    var family := ModuleFamily(t.moduleId);
    Group(family, t.priority, canon(family, t.text))
  }

  // ----- collapsing -----

  ghost function First(t: Template): Line {
    Line(t.(moduleId := ModuleFamily(t.moduleId), nodes := Nodes.Capped(Nodes.Valid(t.nodes))), 1)
  }

  /** A variant takes over the line when it outweighs everything counted before it. */
  predicate Takes(line: Line, t: Template) {
    || t.count > line.template.count
    || (t.count == line.template.count && StringLess(t.text, line.template.text))
  }

  ghost function Absorb(line: Line, t: Template): Line {
    var shown := if Takes(line, t) then t.(moduleId := ModuleFamily(t.moduleId)) else line.template;
    Line(shown.(count := line.template.count + t.count,
                nodes := Nodes.Capped(Nodes.Valid(line.template.nodes) + Nodes.Valid(t.nodes)),
                category := if t.category == SECURITY then SECURITY else shown.category),
         line.variants + 1)
  }

  /** The line the templates of group k collapse into. */
  ghost function Folded(canon: Canon, ts: seq<Template>, k: Group): Option<Line> {
    if ts == [] then None
    else
      var t, before := ts[|ts| - 1], Folded(canon, ts[..|ts| - 1], k);
      if GroupOf(canon, t) != k then before
      else match before
           case None => Some(First(t))
           case Some(line) => Some(Absorb(line, t))
  }

  /** The groups of a bundle, in order of first appearance. */
  function Order(canon: Canon, ts: seq<Template>): seq<Group> {
    if ts == [] then []
    else
      var before, k := Order(canon, ts[..|ts| - 1]), GroupOf(canon, ts[|ts| - 1]);
      if k in before then before else before + [k]
  }

  lemma {:induction false} OrderIsDistinct(canon: Canon, ts: seq<Template>)
    ensures Distinct(Order(canon, ts))
    ensures forall k :: k in Order(canon, ts) <==> Folded(canon, ts, k).Some?
    ensures forall k :: k in Order(canon, ts) <==> exists t :: t in ts && GroupOf(canon, t) == k
  {
    if ts != [] {
      var init, t := ts[..|ts| - 1], ts[|ts| - 1];
      assert ts == init + [t];
      OrderIsDistinct(canon, init);
      assert t in ts;
    }
  }

  ghost function LineOf(canon: Canon, ts: seq<Template>, k: Group): Line
    requires k in Order(canon, ts)
  {
    OrderIsDistinct(canon, ts);
    Folded(canon, ts, k).value
  }

  /** What the first half of Select builds: one line per group, in order of first appearance. */
  ghost function Lines(canon: Canon, ts: seq<Template>): (lines: seq<Line>)
    ensures |lines| == |Order(canon, ts)|
    ensures forall i :: 0 <= i < |lines| ==> lines[i] == LineOf(canon, ts, Order(canon, ts)[i])
  {
    seq(|Order(canon, ts)|, i requires 0 <= i < |Order(canon, ts)| => LineOf(canon, ts, Order(canon, ts)[i]))
  }

  /** One more variant folded into the line of its group. */
  method Fold(line0: Line, t: Template, family: string) returns (line: Line)
    requires family == ModuleFamily(t.moduleId)
    ensures line == Absorb(line0, t)
  {
    line := line0.(variants := line0.variants + 1);
    line := line.(template := line.template.(count := line.template.count + t.count));
    var nodes := Nodes.MergeNodeIDs(line.template.nodes, t.nodes);
    if t.count > line.template.count - t.count
       || (t.count == line.template.count - t.count && StringLess(t.text, line.template.text)) {
      var count := line.template.count;
      line := line.(template := t.(moduleId := family, count := count));
    }
    line := line.(template := line.template.(nodes := nodes));
    if t.category == SECURITY {
      line := line.(template := line.template.(category := SECURITY));
    }
  }

  /** The grouped map and its order, after the templates ts. */
  ghost predicate Grouped(canon: Canon, ts: seq<Template>, order: seq<Group>, grouped: map<Group, Line>) {
    && order == Order(canon, ts)
    && (forall k :: k in grouped <==> k in order)
    && (forall k :: k in grouped ==> Folded(canon, ts, k) == Some(grouped[k]))
  }

  lemma GroupedStep(canon: Canon, ts: seq<Template>, order: seq<Group>, grouped: map<Group, Line>, t: Template)
    requires Grouped(canon, ts, order, grouped)
    ensures var k := GroupOf(canon, t);
            if k in grouped
            then Grouped(canon, ts + [t], order, grouped[k := Absorb(grouped[k], t)])
            else Grouped(canon, ts + [t], order + [k], grouped[k := First(t)])
  {
    hide Absorb, First, GroupOf;
    var k := GroupOf(canon, t);
    OrderIsDistinct(canon, ts);
    forall g ensures Folded(canon, ts + [t], g)
                  == if g != k then Folded(canon, ts, g)
                     else if k in grouped then Some(Absorb(grouped[k], t)) else Some(First(t)) {
      FoldedStep(canon, ts, t, g);
    }
    assert (ts + [t])[..|ts|] == ts;
  }

  lemma FoldedStep(canon: Canon, ts: seq<Template>, t: Template, k: Group)
    ensures Folded(canon, ts + [t], k)
         == if GroupOf(canon, t) != k then Folded(canon, ts, k)
            else match Folded(canon, ts, k)
                 case None => Some(First(t))
                 case Some(line) => Some(Absorb(line, t))
  {
    assert (ts + [t])[..|ts|] == ts;
  }

  method Collapse(canon: Canon, ts: seq<Template>) returns (lines: seq<Line>)
    ensures lines == Lines(canon, ts)
  {
    hide Absorb, First, GroupOf;
    var grouped, order := GroupAll(canon, ts);
    OrderIsDistinct(canon, ts);
    lines := [];
    for i := 0 to |order|
      invariant |lines| == i
      invariant forall j :: 0 <= j < i ==> lines[j] == LineOf(canon, ts, order[j])
    {
      lines := lines + [grouped[order[i]]];
    }
  }

  method GroupAll(canon: Canon, ts: seq<Template>) returns (grouped: map<Group, Line>, order: seq<Group>)
    ensures Grouped(canon, ts, order, grouped)
  {
    grouped, order := map[], [];
    assert Grouped(canon, ts[..0], order, grouped);
    hide Grouped, Absorb, First;
    for i := 0 to |ts|
      invariant Grouped(canon, ts[..i], order, grouped)
    {
      var t := ts[i];
      assert ts[..i + 1] == ts[..i] + [t];
      GroupedStep(canon, ts[..i], order, grouped, t);
      grouped, order := GroupOne(canon, t, grouped, order);
    }
    assert ts[..|ts|] == ts;
  }

  method GroupOne(canon: Canon, t: Template, grouped0: map<Group, Line>, order0: seq<Group>)
    returns (grouped: map<Group, Line>, order: seq<Group>)
    ensures var k := GroupOf(canon, t);
            && grouped == grouped0[k := if k in grouped0 then Absorb(grouped0[k], t) else First(t)]
            && order == if k in grouped0 then order0 else order0 + [k]
  {
    grouped, order := grouped0, order0;
    var k := GroupOf(canon, t);
    if k !in grouped {
      var nodes := Nodes.SanitizeNodeIDs(t.nodes);
      grouped := grouped[k := Line(t.(moduleId := k.family, nodes := nodes), 1)];
      order := order + [k];
    } else {
      var line := Fold(grouped[k], t, k.family);
      grouped := grouped[k := line];
    }
  }

  // ----- what a line keeps of its variants -----

  function InGroup(canon: Canon, ts: seq<Template>, k: Group): seq<Template> {
    if ts == [] then []
    else
      var before := InGroup(canon, ts[..|ts| - 1], k);
      if GroupOf(canon, ts[|ts| - 1]) == k then before + [ts[|ts| - 1]] else before
  }

  function SumCounts(ts: seq<Template>): int {
    if ts == [] then 0 else SumCounts(ts[..|ts| - 1]) + ts[|ts| - 1].count
  }

  function NodeSets(ts: seq<Template>): seq<seq<int>> {
    if ts == [] then [] else NodeSets(ts[..|ts| - 1]) + [ts[|ts| - 1].nodes]
  }

  /** l stands for the variants g of group k: its module, priority and canonical text, the number and total
      count of the variants, and the smallest node ids of their union. */
  ghost predicate Carries(canon: Canon, l: Line, k: Group, g: seq<Template>) {
    && l.variants == |g| && l.template.count == SumCounts(g)
    && l.template.moduleId == k.family && l.template.priority == k.priority
    && canon(k.family, l.template.text) == k.canon
    && l.template.nodes == Nodes.Capped(Nodes.Union(NodeSets(g)))
    && ModuleFamily(k.family) == k.family
  }

  lemma {:induction false} LineKeeps(canon: Canon, ts: seq<Template>, k: Group)
    requires Folded(canon, ts, k).Some?
    ensures Carries(canon, Folded(canon, ts, k).value, k, InGroup(canon, ts, k))
  {
    hide Carries, Absorb, First, GroupOf;
    var init, t := ts[..|ts| - 1], ts[|ts| - 1];
    if GroupOf(canon, t) != k {
      LineKeeps(canon, init, k);
    } else if Folded(canon, init, k).Some? {
      LineKeeps(canon, init, k);
      AbsorbCarries(canon, Folded(canon, init, k).value, k, InGroup(canon, init, k), t);
    } else {
      NoneIsEmpty(canon, init, k);
      assert InGroup(canon, ts, k) == [t];
      FirstCarries(canon, t);
    }
  }

  lemma FirstCarries(canon: Canon, t: Template)
    ensures Carries(canon, First(t), GroupOf(canon, t), [t])
  {
    FamilyIdempotent(t.moduleId);
    assert [t][..0] == [] && NodeSets([t]) == [t.nodes] && [t.nodes][..0] == [];
    assert Nodes.Union([t.nodes]) == Nodes.Valid(t.nodes);
    assert SumCounts([t]) == t.count;
  }

  lemma AbsorbCarries(canon: Canon, line: Line, k: Group, g: seq<Template>, t: Template)
    requires Carries(canon, line, k, g) && GroupOf(canon, t) == k
    ensures Carries(canon, Absorb(line, t), k, g + [t])
  {
    hide Nodes.Capped, Nodes.Valid, Nodes.Union, NodeSets, ModuleFamily, Takes;
    NodesOfMore(line, g, t);
    SumOfMore(g, t);
  }

  lemma SumOfMore(g: seq<Template>, t: Template)
    ensures SumCounts(g + [t]) == SumCounts(g) + t.count
  {
    assert (g + [t])[..|g|] == g;
  }

  lemma NodesOfMore(line: Line, g: seq<Template>, t: Template)
    requires line.template.nodes == Nodes.Capped(Nodes.Union(NodeSets(g)))
    ensures Nodes.Capped(Nodes.Valid(line.template.nodes) + Nodes.Valid(t.nodes))
         == Nodes.Capped(Nodes.Union(NodeSets(g + [t])))
  {
    var sets := NodeSets(g);
    assert (g + [t])[..|g|] == g && NodeSets(g + [t]) == sets + [t.nodes];
    assert (sets + [t.nodes])[..|sets|] == sets;
    Nodes.UnionIsValid(sets);
    Nodes.CappedMerge(Nodes.Union(sets), Nodes.Valid(t.nodes), Nodes.MAX_NODES_PER_TEMPLATE);
  }

  lemma {:induction false} NoneIsEmpty(canon: Canon, ts: seq<Template>, k: Group)
    requires Folded(canon, ts, k).None?
    ensures InGroup(canon, ts, k) == []
  {
    if ts != [] { NoneIsEmpty(canon, ts[..|ts| - 1], k); }
  }

  // ----- conservation -----

  function SumLineCounts(lines: seq<Line>): int {
    if lines == [] then 0 else SumLineCounts(lines[..|lines| - 1]) + lines[|lines| - 1].template.count
  }

  function SumVariants(lines: seq<Line>): int {
    if lines == [] then 0 else SumVariants(lines[..|lines| - 1]) + lines[|lines| - 1].variants
  }

  lemma {:induction false} SumsAfterUpdate(lines: seq<Line>, i: nat, line: Line)
    requires i < |lines|
    ensures SumLineCounts(lines[i := line]) == SumLineCounts(lines) - lines[i].template.count + line.template.count
    ensures SumVariants(lines[i := line]) == SumVariants(lines) - lines[i].variants + line.variants
  {
    var init := lines[..|lines| - 1];
    var after := lines[i := line];
    if i < |init| {
      SumsAfterUpdate(init, i, line);
      assert after[..|lines| - 1] == init[i := line];
    } else {
      assert after[..|lines| - 1] == init;
    }
  }

  /** Collapsing loses nothing: counts and variants of the lines sum to the bundle's. */
  lemma {:induction false} LinesConserve(canon: Canon, ts: seq<Template>)
    ensures SumLineCounts(Lines(canon, ts)) == SumCounts(ts)
    ensures SumVariants(Lines(canon, ts)) == |ts|
  {
    if ts != [] {
      var init, t := ts[..|ts| - 1], ts[|ts| - 1];
      assert ts == init + [t];
      LinesConserve(canon, init);
      var before, k := Lines(canon, init), GroupOf(canon, t);
      if k in Order(canon, init) {
        var i :| 0 <= i < |before| && Order(canon, init)[i] == k;
        LinesAbsorb(canon, init, t, i);
        SumsAfterUpdate(before, i, Absorb(before[i], t));
      } else {
        LinesAppend(canon, init, t);
        assert (before + [First(t)])[..|before|] == before;
      }
    }
  }

  lemma LinesAbsorb(canon: Canon, ts: seq<Template>, t: Template, i: nat)
    requires i < |Lines(canon, ts)| && Order(canon, ts)[i] == GroupOf(canon, t)
    ensures Lines(canon, ts + [t]) == Lines(canon, ts)[i := Absorb(Lines(canon, ts)[i], t)]
  {
    hide Absorb, First, GroupOf;
    var before := Lines(canon, ts);
    OrderIsDistinct(canon, ts);
    OrderIsDistinct(canon, ts + [t]);
    assert (ts + [t])[..|ts|] == ts;
    forall j | 0 <= j < |before|
      ensures Lines(canon, ts + [t])[j] == before[i := Absorb(before[i], t)][j]
    {
      FoldedStep(canon, ts, t, Order(canon, ts)[j]);
    }
  }

  lemma LinesAppend(canon: Canon, ts: seq<Template>, t: Template)
    requires GroupOf(canon, t) !in Order(canon, ts)
    ensures Lines(canon, ts + [t]) == Lines(canon, ts) + [First(t)]
  {
    hide Absorb, First, GroupOf;
    OrderIsDistinct(canon, ts);
    OrderIsDistinct(canon, ts + [t]);
    assert (ts + [t])[..|ts|] == ts;
    var after, order := Lines(canon, ts + [t]), Order(canon, ts);
    assert Order(canon, ts + [t]) == order + [GroupOf(canon, t)];
    forall j | 0 <= j < |order| ensures after[j] == Lines(canon, ts)[j] {
      assert order[j] in order;
      FoldedStep(canon, ts, t, order[j]);
    }
    FoldedStep(canon, ts, t, GroupOf(canon, t));
  }

  // ----- choosing what is shown -----

  function LineKey(canon: Canon, l: Line): string { KeyOf(canon, l.template) }

  predicate Kept(canon: Canon, sel: Selection, l: Line) {
    LineKey(canon, l) in sel.novel || l.template.category == SECURITY
  }

  predicate LineLess(a: Line, b: Line) { LessTemplate(a.template, b.template) }

  /** Busier first; equal counts by template order. */
  predicate RankLess(a: Line, b: Line) {
    if a.template.count != b.template.count then a.template.count > b.template.count
    else LessTemplate(a.template, b.template)
  }

  function AmbientBefore(canon: Canon, sel: Selection, lines: seq<Line>, l: Line): set<Line> {
    set m | m in lines && !Kept(canon, sel, m) && RankLess(m, l)
  }

  /** Novel and security lines always; of the rest, the MaxAmbient busiest (all if negative). */
  predicate Shown(canon: Canon, sel: Selection, lines: seq<Line>, l: Line) {
    Kept(canon, sel, l) || sel.maxAmbient < 0 || |AmbientBefore(canon, sel, lines, l)| < sel.maxAmbient
  }

  /** The specification of Select: the shown lines, once each, in strict template order. */
  ghost predicate Selected(canon: Canon, ts: seq<Template>, sel: Selection, out: seq<Line>) {
    var lines := Lines(canon, ts);
    && StrictlySorted(out, LineLess)
    && forall l :: l in out <==> l in lines && Shown(canon, sel, lines, l)
  }

  lemma LineOrders()
    ensures WeakOrder(LineLess) && Asymmetric(LineLess)
    ensures WeakOrder(RankLess) && Asymmetric(RankLess)
  {
    LessTemplateWeak();
    forall x, y, z | !RankLess(y, x) && !RankLess(z, y) ensures !RankLess(z, x) {
      assert !LessTemplate(y.template, x.template) && !LessTemplate(z.template, y.template)
             ==> !LessTemplate(z.template, x.template);
    }
  }

  /** Rendering and resolving each call Select; both see the same list. */
  lemma SelectedUnique(canon: Canon, ts: seq<Template>, sel: Selection, a: seq<Line>, b: seq<Line>)
    requires Selected(canon, ts, sel, a) && Selected(canon, ts, sel, b)
    ensures a == b
  {
    LineOrders();
    forall l ensures l in a <==> l in b {}
    StrictlySortedUnique(a, b, LineLess);
  }

  /** Two lines of a bundle always differ in module, priority or text. */
  lemma LinesDiffer(canon: Canon, ts: seq<Template>, i: nat, j: nat)
    requires i < j < |Lines(canon, ts)|
    ensures var a, b := Lines(canon, ts)[i].template, Lines(canon, ts)[j].template;
            !(a.moduleId == b.moduleId && a.priority == b.priority && a.text == b.text)
  {
    OrderIsDistinct(canon, ts);
    LineKeeps(canon, ts, Order(canon, ts)[i]);
    LineKeeps(canon, ts, Order(canon, ts)[j]);
  }

  /** No ties: every two different lines of a bundle are ordered. */
  lemma LinesRelated(canon: Canon, ts: seq<Template>)
    ensures Distinct(Lines(canon, ts))
    ensures forall a, b :: a in Lines(canon, ts) && b in Lines(canon, ts) && a != b
                           ==> (LineLess(a, b) || LineLess(b, a)) && (RankLess(a, b) || RankLess(b, a))
  {
    var lines := Lines(canon, ts);
    forall i, j | 0 <= i < j < |lines| ensures lines[i] != lines[j] {
      LinesDiffer(canon, ts, i, j);
    }
    forall a, b | a in lines && b in lines && a != b
      ensures (LineLess(a, b) || LineLess(b, a)) && (RankLess(a, b) || RankLess(b, a))
    {
      var i :| 0 <= i < |lines| && lines[i] == a;
      var j :| 0 <= j < |lines| && lines[j] == b;
      LinesDiffer(canon, ts, if i < j then i else j, if i < j then j else i);
      LessTemplateTies(a.template, b.template);
    }
  }

  lemma SortedIsStrict(s: seq<Line>, less: (Line, Line) -> bool)
    requires SortedBy(s, less) && Distinct(s)
    requires forall a, b :: a in s && b in s && a != b ==> less(a, b) || less(b, a)
    ensures StrictlySorted(s, less)
  {
    forall i, j | 0 <= i < j < |s| ensures less(s[i], s[j]) {
      assert s[i] in s && s[j] in s;
    }
  }

  method Split(canon: Canon, sel: Selection, lines: seq<Line>) returns (kept: seq<Line>, ambient: seq<Line>)
    requires Distinct(lines)
    ensures Distinct(kept) && Distinct(ambient)
    ensures forall l :: l in kept <==> l in lines && Kept(canon, sel, l)
    ensures forall l :: l in ambient <==> l in lines && !Kept(canon, sel, l)
  {
    kept, ambient := [], [];
    for i := 0 to |lines|
      invariant Distinct(kept) && Distinct(ambient)
      invariant forall l :: l in kept <==> l in lines[..i] && Kept(canon, sel, l)
      invariant forall l :: l in ambient <==> l in lines[..i] && !Kept(canon, sel, l)
    {
      var line := lines[i];
      assert line !in lines[..i];
      assert lines[..i + 1] == lines[..i] + [line];
      if LineKey(canon, line) in sel.novel || line.template.category == SECURITY {
        kept := kept + [line];
      } else {
        ambient := ambient + [line];
      }
    }
    assert lines[..|lines|] == lines;
  }

  /** The ambient cut: rank by volume, keep the first MaxAmbient. */
  method Cut(canon: Canon, ts: seq<Template>, sel: Selection, ambient: seq<Line>) returns (out: seq<Line>)
    requires Distinct(ambient)
    requires forall l :: l in ambient <==> l in Lines(canon, ts) && !Kept(canon, sel, l)
    ensures Distinct(out)
    ensures forall l :: l in out <==> l in ambient && Shown(canon, sel, Lines(canon, ts), l)
  {
    LineOrders();
    LinesRelated(canon, ts);
    var ranked := Sort(ambient, RankLess);
    MembersOfPermutation(ambient, ranked);
    DistinctPermutation(ambient, ranked);
    SortedIsStrict(ranked, RankLess);
    out := ranked;
    if sel.maxAmbient >= 0 && |out| > sel.maxAmbient { out := out[..sel.maxAmbient]; }
    forall l | l in ranked ensures l in out <==> Shown(canon, sel, Lines(canon, ts), l) {
      RankedShown(canon, sel, Lines(canon, ts), ranked, |out|, l);
    }
  }

  lemma RankedShown(canon: Canon, sel: Selection, lines: seq<Line>, ranked: seq<Line>, n: nat, l: Line)
    requires Distinct(ranked) && StrictlySorted(ranked, RankLess) && l in ranked
    requires forall m :: m in ranked <==> m in lines && !Kept(canon, sel, m)
    requires n == if 0 <= sel.maxAmbient < |ranked| then sel.maxAmbient else |ranked|
    ensures l in ranked[..n] <==> Shown(canon, sel, lines, l)
  {
    LineOrders();
    var i :| 0 <= i < |ranked| && ranked[i] == l;
    RankIsPosition(ranked, i, AmbientBefore(canon, sel, lines, l), RankLess);
    TakenByPosition(ranked, n, i);
  }

  lemma DistinctConcat(a: seq<Line>, b: seq<Line>)
    requires Distinct(a) && Distinct(b)
    requires forall l :: l in a ==> l !in b
    ensures Distinct(a + b)
  {
    forall i, j | 0 <= i < j < |a + b| ensures (a + b)[i] != (a + b)[j] {
      if i < |a| <= j { assert a[i] in a && b[j - |a|] in b; }
    }
  }

  method Select(canon: Canon, b: Bundle, sel: Selection) returns (out: seq<Line>)
    ensures Selected(canon, b.templates, sel, out)
  {
    var lines := Collapse(canon, b.templates);
    LinesRelated(canon, b.templates);
    var kept, ambient := Split(canon, sel, lines);
    var shown := Cut(canon, b.templates, sel, ambient);
    LineOrders();
    out := Sort(kept + shown, LineLess);
    MembersOfPermutation(kept + shown, out);
    DistinctConcat(kept, shown);
    DistinctPermutation(kept + shown, out);
    SortedIsStrict(out, LineLess);
  }

  /** What paid for the call is shown: every key the gate found novel has a line in the prompt. */
  lemma NovelIsShown(canon: Canon, b: Bundle, known: map<string, int>, cutoff: int, similarity: real,
                     maxAmbient: int, out: seq<Line>, key: string)
    requires key in Gate.Novel(Gate.FactsOf(canon, b.templates), known, cutoff, similarity)
    requires var novel := Gate.Novel(Gate.FactsOf(canon, b.templates), known, cutoff, similarity);
             Selected(canon, b.templates, Selection(novel, maxAmbient), out)
    ensures exists l :: l in out && LineKey(canon, l) == key
  {
    var facts := Gate.FactsOf(canon, b.templates);
    var f :| f in facts && f.key == key;
    var t :| t in b.templates && Gate.FactOf(canon, t) == f;
    var k := GroupOf(canon, t);
    OrderIsDistinct(canon, b.templates);
    assert k in Order(canon, b.templates);
    LineKeeps(canon, b.templates, k);
    var i :| 0 <= i < |Order(canon, b.templates)| && Order(canon, b.templates)[i] == k;
    var line := Lines(canon, b.templates)[i];
    assert LineKey(canon, line) == key;
    assert line in Lines(canon, b.templates) && line in out;
  }

  // ----- which variant a line shows -----

  /** The variant whose text the line shows: the last that outweighed everything before it. */
  function Representative(g: seq<Template>): (r: nat)
    requires g != []
    ensures r < |g|
    decreases |g|, 1
  {
    if |g| == 1 then 0
    else
      var n := |g| - 1;
      if TakesOver(g, n) then n else Representative(g[..n])
  }

  predicate TakesOver(g: seq<Template>, j: nat)
    requires j < |g|
    decreases j, 2
  {
    || j == 0
    || g[j].count > SumCounts(g[..j])
    || (g[j].count == SumCounts(g[..j]) && StringLess(g[j].text, g[..j][Representative(g[..j])].text))
  }

  lemma {:induction false} LineShows(canon: Canon, ts: seq<Template>, k: Group)
    requires Folded(canon, ts, k).Some?
    ensures ShowsOf(Folded(canon, ts, k).value.template, InGroup(canon, ts, k))
  {
    var init, t := ts[..|ts| - 1], ts[|ts| - 1];
    if GroupOf(canon, t) != k {
      LineShows(canon, init, k);
    } else if Folded(canon, init, k).Some? {
      LineShows(canon, init, k);
      LineKeeps(canon, init, k);
      AbsorbShows(Folded(canon, init, k).value, InGroup(canon, init, k), t);
    } else {
      NoneIsEmpty(canon, init, k);
    }
  }

  ghost predicate ShowsOf(l: Template, g: seq<Template>) {
    && g != [] && l.text == g[Representative(g)].text
    && (l.category == SECURITY <==> exists j :: Representative(g) <= j < |g| && g[j].category == SECURITY)
  }

  lemma AbsorbShows(line: Line, g: seq<Template>, t: Template)
    requires ShowsOf(line.template, g) && line.template.count == SumCounts(g)
    ensures ShowsOf(Absorb(line, t).template, g + [t])
  {
    var h := g + [t];
    assert h[..|g|] == g && h[|g|] == t;
    assert TakesOver(h, |g|) == Takes(line, t);
    if l :| Representative(h) <= l < |g| && g[l].category == SECURITY { assert h[l] == g[l]; }
    assert t.category == SECURITY ==> h[|g|].category == SECURITY;
    if j :| Representative(g) <= j < |g| && g[j].category == SECURITY { assert h[j] == g[j]; }
  }

  lemma {:induction false} SumIsMonotone(g: seq<Template>, j: nat)
    requires forall i :: 0 <= i < |g| ==> g[i].count >= 0
    requires j < |g|
    ensures 0 <= SumCounts(g[..j]) && SumCounts(g[..j]) + g[j].count <= SumCounts(g)
  {
    var n := |g| - 1;
    if j < n {
      SumIsMonotone(g[..n], j);
      assert g[..n][..j] == g[..j];
    } else {
      SumIsNonNegative(g[..n]);
    }
  }

  lemma {:induction false} SumIsNonNegative(g: seq<Template>)
    requires forall i :: 0 <= i < |g| ==> g[i].count >= 0
    ensures SumCounts(g) >= 0
  {
    if g != [] { SumIsNonNegative(g[..|g| - 1]); }
  }

  /** A variant with most of its group's lines is the one shown, in whatever order they came. */
  lemma {:induction false} MajorityIsShown(g: seq<Template>, j: nat)
    requires forall i :: 0 <= i < |g| ==> g[i].count >= 0
    requires j < |g| && 2 * g[j].count > SumCounts(g)
    ensures Representative(g) == j
  {
    var n := |g| - 1;
    SumIsMonotone(g, j);
    SumIsMonotone(g, n);
    if j < n {
      SumIsMonotone(g[..n], j);
      assert g[..n][..j] == g[..j];
      MajorityIsShown(g[..n], j);
    }
  }

  predicate IsBusiest(g: seq<Template>, j: nat)
    requires j < |g|
  {
    forall i :: 0 <= i < |g| ==> g[i].count <= g[j].count
  }

  /** The line shows a busiest variant exactly when some busiest variant outweighed all before it. */
  lemma BusiestShownIff(g: seq<Template>)
    requires g != [] && forall i :: 0 <= i < |g| ==> g[i].count >= 0
    ensures IsBusiest(g, Representative(g)) <==> exists j :: 0 <= j < |g| && IsBusiest(g, j) && TakesOver(g, j)
  {
    RepresentativeTookOver(g);
    if j :| 0 <= j < |g| && IsBusiest(g, j) && TakesOver(g, j) {
      NotLessThan(g, j);
    }
  }

  lemma {:induction false} RepresentativeTookOver(g: seq<Template>)
    requires g != []
    ensures TakesOver(g, Representative(g))
  {
    var n, r := |g| - 1, Representative(g);
    if r < n {
      RepresentativeTookOver(g[..n]);
      assert g[..n][..r] == g[..r];
    }
  }

  lemma {:induction false} NotLessThan(g: seq<Template>, j: nat)
    requires forall i :: 0 <= i < |g| ==> g[i].count >= 0
    requires j < |g| && TakesOver(g, j)
    ensures g[Representative(g)].count >= g[j].count
  {
    var n := |g| - 1;
    if j < n {
      assert g[..n][..j] == g[..j];
      NotLessThan(g[..n], j);
      SumIsMonotone(g[..n], j);
    }
  }

  /** The documentation promises the highest-count variant; three spellings seen 2, 2 and 3 times
      show the first, because the third is compared with the four lines before it. */
  lemma BusiestNotAlwaysShown(a: Template, b: Template, c: Template)
    requires a.count == 2 && b.count == 2 && c.count == 3 && StringLess(a.text, b.text)
    ensures Representative([a, b, c]) == 0 && !IsBusiest([a, b, c], 0)
  {
    SumOfThree(a, b, c);
    var g := [a, b, c];
    assert g[..2] == [a, b] && [a, b][..1] == [a];
    StringLessAsymmetric(a.text, b.text);
    assert Representative([a]) == 0;
    assert !TakesOver([a, b], 1);
    assert Representative([a, b]) == 0;
    assert !TakesOver(g, 2);
    assert g[2].count > g[0].count;
  }

  lemma SumOfThree(a: Template, b: Template, c: Template)
    ensures SumCounts([a]) == a.count
    ensures SumCounts([a, b]) == a.count + b.count
    ensures SumCounts([a, b, c]) == a.count + b.count + c.count
  {
    assert [a][..0] == [];
    assert [a, b][..1] == [a];
    assert [a, b, c][..2] == [a, b];
  }

  /** All templates of a bundle in one group. */
  lemma {:induction false} OneGroup(canon: Canon, ts: seq<Template>, k: Group)
    requires ts != [] && forall t :: t in ts ==> GroupOf(canon, t) == k
    ensures Order(canon, ts) == [k] && InGroup(canon, ts, k) == ts
  {
    hide GroupOf;
    var init, t := ts[..|ts| - 1], ts[|ts| - 1];
    assert ts == init + [t] && t in ts;
    if init != [] { OneGroup(canon, init, k); }
  }

  /** What the one line of such a bundle shows. */
  lemma OneLine(canon: Canon, ts: seq<Template>, k: Group)
    requires ts != [] && Order(canon, ts) == [k] && InGroup(canon, ts, k) == ts
    ensures var l := LineOf(canon, ts, k).template;
            l.text == ts[Representative(ts)].text && l.count == SumCounts(ts)
  {
    OrderIsDistinct(canon, ts);
    assert k in Order(canon, ts);
    LineShows(canon, ts, k);
    LineKeeps(canon, ts, k);
    hide Folded, InGroup, Representative, Order, SumCounts;
  }

  /** That line is the whole prompt or is left out. */
  lemma OnlyLine(canon: Canon, ts: seq<Template>, sel: Selection, out: seq<Line>, k: Group)
    requires Order(canon, ts) == [k] && Selected(canon, ts, sel, out)
    ensures var l := LineOf(canon, ts, k);
            out == if Kept(canon, sel, l) || sel.maxAmbient != 0 then [l] else []
  {
    var l := LineOf(canon, ts, k);
    var lines := Lines(canon, ts);
    assert lines == [l];
    LineOrders();
    assert AmbientBefore(canon, sel, lines, l) == {};
    var expected := if Kept(canon, sel, l) || sel.maxAmbient != 0 then [l] else [];
    assert forall x :: x in out <==> x in expected;
    StrictlySortedUnique(out, expected, LineLess);
  }

  /** One spelling of a line that counts refused logins, the count a single digit. */
  function Refused(digit: char, count: int): Template { Template([digit] + " refused", count, "sshd", 4, "", 0, 0, []) }

  function Spellings(): seq<Template> { [Refused('1', 2), Refused('2', 2), Refused('3', 3)] }

  /** The canonicalizer masks single digits, so the three spellings have one canonical text. */
  ghost predicate FoldsSpellings(canon: Canon) {
    canon("sshd", "1 refused") == canon("sshd", "2 refused") == canon("sshd", "3 refused")
  }

  lemma SpellingTexts()
    ensures Refused('1', 2).text == "1 refused" && Refused('2', 2).text == "2 refused"
    ensures Refused('3', 3).text == "3 refused"
    ensures StringLess(Refused('1', 2).text, Refused('2', 2).text)
  {
    assert Refused('1', 2).text[0] == '1' && Refused('2', 2).text[0] == '2';
  }

  lemma SpellingsGroup(canon: Canon)
    requires FoldsSpellings(canon)
    ensures forall t :: t in Spellings() ==> GroupOf(canon, t) == Group("sshd", 4, canon("sshd", "1 refused"))
  {
    SpellingTexts();
    assert TrimDigits("sshd") == "sshd";
  }

  /** A window with three spellings of one line: the only line of the prompt shows the spelling seen twice, not the
      one seen three times. */
  lemma BusiestSpellingNotShown(canon: Canon, out: seq<Line>, maxAmbient: int)
    requires FoldsSpellings(canon) && maxAmbient != 0
    requires Selected(canon, Spellings(), Selection({}, maxAmbient), out)
    ensures |out| == 1 && out[0].template.text == "1 refused" && out[0].template.count == 7
  {
    SpellingTexts();
    SpellingsGroup(canon);
    hide StringLess, Representative, TakesOver, Selected, Order, InGroup, LineOf, IsBusiest, SumCounts, Kept, Shown;
    hide GroupOf, FoldsSpellings;
    var a, b, c := Refused('1', 2), Refused('2', 2), Refused('3', 3);
    var k := Group("sshd", 4, canon("sshd", "1 refused"));
    OneGroup(canon, Spellings(), k);
    OneLine(canon, Spellings(), k);
    BusiestNotAlwaysShown(a, b, c);
    SumOfThree(a, b, c);
    OnlyLine(canon, Spellings(), Selection({}, maxAmbient), out, k);
  }

  // ----- security lines -----

  /** A security variant that no later variant takes the line over from. */
  predicate SecurityHolds(g: seq<Template>) {
    exists j :: 0 <= j < |g| && g[j].category == SECURITY && NoneTakesOverAfter(g, j)
  }

  predicate NoneTakesOverAfter(g: seq<Template>, j: nat) { forall i :: j < i < |g| ==> !TakesOver(g, i) }

  lemma {:induction false} RepresentativeIsLast(g: seq<Template>, j: nat)
    requires j < |g|
    ensures Representative(g) <= j <==> NoneTakesOverAfter(g, j)
  {
    var n := |g| - 1;
    if j < n {
      if TakesOver(g, n) {
        assert !NoneTakesOverAfter(g, j);
      } else {
        RepresentativeIsLast(g[..n], j);
        forall i | j < i < n ensures TakesOver(g[..n], i) == TakesOver(g, i) { assert g[..n][..i] == g[..i]; }
        assert NoneTakesOverAfter(g, j) <==> NoneTakesOverAfter(g[..n], j);
      }
    }
  }

  /** The line of a group is a security line exactly when some security variant is not taken over later. */
  lemma SecurityKeptIff(canon: Canon, ts: seq<Template>, k: Group)
    requires Folded(canon, ts, k).Some?
    ensures Folded(canon, ts, k).value.template.category == SECURITY <==> SecurityHolds(InGroup(canon, ts, k))
  {
    LineShows(canon, ts, k);
    hide Folded, InGroup, TakesOver, Representative;
    var g := InGroup(canon, ts, k);
    forall j | 0 <= j < |g| ensures Representative(g) <= j <==> NoneTakesOverAfter(g, j) {
      RepresentativeIsLast(g, j);
    }
  }

  /** Which lines reach the model: the novel ones, those with such a security variant, and as many of the
      others as the ambient budget allows. */
  lemma LineReachesModelIff(canon: Canon, ts: seq<Template>, sel: Selection, out: seq<Line>, k: Group)
    requires Selected(canon, ts, sel, out) && k in Order(canon, ts)
    ensures LineOf(canon, ts, k) in out
       <==> || k.family + [NUL] + k.canon in sel.novel
            || SecurityHolds(InGroup(canon, ts, k))
            || sel.maxAmbient < 0
            || |AmbientBefore(canon, sel, Lines(canon, ts), LineOf(canon, ts, k))| < sel.maxAmbient
  {
    var lines, l := Lines(canon, ts), LineOf(canon, ts, k);
    OrderIsDistinct(canon, ts);
    LineKeeps(canon, ts, k);
    SecurityKeptIff(canon, ts, k);
    assert LineKey(canon, l) == k.family + [NUL] + k.canon;
    hide SecurityHolds, Folded, InGroup, AmbientBefore, Carries, LineKey;
    var i :| 0 <= i < |Order(canon, ts)| && Order(canon, ts)[i] == k;
    assert lines[i] == l;
  }

  /** Two instances of one module send the same line; the edge classified the quieter one's as security. */
  function TwoInstances(text: string, priority: int): seq<Template> {
    [Template(text, 1, "nethvoice1", priority, SECURITY, 0, 0, []),
     Template(text, 2, "nethvoice2", priority, "", 0, 0, [])]
  }

  lemma InstancesGroup(canon: Canon, text: string, priority: int)
    ensures forall t :: t in TwoInstances(text, priority)
                        ==> GroupOf(canon, t) == Group("nethvoice", priority, canon("nethvoice", text))
  {
    assert TrimDigits("nethvoice") == "nethvoice";
    assert "nethvoice1"[..9] == "nethvoice" && "nethvoice2"[..9] == "nethvoice";
  }

  /** Whatever the line and the canonicalizer, unless its key is novel: with no ambient budget the prompt shows
      nothing of that window. */
  lemma SecurityLineOmitted(canon: Canon, text: string, priority: int, novel: set<string>, out: seq<Line>)
    requires "nethvoice" + [NUL] + canon("nethvoice", text) !in novel
    requires Selected(canon, TwoInstances(text, priority), Selection(novel, 0), out)
    ensures out == []
  {
    InstancesGroup(canon, text, priority);
    hide GroupOf, Selected;
    var ts, k := TwoInstances(text, priority), Group("nethvoice", priority, canon("nethvoice", text));
    OneGroup(canon, ts, k);
    OrderIsDistinct(canon, ts);
    assert k in Order(canon, ts);
    SecurityTakenOver(text, priority);
    SecurityKeptIff(canon, ts, k);
    LineKeeps(canon, ts, k);
    assert LineKey(canon, LineOf(canon, ts, k)) == "nethvoice" + [NUL] + canon("nethvoice", text);
    OnlyLine(canon, ts, Selection(novel, 0), out, k);
  }

  lemma SecurityTakenOver(text: string, priority: int)
    ensures !SecurityHolds(TwoInstances(text, priority))
  {
    var ts := TwoInstances(text, priority);
    assert ts[..1] == [ts[0]] && [ts[0]][..0] == [];
    assert SumCounts([ts[0]]) == 1;
    assert TakesOver(ts, 1) && ts[1].category != SECURITY;
  }

  // ----- cited identifiers -----

  function Digit(d: nat): char
    requires d < 10
  {
    ['0', '1', '2', '3', '4', '5', '6', '7', '8', '9'][d]
  }

  function Decimal(n: nat): string {
    if n < 10 then [Digit(n)] else Decimal(n / 10) + [Digit(n % 10)]
  }

  function TemplateId(i: nat): string { "T" + Decimal(i + 1) }

  lemma {:induction false} DecimalInjective(m: nat, n: nat)
    requires Decimal(m) == Decimal(n)
    ensures m == n
  {
    var a, b := Decimal(m), Decimal(n);
    assert a[|a| - 1] == Digit(m % 10) && b[|b| - 1] == Digit(n % 10);
    DecimalNonEmpty(m / 10);
    DecimalNonEmpty(n / 10);
    if m >= 10 && n >= 10 {
      assert a[..|a| - 1] == Decimal(m / 10) && b[..|b| - 1] == Decimal(n / 10);
      DecimalInjective(m / 10, n / 10);
    }
  }

  lemma DecimalNonEmpty(n: nat)
    ensures |Decimal(n)| >= 1 && (n >= 10 ==> |Decimal(n)| == |Decimal(n / 10)| + 1 >= 2)
    ensures n < 10 ==> |Decimal(n)| == 1
  {
    if n >= 10 { DecimalNonEmpty(n / 10); }
  }

  lemma TemplateIdInjective(i: nat, j: nat)
    requires TemplateId(i) == TemplateId(j)
    ensures i == j
  {
    assert TemplateId(i)[1..] == Decimal(i + 1) && TemplateId(j)[1..] == Decimal(j + 1);
    DecimalInjective(i + 1, j + 1);
  }

  function Upper(c: char): char { if 'a' <= c <= 'z' then c - 'a' + 'A' else c }

  function ToUpper(s: string): string { seq(|s|, i requires 0 <= i < |s| => Upper(s[i])) }

  function Clean(raw: string): string { ToUpper(TrimSpace(raw)) }

  lemma {:induction false} DecimalIsClean(n: nat)
    ensures forall i :: 0 <= i < |Decimal(n)| ==> IsDigit(Decimal(n)[i])
  {
    if n >= 10 { DecimalIsClean(n / 10); }
  }

  lemma TemplateIdIsClean(i: nat)
    ensures Clean(TemplateId(i)) == TemplateId(i)
  {
    DecimalIsClean(i + 1);
    DecimalNonEmpty(i + 1);
    var id := TemplateId(i);
    assert TrimLeft(id) == id && IsDigit(id[|id| - 1]);
    assert TrimSpace(id) == id;
  }

  datatype Resolution = Resolved(templates: seq<Template>) | UnknownId(raw: string) | NothingCited

  /** The line an identifier names, if it names one of the n shown. */
  ghost predicate Names(id: string, n: nat, i: nat) { i < n && TemplateId(i) == id }

  /** The positions cited by ids, each once, in order of first citation; None past an unknown id. */
  ghost function Positions(n: nat, ids: seq<string>): Option<seq<nat>> {
    if ids == [] then Some([])
    else
      match Positions(n, ids[..|ids| - 1])
      case None => None
      case Some(ps) =>
        var id := Clean(ids[|ids| - 1]);
        if i: nat :| Names(id, n, i) then Some(if i in ps then ps else ps + [i]) else None
  }

  ghost function TemplatesAt(lines: seq<Line>, ps: seq<nat>): seq<Template>
    requires forall p :: p in ps ==> p < |lines|
  {
    seq(|ps|, i requires 0 <= i < |ps| => assert ps[i] in ps; lines[ps[i]].template)
  }

  lemma {:induction false} PositionsAreShown(n: nat, ids: seq<string>)
    requires Positions(n, ids).Some?
    ensures forall p :: p in Positions(n, ids).value ==> p < n
    ensures Distinct(Positions(n, ids).value)
  {
    if ids != [] { PositionsAreShown(n, ids[..|ids| - 1]); }
  }

  lemma {:induction false} UnknownStays(n: nat, ids: seq<string>, k: nat)
    requires k <= |ids| && Positions(n, ids[..k]).None?
    ensures Positions(n, ids).None?
  {
    if k < |ids| {
      assert ids[..|ids| - 1][..k] == ids[..k];
      UnknownStays(n, ids[..|ids| - 1], k);
    } else {
      assert ids[..k] == ids;
    }
  }

  ghost predicate IsIndex(index: map<string, Template>, lines: seq<Line>) {
    && (forall id :: id in index ==> exists i: nat {:trigger Names(id, |lines|, i)} :: Names(id, |lines|, i))
    && (forall id, i: nat :: Names(id, |lines|, i) ==> id in index && index[id] == lines[i].template)
  }

  method BuildIndex(lines: seq<Line>) returns (index: map<string, Template>)
    ensures IsIndex(index, lines)
  {
    index := map[];
    for k := 0 to |lines|
      invariant IsIndex(index, lines[..k])
    {
      ghost var before := index;
      index := index[TemplateId(k) := lines[k].template];
      IndexStep(before, lines, k);
    }
    assert lines[..|lines|] == lines;
  }

  lemma IndexStep(index: map<string, Template>, lines: seq<Line>, k: nat)
    requires k < |lines| && IsIndex(index, lines[..k])
    ensures IsIndex(index[TemplateId(k) := lines[k].template], lines[..k + 1])
  {
    var after, n := index[TemplateId(k) := lines[k].template], |lines[..k + 1]|;
    forall id, i: nat | Names(id, n, i) ensures id in after && after[id] == lines[..k + 1][i].template {
      if i < k {
        assert Names(id, |lines[..k]|, i);
        if id == TemplateId(k) { TemplateIdInjective(i, k); }
      }
    }
    forall id | id in after ensures exists i: nat {:trigger Names(id, n, i)} :: Names(id, n, i) {
      if id in index {
        var i: nat :| Names(id, |lines[..k]|, i);
        assert Names(id, n, i);
      } else {
        assert Names(id, n, k);
      }
    }
  }

  lemma OnlyName(id: string, n: nat, i: nat)
    requires Names(id, n, i)
    ensures forall j: nat :: Names(id, n, j) ==> j == i
  {
    forall j: nat | Names(id, n, j) ensures j == i { TemplateIdInjective(i, j); }
  }

  ghost predicate Known(n: nat, raw: string) { exists i: nat :: Names(Clean(raw), n, i) }

  ghost predicate FirstUnknown(n: nat, ids: seq<string>, k: int) {
    0 <= k < |ids| && !Known(n, ids[k]) && forall j :: 0 <= j < k ==> Known(n, ids[j])
  }

  /** The specification of ResolveEvidence over the lines shown. */
  ghost predicate Resolves(lines: seq<Line>, ids: seq<string>, r: Resolution) {
    match Positions(|lines|, ids)
    case None => exists k :: FirstUnknown(|lines|, ids, k) && r == UnknownId(ids[k])
    case Some(ps) =>
      PositionsAreShown(|lines|, ids);
      r == if ps == [] then NothingCited else Resolved(TemplatesAt(lines, ps))
  }

  /** The loop's state: positions cited so far, their templates, and the identifiers seen. */
  ghost predicate Citing(lines: seq<Line>, ps: seq<nat>, out: seq<Template>, seen: set<string>) {
    && (forall p :: p in ps ==> p < |lines|)
    && out == TemplatesAt(lines, ps)
    && (forall i: nat :: i in ps ==> TemplateId(i) in seen)
    && (forall id :: id in seen ==> exists i: nat {:trigger i in ps} :: i in ps && TemplateId(i) == id)
  }

  lemma CitedAgain(lines: seq<Line>, id: string, i: nat, ps: seq<nat>, out: seq<Template>, seen: set<string>)
    requires Names(id, |lines|, i) && Citing(lines, ps, out, seen)
    ensures id in seen <==> i in ps
  {
    if id in seen {
      var j: nat :| j in ps && TemplateId(j) == id;
      TemplateIdInjective(i, j);
    }
  }

  lemma CitedNew(lines: seq<Line>, id: string, i: nat, ps: seq<nat>, out: seq<Template>, seen: set<string>)
    requires Names(id, |lines|, i) && Citing(lines, ps, out, seen)
    ensures Citing(lines, ps + [i], out + [lines[i].template], seen + {id})
  {
    var qs := ps + [i];
    assert i in qs;
    forall x | x in seen + {id} ensures exists j: nat {:trigger j in qs} :: j in qs && TemplateId(j) == x {
      if x in seen {
        var j: nat :| j in ps && TemplateId(j) == x;
        assert j in qs;
      }
    }
  }

  lemma PositionsStep(n: nat, ids: seq<string>, ps: seq<nat>, i: nat)
    requires ids != [] && Names(Clean(ids[|ids| - 1]), n, i) && Positions(n, ids[..|ids| - 1]) == Some(ps)
    ensures Positions(n, ids) == Some(if i in ps then ps else ps + [i])
  {
    OnlyName(Clean(ids[|ids| - 1]), n, i);
  }

  lemma NamedBy(index: map<string, Template>, lines: seq<Line>, id: string) returns (i: nat)
    requires IsIndex(index, lines) && id in index
    ensures Names(id, |lines|, i) && index[id] == lines[i].template
  {
    i :| Names(id, |lines|, i);
  }

  /** The first k identifiers are resolved. */
  ghost predicate CitedUpTo(lines: seq<Line>, ids: seq<string>, k: nat, ps: seq<nat>, out: seq<Template>,
                            seen: set<string>) {
    k <= |ids| && Positions(|lines|, ids[..k]) == Some(ps) && Citing(lines, ps, out, seen)
  }

  lemma CiteStep(lines: seq<Line>, ids: seq<string>, k: nat, i: nat, ps: seq<nat>, out: seq<Template>,
                 seen: set<string>)
    requires k < |ids| && CitedUpTo(lines, ids, k, ps, out, seen) && Names(Clean(ids[k]), |lines|, i)
    ensures if Clean(ids[k]) in seen then CitedUpTo(lines, ids, k + 1, ps, out, seen)
            else CitedUpTo(lines, ids, k + 1, ps + [i], out + [lines[i].template], seen + {Clean(ids[k])})
  {
    var upTo, id := ids[..k + 1], Clean(ids[k]);
    assert upTo[..k] == ids[..k];
    PositionsStep(|lines|, upTo, ps, i);
    CitedAgain(lines, id, i, ps, out, seen);
    CitedNew(lines, id, i, ps, out, seen);
    hide Citing, Positions, Names, TemplatesAt;
  }

  lemma UnknownResolves(lines: seq<Line>, ids: seq<string>, k: nat, index: map<string, Template>)
    requires k < |ids| && IsIndex(index, lines) && Clean(ids[k]) !in index && Positions(|lines|, ids[..k]).Some?
    ensures Resolves(lines, ids, UnknownId(ids[k]))
  {
    assert !Known(|lines|, ids[k]);
    UnknownStops(|lines|, ids, k);
    hide Positions, Known, Clean, IsIndex, FirstUnknown, TemplatesAt;
  }

  lemma UnknownStops(n: nat, ids: seq<string>, k: nat)
    requires k < |ids| && !Known(n, ids[k]) && Positions(n, ids[..k]).Some?
    ensures Positions(n, ids).None? && FirstUnknown(n, ids, k)
  {
    AllKnown(n, ids[..k]);
    UnknownHere(n, ids[..k + 1]);
    UnknownStays(n, ids, k + 1);
    hide Positions, Known;
  }

  lemma UnknownHere(n: nat, ids: seq<string>)
    requires ids != [] && !Known(n, ids[|ids| - 1])
    ensures Positions(n, ids).None?
  {
    hide Clean, Names;
  }

  lemma {:induction false} AllKnown(n: nat, ids: seq<string>)
    requires Positions(n, ids).Some?
    ensures forall j :: 0 <= j < |ids| ==> Known(n, ids[j])
  {
    hide Clean;
    if ids != [] { AllKnown(n, ids[..|ids| - 1]); }
  }

  lemma AllResolve(lines: seq<Line>, ids: seq<string>, ps: seq<nat>, out: seq<Template>, seen: set<string>)
    requires CitedUpTo(lines, ids, |ids|, ps, out, seen)
    ensures Resolves(lines, ids, if |out| == 0 then NothingCited else Resolved(out))
  {
    assert ids[..|ids|] == ids;
    hide Positions;
  }

  /** ResolveEvidence's loop: the templates of the cited lines, or the first unknown identifier. */
  method ResolveIn(lines: seq<Line>, ids: seq<string>) returns (r: Resolution)
    ensures Resolves(lines, ids, r)
  {
    hide Citing, Resolves, Clean, TemplatesAt;
    var index := BuildIndex(lines);
    var out: seq<Template> := [];
    var seen: set<string> := {};
    ghost var ps: seq<nat> := [];
    NothingCitedYet(lines, ids);
    hide CitedUpTo;
    for k := 0 to |ids|
      invariant CitedUpTo(lines, ids, k, ps, out, seen)
    {
      var id := Clean(ids[k]);
      if id !in index {
        assert Positions(|lines|, ids[..k]).Some? by { CitedPositions(lines, ids, k, ps, out, seen); }
        UnknownResolves(lines, ids, k, index);
        return UnknownId(ids[k]);
      }
      ghost var i := NamedBy(index, lines, id);
      CiteStep(lines, ids, k, i, ps, out, seen);
      if id in seen { continue; }
      seen := seen + {id};
      out := out + [index[id]];
      ps := ps + [i];
    }
    AllResolve(lines, ids, ps, out, seen);
    if |out| == 0 { return NothingCited; }
    return Resolved(out);
  }

  lemma CitedPositions(lines: seq<Line>, ids: seq<string>, k: nat, ps: seq<nat>, out: seq<Template>, seen: set<string>)
    requires CitedUpTo(lines, ids, k, ps, out, seen)
    ensures Positions(|lines|, ids[..k]).Some?
  {
  }

  lemma NothingCitedYet(lines: seq<Line>, ids: seq<string>)
    ensures CitedUpTo(lines, ids, 0, [], [], {})
  {
    assert ids[..0] == [];
  }

  /** Rendering and resolving select separately; the identifiers are those of the list that was rendered. */
  method ResolveEvidence(canon: Canon, b: Bundle, sel: Selection, ids: seq<string>) returns (r: Resolution)
    ensures forall lines :: Selected(canon, b.templates, sel, lines) ==> Resolves(lines, ids, r)
  {
    var shown := Select(canon, b, sel);
    r := ResolveIn(shown, ids);
    forall lines | Selected(canon, b.templates, sel, lines) ensures lines == shown {
      SelectedUnique(canon, b.templates, sel, lines, shown);
    }
  }

  function Ids(ps: seq<nat>): seq<string> { seq(|ps|, i requires 0 <= i < |ps| => TemplateId(ps[i])) }

  /** Citing the identifiers of any distinct shown lines resolves to exactly those lines, in order. */
  lemma {:induction false} CitedLinesResolve(n: nat, ps: seq<nat>)
    requires Distinct(ps) && forall i :: 0 <= i < |ps| ==> ps[i] < n
    ensures Positions(n, Ids(ps)) == Some(ps)
  {
    if ps != [] {
      var init, last := ps[..|ps| - 1], ps[|ps| - 1];
      assert ps == init + [last] && last !in init;
      assert Ids(ps)[..|ps| - 1] == Ids(init) && Ids(ps)[|ps| - 1] == TemplateId(last);
      CitedLinesResolve(n, init);
      TemplateIdIsClean(last);
      PositionsStep(n, Ids(ps), init, last);
    }
  }
}
