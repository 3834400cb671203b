/** What the prompt shows of a bundle, said of the lines' own fields: which are always kept, which of the others
    are, in what order they stand, and how the model may cite them. */
module PromptLaws {
  import opened Model
  import opened Sorting
  import P = Prompt

  // ----- which templates make one line -----

  /** The position where byte order decides: the first at which the strings differ, or the end of the shorter. */
  predicate DecidedAt(a: string, b: string, k: nat) {
    k <= |a| && k < |b| && a[..k] == b[..k] && (k < |a| ==> a[k] < b[k])
  }

  lemma {:induction false} StringLessMeans(a: string, b: string)
    ensures StringLess(a, b) <==> exists k: nat :: DecidedAt(a, b, k)
  {
    if b == [] || a == [] {
      assert b != [] ==> DecidedAt(a, b, 0);
    } else if a[0] != b[0] {
      if a[0] < b[0] { assert DecidedAt(a, b, 0); }
      forall k: nat | DecidedAt(a, b, k) ensures k == 0 {
        if k > 0 { DecidedLater(a, b, k); }
      }
    } else {
      StringLessMeans(a[1..], b[1..]);
      assert a == [a[0]] + a[1..] && b == [b[0]] + b[1..];
      if k: nat :| DecidedAt(a[1..], b[1..], k) {
        assert a[..k + 1] == [a[0]] + a[1..][..k] && b[..k + 1] == [b[0]] + b[1..][..k];
        assert DecidedAt(a, b, k + 1);
      }
      if k: nat :| DecidedAt(a, b, k) {
        assert k > 0;
        assert a[1..][..k - 1] == a[..k][1..] && b[1..][..k - 1] == b[..k][1..];
        assert DecidedAt(a[1..], b[1..], k - 1);
      }
    }
  }

  lemma DecidedLater(a: string, b: string, k: nat)
    requires DecidedAt(a, b, k) && k > 0
    ensures a[0] == b[0]
  {
    assert a[..k][0] == a[0] && b[..k][0] == b[0];
  }

  /** By module, then priority, then text, the strings in byte order. */
  predicate Before(a: Template, b: Template) {
    || StringLess(a.moduleId, b.moduleId)
    || (a.moduleId == b.moduleId && a.priority < b.priority)
    || (a.moduleId == b.moduleId && a.priority == b.priority && StringLess(a.text, b.text))
  }

  lemma LessIsBefore(a: Template, b: Template)
    ensures LessTemplate(a, b) <==> Before(a, b)
  {
    StringLessTotal();
  }

  /** Two templates make one line exactly when their family, priority and canonical text agree. */
  lemma OneLineIff(canon: Canon, a: Template, b: Template)
    ensures P.GroupOf(canon, a) == P.GroupOf(canon, b)
       <==> && ModuleFamily(a.moduleId) == ModuleFamily(b.moduleId) && a.priority == b.priority
            && canon(ModuleFamily(a.moduleId), a.text) == canon(ModuleFamily(b.moduleId), b.text)
  {
  }

  /** One more variant is the one shown if it counts more than all before it together, or as much with a text that
      comes first in byte order. */
  lemma OneMoreVariant(g: seq<Template>, t: Template)
    requires g != []
    ensures var before := g[P.Representative(g)].text;
            var takes := t.count > P.SumCounts(g) || (t.count == P.SumCounts(g) && StringLess(t.text, before));
            P.Representative(g + [t]) == if takes then |g| else P.Representative(g)
  {
    assert (g + [t])[..|g|] == g;
  }

  // ----- what is shown -----

  /** Neither novel nor of the security category. */
  predicate Ambient(canon: Canon, sel: P.Selection, l: P.Line) {
    var t := l.template;
    CanonicalKey(canon, t.moduleId, t.text) !in sel.novel && t.category != "security"
  }

  /** A line with more messages; among lines with as many, the earlier in template order. */
  predicate Busier(a: P.Line, b: P.Line) {
    a.template.count > b.template.count || (a.template.count == b.template.count && Before(a.template, b.template))
  }

  /** Only lines of the bundle are shown, in template order, and the novel and the security ones all are. */
  lemma ShownMeans(canon: Canon, ts: seq<Template>, sel: P.Selection, out: seq<P.Line>)
    requires P.Selected(canon, ts, sel, out)
    ensures forall i, j :: 0 <= i < j < |out| ==> Before(out[i].template, out[j].template)
    ensures forall l :: l in out ==> l in P.Lines(canon, ts)
    ensures forall l :: l in P.Lines(canon, ts) && !Ambient(canon, sel, l) ==> l in out
    ensures sel.maxAmbient < 0 ==> forall l :: l in P.Lines(canon, ts) ==> l in out
  {
    forall a: Template, b: Template ensures LessTemplate(a, b) <==> Before(a, b) { LessIsBefore(a, b); }
    hide LessTemplate, Before;
  }

  /** No ambient line left out is busier than one shown. */
  lemma BusiestAreShown(canon: Canon, ts: seq<Template>, sel: P.Selection, out: seq<P.Line>, a: P.Line, b: P.Line)
    requires P.Selected(canon, ts, sel, out)
    requires a in out && Ambient(canon, sel, a)
    requires b in P.Lines(canon, ts) && b !in out
    ensures Ambient(canon, sel, b) && Busier(a, b) && a.template.count >= b.template.count
  {
    var lines := P.Lines(canon, ts);
    P.LinesRelated(canon, ts);
    LessIsBefore(a.template, b.template);
    hide LessTemplate, Before;
    if P.RankLess(b, a) {
      var first, second := P.AmbientBefore(canon, sel, lines, b), P.AmbientBefore(canon, sel, lines, a);
      forall m | m in first ensures m in second { RankTransitive(m, b, a); }
      SubsetSize(first, second);
    }
  }

  lemma RankTransitive(x: P.Line, y: P.Line, z: P.Line)
    requires P.RankLess(x, y) && P.RankLess(y, z)
    ensures P.RankLess(x, z)
  {
    StringLessTotal();
    LessIsBefore(x.template, y.template);
    LessIsBefore(y.template, z.template);
    LessIsBefore(x.template, z.template);
    hide LessTemplate;
  }

  function AmbientLines(canon: Canon, sel: P.Selection, lines: seq<P.Line>): set<P.Line> {
    set l | l in lines && Ambient(canon, sel, l)
  }

  /** As many ambient lines as there is room for, or all of them. */
  lemma RoomIsUsed(canon: Canon, ts: seq<Template>, sel: P.Selection, out: seq<P.Line>)
    requires P.Selected(canon, ts, sel, out) && sel.maxAmbient >= 0
    ensures var all := |AmbientLines(canon, sel, P.Lines(canon, ts))|;
            |AmbientLines(canon, sel, out)| == if all < sel.maxAmbient then all else sel.maxAmbient
  {
    var lines := P.Lines(canon, ts);
    var all := AmbientLines(canon, sel, lines);
    P.LinesRelated(canon, ts);
    forall l | l in all ensures Preceding(all, l) == P.AmbientBefore(canon, sel, lines, l) {}
    FirstsOf(all, sel.maxAmbient);
    assert AmbientLines(canon, sel, out) == set l | l in all && |Preceding(all, l)| < sel.maxAmbient;
  }

  function Preceding(all: set<P.Line>, l: P.Line): set<P.Line> { set m | m in all && P.RankLess(m, l) }

  predicate Related(all: set<P.Line>) {
    forall a, b :: a in all && b in all && a != b ==> P.RankLess(a, b) || P.RankLess(b, a)
  }

  /** In a set without ties, exactly n elements have fewer than n before them, if there are n. */
  lemma {:induction false} FirstsOf(all: set<P.Line>, n: nat)
    requires Related(all)
    ensures |set l | l in all && |Preceding(all, l)| < n| == if |all| < n then |all| else n
  {
    var firsts := set l | l in all && |Preceding(all, l)| < n;
    if all == {} {
      assert firsts == {};
    } else {
      var last := LastOf(all);
      var rest := all - {last};
      P.LineOrders();
      FirstsOf(rest, n);
      assert Preceding(all, last) == rest;
      forall l | l in rest ensures Preceding(all, l) == Preceding(rest, l) {}
      WithLast(all, last, n);
    }
  }

  lemma WithLast(all: set<P.Line>, last: P.Line, n: nat)
    requires last in all && Preceding(all, last) == all - {last}
    requires forall l :: l in all - {last} ==> Preceding(all, l) == Preceding(all - {last}, l)
    requires var rest := all - {last};
             |set l | l in rest && |Preceding(rest, l)| < n| == if |rest| < n then |rest| else n
    ensures |set l | l in all && |Preceding(all, l)| < n| == if |all| < n then |all| else n
  {
    hide Preceding;
    var rest := all - {last};
    var before, after := (set l | l in rest && |Preceding(rest, l)| < n), (set l | l in all && |Preceding(all, l)| < n);
    assert after == before + (if |rest| < n then {last} else {});
    assert |rest| == |all| - 1;
  }

  lemma {:induction false} LastOf(all: set<P.Line>) returns (last: P.Line)
    requires all != {} && Related(all)
    ensures last in all && forall l :: l in all && l != last ==> P.RankLess(l, last)
    decreases |all|
  {
    var x :| x in all;
    last := x;
    var rest := all - {x};
    if rest != {} {
      var y := LastOf(rest);
      if P.RankLess(y, x) {
        forall l | l in rest ensures P.RankLess(l, x) {
          if l != y { RankTransitive(l, y, x); }
        }
      } else {
        last := y;
      }
    }
  }

  // ----- how lines are cited -----

  predicate Blank(s: string) { forall i :: 0 <= i < |s| ==> s[i] in {' ', '\t', '\n', '\r', '\U{0B}', '\U{0C}'} }

  predicate Ends(s: string) { s != [] && !Blank([s[0]]) && !Blank([s[|s| - 1]]) }

  /** Trimming takes off the blanks on both sides and nothing else. */
  lemma TrimMeans(pre: string, s: string, post: string)
    requires Blank(pre) && Blank(post) && Ends(s)
    ensures TrimSpace(pre + s + post) == s
  {
    assert pre + s + post == pre + (s + post);
    TrimLeftMeans(pre, s + post);
    TrimRightMeans(s, post);
  }

  lemma {:induction false} TrimLeftMeans(pre: string, s: string)
    requires Blank(pre) && s != [] && !IsBlank(s[0])
    ensures TrimLeft(pre + s) == s
  {
    if pre == [] {
      assert pre + s == s;
    } else {
      TrimLeftMeans(pre[1..], s);
      assert (pre + s)[1..] == pre[1..] + s;
    }
  }

  lemma {:induction false} TrimRightMeans(s: string, post: string)
    requires Blank(post) && s != [] && !IsBlank(s[|s| - 1])
    ensures TrimRight(s + post) == s
  {
    if post == [] {
      assert s + post == s;
    } else {
      TrimRightMeans(s, post[..|post| - 1]);
      assert (s + post)[..|s + post| - 1] == s + post[..|post| - 1];
    }
  }

  /** The i-th line answers to t or T and its number, counted from one, between any blanks. */
  lemma NamedInAnyCase(pre: string, c: char, i: nat, post: string)
    requires Blank(pre) && Blank(post) && c in {'t', 'T'}
    ensures P.Clean(pre + ([c] + P.Decimal(i + 1)) + post) == P.TemplateId(i)
  {
    P.DecimalIsClean(i + 1);
    P.DecimalNonEmpty(i + 1);
    var digits := P.Decimal(i + 1);
    var id := [c] + digits;
    assert id[|id| - 1] == digits[|digits| - 1];
    TrimMeans(pre, id, post);
    assert P.ToUpper(id) == P.TemplateId(i);
  }

  /** A decimal's value is the number. */
  function Value(s: string): int
    requires forall i :: 0 <= i < |s| ==> IsDigit(s[i])
  {
    if s == [] then 0 else 10 * Value(s[..|s| - 1]) + (s[|s| - 1] as int - '0' as int)
  }

  lemma {:induction false} DecimalMeans(n: nat)
    ensures (forall i :: 0 <= i < |P.Decimal(n)| ==> IsDigit(P.Decimal(n)[i])) && Value(P.Decimal(n)) == n
    ensures P.Decimal(n) != [] && (P.Decimal(n)[0] == '0' <==> n == 0)
  {
    P.DecimalIsClean(n);
    P.DecimalNonEmpty(n);
    if n >= 10 {
      DecimalMeans(n / 10);
      assert P.Decimal(n)[..|P.Decimal(n)| - 1] == P.Decimal(n / 10);
    }
  }
}
