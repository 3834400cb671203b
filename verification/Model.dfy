/** The wire types of the log pipeline and the canonical key they share.
    A Go string is a sequence of bytes; each byte is one char here. */
module Model {
  import opened Sorting

  datatype Option<+T> = None | Some(value: T)

  datatype Template = Template(text: string, count: int, moduleId: string, priority: int,
                               category: string, firstSeen: int, lastSeen: int, nodes: seq<int>)

  datatype Bundle = Bundle(systemId: string, start: int, end: int, templates: seq<Template>)

  /** The regular-expression rewriting of a template, given the module family it came from. */
  type Canon = (string, string) -> string

  const SECURITY := "security"
  const NUL: char := '\0'

  predicate IsDigit(c: char) { '0' <= c <= '9' }

  function TrimDigits(s: string): string {
    if s != [] && IsDigit(s[|s| - 1]) then TrimDigits(s[..|s| - 1]) else s
  }

  /** nethvoice5 and nethvoice39 are both nethvoice; an id of digits only is its own family. */
  function ModuleFamily(moduleId: string): string {
    var family := TrimDigits(moduleId);
    if family == [] then moduleId else family
  }

  predicate EndsInDigit(s: string) { s != [] && IsDigit(s[|s| - 1]) }

  lemma {:induction false} TrimDigitsResult(s: string)
    ensures !EndsInDigit(TrimDigits(s))
    ensures TrimDigits(s) == [] <==> forall i :: 0 <= i < |s| ==> IsDigit(s[i])
    ensures TrimDigits(s) <= s
  {
    if EndsInDigit(s) {
      TrimDigitsResult(s[..|s| - 1]);
    } else if s != [] {
      assert !IsDigit(s[|s| - 1]);
    }
  }

  /** The instance number goes: what is left is the module id up to the digits at its end. */
  lemma {:induction false} FamilyMeans(name: string, digits: string)
    requires name != [] && !('0' <= name[|name| - 1] <= '9')
    requires forall i :: 0 <= i < |digits| ==> '0' <= digits[i] <= '9'
    ensures ModuleFamily(name + digits) == name
    ensures ModuleFamily(digits) == digits
  {
    TrimDigitsResult(digits);
    if digits == [] {
      assert name + digits == name;
    } else {
      var init := digits[..|digits| - 1];
      FamilyMeans(name, init);
      assert (name + digits)[..|name + digits| - 1] == name + init;
    }
  }

  /** The promise behind re-deriving a key from a column that already holds a family. */
  lemma FamilyIdempotent(m: string)
    ensures ModuleFamily(ModuleFamily(m)) == ModuleFamily(m)
  {
    TrimDigitsResult(m);
  }

  /** A family ends in a digit exactly when the module id is a nonempty run of digits. */
  lemma FamilyEndsInDigit(m: string)
    ensures EndsInDigit(ModuleFamily(m)) <==> m != [] && forall i :: 0 <= i < |m| ==> IsDigit(m[i])
  {
    TrimDigitsResult(m);
  }

  function CanonicalKey(canon: Canon, moduleId: string, text: string): string {
    ModuleFamily(moduleId) + [NUL] + canon(ModuleFamily(moduleId), text)
  }

  function KeyOf(canon: Canon, t: Template): string {
    CanonicalKey(canon, t.moduleId, t.text)
  }

  /** strings.Cut: the text before and after the first separator. */
  function Cut(s: string, sep: char): (r: Option<(string, string)>)
    ensures r.None? <==> sep !in s
    ensures r.Some? ==> s == r.value.0 + [sep] + r.value.1 && sep !in r.value.0
  {
    if s == [] then None
    else if s[0] == sep then Some(([], s[1..]))
    else match Cut(s[1..], sep)
         case None => None
         case Some(p) => Some(([s[0]] + p.0, p.1))
  }

  lemma {:induction false} CutOfJoin(a: string, b: string, sep: char)
    requires sep !in a
    ensures Cut(a + [sep] + b, sep) == Some((a, b))
  {
    if a == [] {
      assert (a + [sep] + b)[1..] == b;
    } else {
      CutOfJoin(a[1..], b, sep);
      var s := a + [sep] + b;
      assert s[0] == a[0] && s[1..] == a[1..] + [sep] + b && a == [a[0]] + a[1..];
    }
  }

  predicate IsBlank(c: char) {
    c == ' ' || c == '\t' || c == '\n' || c == '\r' || c == '\U{0B}' || c == '\U{0C}'
  }

  function TrimLeft(s: string): string { if s != [] && IsBlank(s[0]) then TrimLeft(s[1..]) else s }

  function TrimRight(s: string): string {
    if s != [] && IsBlank(s[|s| - 1]) then TrimRight(s[..|s| - 1]) else s
  }

  function TrimSpace(s: string): string { TrimRight(TrimLeft(s)) }

  /** The single definition of template order: module, priority, text. */
  predicate LessTemplate(a: Template, b: Template) {
    if a.moduleId != b.moduleId then StringLess(a.moduleId, b.moduleId)
    else if a.priority != b.priority then a.priority < b.priority
    else StringLess(a.text, b.text)
  }

  lemma LessTemplateWeak()
    ensures WeakOrder(LessTemplate)
  {
    StringLessTotal();
    TotalIsWeak(StringLess);
    forall x, y, z | !LessTemplate(y, x) && !LessTemplate(z, y) ensures !LessTemplate(z, x) {
      NotLessTransitive(x, y, z);
    }
  }

  lemma NotLessTransitive(x: Template, y: Template, z: Template)
    requires TotalOrder(StringLess) && WeakOrder(StringLess)
    requires !LessTemplate(y, x) && !LessTemplate(z, y)
    ensures !LessTemplate(z, x)
  {
    assert !StringLess(y.moduleId, x.moduleId) && !StringLess(z.moduleId, y.moduleId);
    assert !StringLess(z.moduleId, x.moduleId);
  }

  /** Two templates are unordered only when module, priority and text all agree. */
  lemma LessTemplateTies(a: Template, b: Template)
    ensures !LessTemplate(a, b) && !LessTemplate(b, a)
       <==> a.moduleId == b.moduleId && a.priority == b.priority && a.text == b.text
  {
    StringLessTotal();
  }
}
