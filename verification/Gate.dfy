/** The gate: does this window hold a template the system has not shown recently? */
module Gate {
  import opened Model
  import opened Sorting

  const REASON_SECURITY_NEW := "security_new"
  const REASON_NEW_TEMPLATES := "new_templates"
  const MIN_INT64: int := -0x8000_0000_0000_0000

  datatype Config = Config(minNewTemplates: int, similarity: real, silence: int)

  datatype Decision = Decision(call: bool, reasons: seq<string>, novel: set<string>,
                               nearKnown: int, returning: int)

  // ----- tokens -----

  predicate IsWordByte(c: char) {
    'a' <= c <= 'z' || 'A' <= c <= 'Z' || '0' <= c <= '9' || c == '_' || c == '<' || c == '>'
  }

  predicate IsSpace(c: char) { c == ' ' || c == '\t' || c == '\n' || c == '\r' }

  function WordLen(s: string): (n: nat)
    ensures n <= |s|
    ensures forall i :: 0 <= i < n ==> IsWordByte(s[i])
    ensures n < |s| ==> !IsWordByte(s[n])
  {
    if s != [] && IsWordByte(s[0]) then 1 + WordLen(s[1..]) else 0
  }

  /** Maximal runs of word bytes, and every other non-space byte on its own. */
  function Tokens(s: string): seq<string>
    decreases |s|
  {
    if s == [] then []
    else if IsWordByte(s[0]) then [s[..WordLen(s)]] + Tokens(s[WordLen(s)..])
    else if IsSpace(s[0]) then Tokens(s[1..])
    else [s[..1]] + Tokens(s[1..])
  }

  lemma {:induction false} WordLenIs(s: string, n: nat)
    requires n <= |s|
    requires forall i :: 0 <= i < n ==> IsWordByte(s[i])
    requires n < |s| ==> !IsWordByte(s[n])
    ensures WordLen(s) == n
  {
    if n > 0 { WordLenIs(s[1..], n - 1); }
  }

  /** A maximal run of word bytes is one token. */
  lemma FirstWord(s: string, n: nat)
    requires 0 < n <= |s|
    requires forall i :: 0 <= i < n ==> IsWordByte(s[i])
    requires n < |s| ==> !IsWordByte(s[n])
    ensures Tokens(s) == [s[..n]] + Tokens(s[n..])
  {
    WordLenIs(s, n);
  }

  /** Any other byte is dropped if it is white space, and a token of its own otherwise. */
  lemma FirstByte(s: string)
    requires s != [] && !IsWordByte(s[0])
    ensures Tokens(s) == (if IsSpace(s[0]) then [] else [[s[0]]]) + Tokens(s[1..])
  {
    assert s[..1] == [s[0]];
  }

  function WithoutSpace(s: string): string {
    if s == [] then [] else (if IsSpace(s[0]) then [] else [s[0]]) + WithoutSpace(s[1..])
  }

  function Concat(toks: seq<string>): string {
    if toks == [] then [] else toks[0] + Concat(toks[1..])
  }

  lemma {:induction false} WithoutSpaceWord(s: string, n: nat)
    requires n <= |s| && forall i :: 0 <= i < n ==> IsWordByte(s[i])
    ensures WithoutSpace(s) == s[..n] + WithoutSpace(s[n..])
  {
    if n > 0 {
      var rest := s[1..];
      assert forall i :: 0 <= i < n - 1 ==> IsWordByte(rest[i]);
      WithoutSpaceWord(rest, n - 1);
      assert !IsSpace(s[0]) && WithoutSpace(s) == [s[0]] + WithoutSpace(rest);
      hide IsWordByte, IsSpace, WithoutSpace;
      assert rest[n - 1..] == s[n..] && s[..n] == [s[0]] + rest[..n - 1];
      Associate([s[0]], rest[..n - 1], WithoutSpace(s[n..]));
    }
  }

  /** Tokens lose nothing but white space, and none is empty. */
  lemma {:induction false} TokensKeepText(s: string)
    ensures Concat(Tokens(s)) == WithoutSpace(s)
    ensures forall t :: t in Tokens(s) ==> t != []
    decreases |s|
  {
    if s != [] {
      var n := if IsWordByte(s[0]) then WordLen(s) else 1;
      TokensKeepText(s[n..]);
      if IsWordByte(s[0]) {
        WithoutSpaceWord(s, n);
        assert Tokens(s)[1..] == Tokens(s[n..]);
      } else if !IsSpace(s[0]) {
        assert Tokens(s)[1..] == Tokens(s[n..]) && s[..1] == [s[0]];
      }
    }
  }

  lemma WordPrefix(a: string, n: nat, c: char, b: string)
    requires 0 < n <= |a| && !IsWordByte(c)
    requires forall i :: 0 <= i < n ==> IsWordByte(a[i])
    requires n < |a| ==> !IsWordByte(a[n])
    ensures Tokens(a + [c] + b) == [a[..n]] + Tokens(a[n..] + [c] + b)
  {
    var s := a + [c] + b;
    assert s[|a|] == c && s[n..] == a[n..] + [c] + b && s[..n] == a[..n];
    FirstWord(s, n);
  }

  lemma BytePrefix(a: string, c: char, b: string)
    requires a != [] && !IsWordByte(a[0])
    ensures Tokens(a + [c] + b) == (if IsSpace(a[0]) then [] else [[a[0]]]) + Tokens(a[1..] + [c] + b)
  {
    var s := a + [c] + b;
    assert s[1..] == a[1..] + [c] + b;
    FirstByte(s);
  }

  function Separator(c: char): seq<string> { if IsSpace(c) then [] else [[c]] }

  /** A non-word byte always separates: with TokensKeepText and TokensOfWord this fixes Tokens. */
  lemma {:induction false} TokensSplit(a: string, c: char, b: string)
    requires !IsWordByte(c)
    ensures Tokens(a + [c] + b) == Tokens(a) + Separator(c) + Tokens(b)
    decreases |a|
  {
    if a == [] {
      FirstByte(a + [c] + b);
      assert (a + [c] + b)[1..] == b;
    } else if IsWordByte(a[0]) {
      var n := WordLen(a);
      WordPrefix(a, n, c, b);
      FirstWord(a, n);
      TokensSplit(a[n..], c, b);
      SplitStep([a[..n]], Tokens(a[n..]), Separator(c), Tokens(b));
    } else {
      BytePrefix(a, c, b);
      FirstByte(a);
      TokensSplit(a[1..], c, b);
      SplitStep(Separator(a[0]), Tokens(a[1..]), Separator(c), Tokens(b));
    }
  }

  lemma SplitStep(h: seq<string>, x: seq<string>, y: seq<string>, z: seq<string>)
    ensures h + (x + y + z) == (h + x) + y + z
  {
  }

  lemma TokensOfWord(w: string)
    requires w != [] && forall i :: 0 <= i < |w| ==> IsWordByte(w[i])
    ensures Tokens(w) == [w]
  {
    WordLenIs(w, |w|);
    assert w[..|w|] == w && w[|w|..] == [];
  }

  /** The state of tokenize's scan at position i: the tokens found, and where the open word began. */
  ghost predicate Scanned(s: string, toks: seq<string>, start: int, i: nat) {
    && i <= |s| && -1 <= start && (start >= 0 ==> start < i)
    && (start >= 0 ==> forall j :: start <= j < i ==> IsWordByte(s[j]))
    && toks + Tokens(s[if start >= 0 then start else i..]) == Tokens(s)
  }

  /** tokenize: one pass with the start of the word being read, or -1. */
  method Tokenize(s: string) returns (toks: seq<string>)
    ensures toks == Tokens(s)
  {
    toks := [];
    var start := -1;
    assert Scanned(s, toks, start, 0);
    hide Scanned, Tokens;
    for i := 0 to |s|
      invariant Scanned(s, toks, start, i) && -1 <= start < i
    {
      var c := s[i];
      if IsWordByte(c) {
        ReadByte(s, toks, start, i);
        if start < 0 { start := i; }
      } else {
        if start >= 0 {
          CloseWord(s, toks, start, i);
          toks := toks + [s[start..i]];
          start := -1;
        }
        PassByte(s, toks, i);
        if c != ' ' && c != '\t' && c != '\n' && c != '\r' {
          toks := toks + [s[i..i + 1]];
        }
      }
    }
    ScanEnds(s, toks, start);
    if start >= 0 {
      toks := toks + [s[start..]];
    }
  }

  /** A word byte opens a word or continues the open one. */
  lemma ReadByte(s: string, toks: seq<string>, start: int, i: nat)
    requires i < |s| && IsWordByte(s[i]) && Scanned(s, toks, start, i)
    ensures Scanned(s, toks, if start < 0 then i else start, i + 1)
  {
    hide Tokens;
  }

  lemma ScanEnds(s: string, toks: seq<string>, start: int)
    requires Scanned(s, toks, start, |s|)
    ensures Tokens(s) == if start >= 0 then toks + [s[start..]] else toks
  {
    if start >= 0 {
      TokensOfWord(s[start..]);
      hide Tokens;
    } else {
      assert s[|s|..] == [] && toks + [] == toks;
    }
  }

  lemma CloseWord(s: string, toks: seq<string>, start: nat, i: nat)
    requires i < |s| && !IsWordByte(s[i]) && Scanned(s, toks, start, i)
    ensures Scanned(s, toks + [s[start..i]], -1, i)
  {
    WordAt(s, start, i);
    Associate(toks, [s[start..i]], Tokens(s[i..]));
  }

  lemma PassByte(s: string, toks: seq<string>, i: nat)
    requires i < |s| && !IsWordByte(s[i]) && Scanned(s, toks, -1, i)
    ensures Scanned(s, if IsSpace(s[i]) then toks else toks + [s[i..i + 1]], -1, i + 1)
  {
    ByteAt(s, i);
    if !IsSpace(s[i]) {
      Associate(toks, [s[i..i + 1]], Tokens(s[i + 1..]));
    }
  }

  lemma Associate<T>(a: seq<T>, b: seq<T>, c: seq<T>)
    ensures a + (b + c) == (a + b) + c
  {
  }

  lemma WordAt(s: string, start: nat, i: nat)
    requires start < i < |s| && !IsWordByte(s[i])
    requires forall j :: start <= j < i ==> IsWordByte(s[j])
    ensures Tokens(s[start..]) == [s[start..i]] + Tokens(s[i..])
  {
    var rest := s[start..];
    FirstWord(rest, i - start);
    assert rest[..i - start] == s[start..i] && rest[i - start..] == s[i..];
  }

  lemma ByteAt(s: string, i: nat)
    requires i < |s| && !IsWordByte(s[i])
    ensures Tokens(s[i..]) == (if IsSpace(s[i]) then [] else [s[i..i + 1]]) + Tokens(s[i + 1..])
  {
    FirstByte(s[i..]);
    assert s[i..][1..] == s[i + 1..] && s[i..i + 1] == [s[i]];
  }

  // ----- words and similarity -----

  predicate IsLetter(c: char) { 'a' <= c <= 'z' || 'A' <= c <= 'Z' }

  /** Reads as a word: letters only, two or more, no lower-to-upper change inside. */
  predicate ReadsAsWord(tok: string) {
    && |tok| >= 2
    && (forall i :: 0 <= i < |tok| ==> IsLetter(tok[i]))
    && !exists i :: 0 < i < |tok| && 'A' <= tok[i] <= 'Z' && 'a' <= tok[i - 1] <= 'z'
  }

  method PlainWord(tok: string) returns (plain: bool)
    ensures plain == ReadsAsWord(tok)
  {
    if |tok| < 2 { return false; }
    for i := 0 to |tok|
      invariant forall j :: 0 <= j < i ==> IsLetter(tok[j])
      invariant !exists j :: 0 < j < i && 'A' <= tok[j] <= 'Z' && 'a' <= tok[j - 1] <= 'z'
    {
      var c := tok[i];
      var upper := 'A' <= c <= 'Z';
      if !upper && (c < 'a' || c > 'z') { return false; }
      if upper && i > 0 && 'a' <= tok[i - 1] <= 'z' { return false; }
    }
    return true;
  }

  function Differences(a: seq<string>, b: seq<string>): set<int>
    requires |a| == |b|
  {
    set i | 0 <= i < |a| && a[i] != b[i]
  }

  /** At most allowed positions differ, each an identifier on both sides. */
  predicate Alike(a: seq<string>, b: seq<string>, allowed: int)
    requires |a| == |b|
  {
    && |Differences(a, b)| <= allowed
    && forall i :: 0 <= i < |a| && a[i] != b[i] ==> !ReadsAsWord(a[i]) && !ReadsAsWord(b[i])
  }

  method Similar(a: seq<string>, b: seq<string>, allowed: int) returns (alike: bool)
    requires |a| == |b| && allowed >= 0
    ensures alike == Alike(a, b, allowed)
  {
    var diff := 0;
    ghost var seen: set<int> := {};
    for i := 0 to |a|
      invariant seen == set j | 0 <= j < i && a[j] != b[j]
      invariant diff == |seen| && diff <= allowed
      invariant forall j :: 0 <= j < i && a[j] != b[j] ==> !ReadsAsWord(a[j]) && !ReadsAsWord(b[j])
    {
      if a[i] == b[i] { continue; }
      diff := diff + 1;
      seen := seen + {i};
      var pa := PlainWord(a[i]);
      var pb := PlainWord(b[i]);
      if diff > allowed || pa || pb {
        SubsetSize(seen, Differences(a, b));
        return false;
      }
    }
    assert seen == Differences(a, b);
    return true;
  }

  // ----- the index of known templates -----

  datatype Shape = Shape(family: string, tokens: int)

  /** A key split into its family and the tokens of its text. */
  function Entry(key: string): Option<(string, seq<string>)> {
    match Cut(key, NUL)
    case None => None
    case Some(p) => Some((p.0, Tokens(p.1)))
  }

  /** int(float64(n)*(1-threshold) + 1e-9), over the reals. */
  function Allowed(n: nat, threshold: real): int {
    ((n as real) * (1.0 - threshold) + 0.000000001).Floor
  }

  /** One known key is close enough to stand for another. */
  predicate Matches(key: string, other: string, threshold: real) {
    match (Entry(key), Entry(other))
    case (Some((f, a)), Some((g, b))) =>
      f == g && |a| == |b| && |a| > 0 && Allowed(|a|, threshold) > 0 && Alike(a, b, Allowed(|a|, threshold))
    case _ => false
  }

  predicate Recent(known: map<string, int>, cutoff: int, k: string) {
    k in known && known[k] >= cutoff
  }

  /** The naive scan: compare with every recently seen known template, one by one. */
  predicate NearKnown(known: map<string, int>, cutoff: int, key: string, threshold: real) {
    exists k :: k in known && Recent(known, cutoff, k) && Matches(key, k, threshold)
  }

  type Index = map<Shape, seq<seq<string>>>

  predicate Holds(idx: Index, sh: Shape, toks: seq<string>) { sh in idx && toks in idx[sh] }

  predicate Indexed(keys: set<string>, sh: Shape, toks: seq<string>) {
    exists k :: k in keys && Entry(k) == Some((sh.family, toks)) && sh.tokens == |toks|
  }

  ghost predicate IndexOf(idx: Index, keys: set<string>) {
    forall sh, toks :: Holds(idx, sh, toks) <==> Indexed(keys, sh, toks)
  }

  method NewKnownIndex(known: map<string, int>, silentBefore: int) returns (idx: Index)
    ensures IndexOf(idx, set k | k in known && Recent(known, silentBefore, k))
  {
    idx := map[];
    var todo := known.Keys;
    ghost var done: set<string> := {};
    while todo != {}
      invariant done + todo == known.Keys && done !! todo
      invariant IndexOf(idx, set k | k in done && Recent(known, silentBefore, k))
    {
      var key :| key in todo;
      todo := todo - {key};
      ghost var before := set k | k in done && Recent(known, silentBefore, k);
      done := done + {key};
      ghost var after := set k | k in done && Recent(known, silentBefore, k);
      if known[key] < silentBefore {
        assert after == before;
        continue;
      }
      assert after == before + {key};
      match Cut(key, NUL)
      case None =>
        assert forall sh, toks :: Indexed(after, sh, toks) <==> Indexed(before, sh, toks);
      case Some((family, text)) =>
        var toks := Tokenize(text);
        var k := Shape(family, |toks|);
        ghost var old_idx := idx;
        idx := idx[k := (if k in idx then idx[k] else []) + [toks]];
        IndexGrows(old_idx, before, idx, key, k, toks);
    }
    assert done == known.Keys;
  }

  lemma IndexGrows(idx: Index, keys: set<string>, idx': Index, key: string, k: Shape, toks: seq<string>)
    requires IndexOf(idx, keys)
    requires Entry(key) == Some((k.family, toks)) && k.tokens == |toks|
    requires idx' == idx[k := (if k in idx then idx[k] else []) + [toks]]
    ensures IndexOf(idx', keys + {key})
  {
    forall sh, ts ensures Holds(idx', sh, ts) <==> Indexed(keys + {key}, sh, ts) {
      assert Holds(idx', sh, ts) <==> Holds(idx, sh, ts) || (sh == k && ts == toks);
      if Indexed(keys + {key}, sh, ts) {
        var w :| w in keys + {key} && Entry(w) == Some((sh.family, ts)) && sh.tokens == |ts|;
        assert w in keys ==> Indexed(keys, sh, ts);
      }
      if Indexed(keys, sh, ts) {
        var w :| w in keys && Entry(w) == Some((sh.family, ts)) && sh.tokens == |ts|;
        assert w in keys + {key};
      }
      assert key in keys + {key};
    }
  }

  /** The templates the index offers for comparison are exactly the comparable known ones. */
  lemma IndexFinds(idx: Index, keys: set<string>, sh: Shape, toks: seq<string>)
    requires IndexOf(idx, keys) && sh in idx && toks in idx[sh]
    ensures exists k :: k in keys && Entry(k) == Some((sh.family, toks)) && sh.tokens == |toks|
  {
    assert Holds(idx, sh, toks);
    assert Indexed(keys, sh, toks);
  }

  lemma IndexHas(idx: Index, keys: set<string>, k: string, sh: Shape, toks: seq<string>)
    requires IndexOf(idx, keys) && k in keys && Entry(k) == Some((sh.family, toks)) && sh.tokens == |toks|
    ensures sh in idx && toks in idx[sh]
  {
    assert Indexed(keys, sh, toks);
    assert Holds(idx, sh, toks);
  }

  /** The indexed lookup agrees with the naive scan. */
  method Near(idx: Index, key: string, threshold: real, ghost known: map<string, int>, ghost cutoff: int)
    returns (near: bool)
    requires threshold < 1.0
    requires IndexOf(idx, set k | k in known && Recent(known, cutoff, k))
    ensures near == NearKnown(known, cutoff, key, threshold)
  {
    match Cut(key, NUL)
    case None => return false;
    case Some((family, text)) =>
      var toks := Tokenize(text);
      if |toks| == 0 { return false; }
      var allowed := Allowed(|toks|, threshold);
      AllowedIsBudget(|toks|, threshold);
      if allowed == 0 { return false; }
      var sh := Shape(family, |toks|);
      var others := if sh in idx then idx[sh] else [];
      ghost var keys := set k | k in known && Recent(known, cutoff, k);
      SameLength(idx, keys, sh, others);
      near := AnyAlike(toks, others, allowed);
      NearByIndex(idx, known, cutoff, key, threshold, sh, toks, others);
  }

  lemma AllowedIsBudget(n: nat, threshold: real)
    requires threshold < 1.0
    ensures Allowed(n, threshold) >= 0
  {
    ProductNonNegative(n as real, 1.0 - threshold);
  }

  lemma ProductNonNegative(x: real, y: real)
    requires x >= 0.0 && y >= 0.0
    ensures x * y >= 0.0
  {
  }

  lemma SameLength(idx: Index, keys: set<string>, sh: Shape, others: seq<seq<string>>)
    requires IndexOf(idx, keys)
    requires others == if sh in idx then idx[sh] else []
    ensures forall o :: o in others ==> |o| == sh.tokens
  {
    forall o | o in others ensures |o| == sh.tokens {
      IndexFinds(idx, keys, sh, o);
    }
  }

  method AnyAlike(toks: seq<string>, others: seq<seq<string>>, allowed: int) returns (found: bool)
    requires allowed >= 0
    requires forall o :: o in others ==> |o| == |toks|
    ensures found == exists o :: o in others && Alike(toks, o, allowed)
  {
    hide Alike;
    for i := 0 to |others|
      invariant forall j :: 0 <= j < i ==> !Alike(toks, others[j], allowed)
    {
      var alike := Similar(toks, others[i], allowed);
      if alike { return true; }
    }
    return false;
  }

  lemma NearByIndex(idx: Index, known: map<string, int>, cutoff: int, key: string, threshold: real,
                    sh: Shape, toks: seq<string>, others: seq<seq<string>>)
    requires IndexOf(idx, set k | k in known && Recent(known, cutoff, k))
    requires Entry(key) == Some((sh.family, toks)) && sh.tokens == |toks| > 0
    requires Allowed(|toks|, threshold) > 0
    requires others == if sh in idx then idx[sh] else []
    requires forall o :: o in others ==> |o| == |toks|
    ensures NearKnown(known, cutoff, key, threshold)
       <==> exists o :: o in others && Alike(toks, o, Allowed(|toks|, threshold))
  {
    var keys := set k | k in known && Recent(known, cutoff, k);
    if NearKnown(known, cutoff, key, threshold) {
      var k :| k in known && Recent(known, cutoff, k) && Matches(key, k, threshold);
      IndexHas(idx, keys, k, sh, Entry(k).value.1);
      assert Entry(k).value.1 in others;
    }
    if o :| o in others && Alike(toks, o, Allowed(|toks|, threshold)) {
      IndexFinds(idx, keys, sh, o);
      var k :| k in keys && Entry(k) == Some((sh.family, o)) && sh.tokens == |o|;
      assert Matches(key, k, threshold);
    }
  }

  // ----- the decision -----

  /** What the gate can tell about one template of the window. */
  datatype Fact = Fact(key: string, eligible: bool, security: bool)

  predicate SimilarityEligible(t: Template) {
    t.category != SECURITY && t.priority > 2
  }

  function FactOf(canon: Canon, t: Template): Fact {
    Fact(KeyOf(canon, t), SimilarityEligible(t), t.category == SECURITY)
  }

  function FactsOf(canon: Canon, ts: seq<Template>): set<Fact> {
    set t | t in ts :: FactOf(canon, t)
  }

  function Keys(facts: set<Fact>): set<string> { set f | f in facts :: f.key }

  function SilentBefore(start: int, silence: int): int {
    if silence > 0 then start - silence else MIN_INT64
  }

  predicate AllEligible(facts: set<Fact>, key: string) {
    forall f :: f in facts && f.key == key ==> f.eligible
  }

  /** A recent known template may stand for key. */
  predicate StoodFor(key: string, facts: set<Fact>, known: map<string, int>, cutoff: int, similarity: real) {
    similarity < 1.0 && AllEligible(facts, key) && NearKnown(known, cutoff, key, similarity)
  }

  /** New: silent too long, or never sent and no recent known template stands for it. */
  predicate IsNovel(key: string, facts: set<Fact>, known: map<string, int>, cutoff: int, similarity: real) {
    if key in known then known[key] < cutoff else !StoodFor(key, facts, known, cutoff, similarity)
  }

  function Novel(facts: set<Fact>, known: map<string, int>, cutoff: int, similarity: real): set<string> {
    set k | k in Keys(facts) && IsNovel(k, facts, known, cutoff, similarity)
  }

  predicate SecurityNew(facts: set<Fact>, novel: set<string>) {
    exists f :: f in facts && f.security && f.key in novel
  }

  function Reasons(securityNew: bool, quorum: bool): seq<string> {
    (if securityNew then [REASON_SECURITY_NEW] else []) + (if quorum then [REASON_NEW_TEMPLATES] else [])
  }

  /** The declarative specification: a function of the window's facts alone. */
  function Decide(facts: set<Fact>, known: map<string, int>, cutoff: int, securityOnly: bool, cfg: Config): Decision {
    Assemble(facts, known, Novel(facts, known, cutoff, cfg.similarity), securityOnly, cfg)
  }

  /** Enough novel templates, and spending on them allowed. */
  predicate Quorum(novel: set<string>, securityOnly: bool, cfg: Config) {
    !securityOnly && |novel| >= cfg.minNewTemplates > 0
  }

  function Assemble(facts: set<Fact>, known: map<string, int>, novel: set<string>, securityOnly: bool,
                    cfg: Config): Decision {
    var securityNew := SecurityNew(facts, novel);
    var quorum := Quorum(novel, securityOnly, cfg);
    Decision(securityNew || quorum, Reasons(securityNew, quorum), novel,
             |Keys(facts) - known.Keys - novel|, |known.Keys * novel|)
  }

  lemma FactsGrow(canon: Canon, ts: seq<Template>, i: nat)
    requires i < |ts|
    ensures FactsOf(canon, ts[..i + 1]) == FactsOf(canon, ts[..i]) + {FactOf(canon, ts[i])}
    ensures Keys(FactsOf(canon, ts[..i + 1])) == Keys(FactsOf(canon, ts[..i])) + {KeyOf(canon, ts[i])}
  {
    assert ts[..i + 1] == ts[..i] + [ts[i]];
    var before, after := FactsOf(canon, ts[..i]), FactsOf(canon, ts[..i + 1]);
    assert after == before + {FactOf(canon, ts[i])};
    forall k ensures k in Keys(after) <==> k in Keys(before) + {KeyOf(canon, ts[i])} {
      if k in Keys(before) { var f :| f in before && f.key == k; assert f in after; }
      if k == KeyOf(canon, ts[i]) { assert FactOf(canon, ts[i]) in after; }
    }
  }

  /** The first loop's bookkeeping over the templates read so far. */
  ghost predicate Classified(facts: set<Fact>, known: map<string, int>, cutoff: int,
                         novel: set<string>, unknown: map<string, bool>, order: seq<string>) {
    && novel == (set k | k in Keys(facts) && k in known && known[k] < cutoff)
    && unknown.Keys == Keys(facts) - known.Keys
    && (forall k :: k in unknown ==> unknown[k] == AllEligible(facts, k))
    && (forall k :: k in order <==> k in unknown)
    && (forall i, j :: 0 <= i < j < |order| ==> order[i] != order[j])
  }

  lemma ClassifyKnown(facts: set<Fact>, f: Fact, known: map<string, int>, cutoff: int,
                    novel: set<string>, unknown: map<string, bool>, order: seq<string>)
    requires Classified(facts, known, cutoff, novel, unknown, order)
    requires Keys(facts + {f}) == Keys(facts) + {f.key}
    requires f.key in known
    ensures Classified(facts + {f}, known, cutoff, if known[f.key] < cutoff then novel + {f.key} else novel, unknown,
                       order)
  {
    forall k | k != f.key ensures AllEligible(facts + {f}, k) == AllEligible(facts, k) {}
  }

  lemma ClassifyUnknown(facts: set<Fact>, f: Fact, known: map<string, int>, cutoff: int,
                      novel: set<string>, unknown: map<string, bool>, order: seq<string>, unknown': map<string, bool>)
    requires Classified(facts, known, cutoff, novel, unknown, order)
    requires Keys(facts + {f}) == Keys(facts) + {f.key}
    requires f.key !in known
    requires unknown'.Keys == unknown.Keys + {f.key}
    requires unknown'[f.key] == ((f.key in unknown ==> unknown[f.key]) && f.eligible)
    requires forall k :: k in unknown && k != f.key ==> unknown'[k] == unknown[k]
    ensures Classified(facts + {f}, known, cutoff, novel, unknown', if f.key in unknown then order else order + [f.key])
  {
    forall k | k != f.key ensures AllEligible(facts + {f}, k) == AllEligible(facts, k) {}
    assert AllEligible(facts + {f}, f.key) == (AllEligible(facts, f.key) && f.eligible);
    if f.key !in Keys(facts) {
      assert forall g :: g in facts ==> g.key in Keys(facts);
    }
  }

  /** Evaluate, whose result depends only on the facts of the window. */
  method Evaluate(canon: Canon, b: Bundle, known: map<string, int>, securityOnly: bool, cfg: Config)
    returns (d: Decision)
    ensures d == Decide(FactsOf(canon, b.templates), known, SilentBefore(b.start, cfg.silence), securityOnly, cfg)
  {
    hide Novel, NearKnown, SecurityNew, Classified, FactsOf, Keys, Quorum, Reasons, Decide;
    var silentBefore := MIN_INT64;
    if cfg.silence > 0 { silentBefore := b.start - cfg.silence; }

    var returning, unknown, unknownOrder := Classify(canon, b.templates, known, silentBefore);
    ghost var facts := FactsOf(canon, b.templates);
    var novel, nearKnown := AddUnknown(known, silentBefore, cfg, returning, unknown, unknownOrder, facts);
    var securityNew := SecurityScan(canon, b.templates, novel);
    var reasons := GiveReasons(securityNew, novel, securityOnly, cfg);
    d := Decision(|reasons| > 0, reasons, novel, nearKnown, |returning|);
    Decided(facts, known, silentBefore, securityOnly, cfg, d);
  }

  lemma Decided(facts: set<Fact>, known: map<string, int>, cutoff: int, securityOnly: bool, cfg: Config, d: Decision)
    requires d.novel == Novel(facts, known, cutoff, cfg.similarity)
    requires d.reasons == Reasons(SecurityNew(facts, d.novel), Quorum(d.novel, securityOnly, cfg))
    requires d.call == (|d.reasons| > 0)
    requires d.nearKnown == |Keys(facts) - known.Keys - d.novel| && d.returning == |known.Keys * d.novel|
    ensures d == Decide(facts, known, cutoff, securityOnly, cfg)
  {
    hide Novel, SecurityNew, Quorum, Keys;
  }

  method GiveReasons(securityNew: bool, novel: set<string>, securityOnly: bool,
                     cfg: Config) returns (reasons: seq<string>)
    ensures reasons == Reasons(securityNew, Quorum(novel, securityOnly, cfg))
  {
    reasons := [];
    if securityNew { reasons := reasons + [REASON_SECURITY_NEW]; }
    if !securityOnly && |novel| >= cfg.minNewTemplates && cfg.minNewTemplates > 0 {
      reasons := reasons + [REASON_NEW_TEMPLATES];
    }
  }

  /** The first loop: known templates back after a silence, and the unknown keys in order. */
  method Classify(canon: Canon, ts: seq<Template>, known: map<string, int>, silentBefore: int)
    returns (novel: set<string>, unknown: map<string, bool>, unknownOrder: seq<string>)
    ensures Classified(FactsOf(canon, ts), known, silentBefore, novel, unknown, unknownOrder)
  {
    novel, unknown, unknownOrder := {}, map[], [];
    ghost var facts: set<Fact> := {};
    for i := 0 to |ts|
      invariant facts == FactsOf(canon, ts[..i])
      invariant Classified(facts, known, silentBefore, novel, unknown, unknownOrder)
    {
      FactsGrow(canon, ts, i);
      novel, unknown, unknownOrder := ClassifyOne(canon, ts[i], known, silentBefore, novel, unknown, unknownOrder,
                                                  facts);
      facts := facts + {FactOf(canon, ts[i])};
    }
    assert ts[..|ts|] == ts;
  }

  method ClassifyOne(canon: Canon, t: Template, known: map<string, int>, silentBefore: int, novel0: set<string>,
                     unknown0: map<string, bool>, order0: seq<string>, ghost facts: set<Fact>)
    returns (novel: set<string>, unknown: map<string, bool>, unknownOrder: seq<string>)
    requires Classified(facts, known, silentBefore, novel0, unknown0, order0)
    requires Keys(facts + {FactOf(canon, t)}) == Keys(facts) + {KeyOf(canon, t)}
    ensures Classified(facts + {FactOf(canon, t)}, known, silentBefore, novel, unknown, unknownOrder)
  {
    novel, unknown, unknownOrder := novel0, unknown0, order0;
    var key := KeyOf(canon, t);
    if key !in known {
      if key !in unknown {
        unknown := unknown[key := true];
        unknownOrder := unknownOrder + [key];
      }
      if !SimilarityEligible(t) {
        unknown := unknown[key := false];
      }
      ClassifyUnknown(facts, FactOf(canon, t), known, silentBefore, novel0, unknown0, order0, unknown);
    } else {
      if known[key] < silentBefore {
        novel := novel + {key};
      }
      ClassifyKnown(facts, FactOf(canon, t), known, silentBefore, novel0, unknown0, order0);
    }
  }

  method SecurityScan(canon: Canon, ts: seq<Template>, novel: set<string>) returns (securityNew: bool)
    ensures securityNew == SecurityNew(FactsOf(canon, ts), novel)
  {
    SecurityByScan(canon, ts, novel);
    for i := 0 to |ts|
      invariant forall j :: 0 <= j < i ==> !(ts[j].category == SECURITY && KeyOf(canon, ts[j]) in novel)
    {
      if ts[i].category == SECURITY && KeyOf(canon, ts[i]) in novel {
        return true;
      }
    }
    return false;
  }

  lemma SecurityByScan(canon: Canon, ts: seq<Template>, novel: set<string>)
    ensures SecurityNew(FactsOf(canon, ts), novel)
       <==> exists j :: 0 <= j < |ts| && ts[j].category == SECURITY && KeyOf(canon, ts[j]) in novel
  {
    var facts := FactsOf(canon, ts);
    if j :| 0 <= j < |ts| && ts[j].category == SECURITY && KeyOf(canon, ts[j]) in novel {
      assert FactOf(canon, ts[j]) in facts;
    }
    if f :| f in facts && f.security && f.key in novel {
      var t :| t in ts && FactOf(canon, t) == f;
      var j :| 0 <= j < |ts| && ts[j] == t;
    }
  }

  /** The second loop: unknown keys are novel unless a known template stands for them. */
  method AddUnknown(known: map<string, int>, silentBefore: int, cfg: Config, novel0: set<string>,
                    unknown: map<string, bool>, unknownOrder: seq<string>, ghost facts: set<Fact>)
    returns (novel: set<string>, nearKnown: int)
    requires Classified(facts, known, silentBefore, novel0, unknown, unknownOrder)
    ensures novel0 == known.Keys * novel
    ensures novel == Novel(facts, known, silentBefore, cfg.similarity)
    ensures nearKnown == |Keys(facts) - known.Keys - novel|
  {
    hide NearKnown, IndexOf, Novel, Keys, Classified;
    novel, nearKnown := novel0, 0;
    var idx: Option<Index> := None;
    if cfg.similarity < 1.0 {
      var built := NewKnownIndex(known, silentBefore);
      idx := Some(built);
    }
    ghost var spec := Novel(facts, known, silentBefore, cfg.similarity);
    ghost var done: set<string> := {};
    for i := 0 to |unknownOrder|
      invariant Settled(unknownOrder, i, done, novel0, spec, novel, nearKnown)
    {
      var key := unknownOrder[i];
      FreshKey(facts, known, silentBefore, novel0, unknown, unknownOrder, i);
      SettleOne(unknownOrder, i, done, novel0, spec, novel, nearKnown);
      var near := IsNear(idx, key, unknown[key], facts, known, silentBefore, cfg.similarity);
      done := done + {key};
      if near {
        nearKnown := nearKnown + 1;
        continue;
      }
      novel := novel + {key};
    }
    AllSettled(facts, known, silentBefore, cfg.similarity, novel0, unknown, unknownOrder, done);
  }

  lemma FreshKey(facts: set<Fact>, known: map<string, int>, cutoff: int, novel: set<string>,
                 unknown: map<string, bool>, order: seq<string>, i: nat)
    requires Classified(facts, known, cutoff, novel, unknown, order) && i < |order|
    ensures order[i] in unknown && unknown[order[i]] == AllEligible(facts, order[i])
    ensures order[i] in Keys(facts) && order[i] !in known && order[i] !in order[..i]
    ensures forall k :: k in order[..i + 1] <==> k in order[..i] || k == order[i]
  {
    assert order[i] in order;
    assert order[..i + 1] == order[..i] + [order[i]];
  }

  method IsNear(idx: Option<Index>, key: string, eligible: bool, ghost facts: set<Fact>,
                ghost known: map<string, int>, ghost cutoff: int, similarity: real) returns (near: bool)
    requires idx.Some? <==> similarity < 1.0
    requires idx.Some? ==> IndexOf(idx.value, set k | k in known && Recent(known, cutoff, k))
    requires key in Keys(facts) && key !in known && eligible == AllEligible(facts, key)
    ensures near <==> key !in Novel(facts, known, cutoff, similarity)
  {
    near := false;
    if eligible && idx.Some? {
      near := Near(idx.value, key, similarity, known, cutoff);
    }
    UnknownKey(key, facts, known, cutoff, similarity);
  }

  /** The second loop's bookkeeping over the first i unknown keys: done are those keys. */
  ghost predicate Settled(order: seq<string>, i: nat, done: set<string>, base: set<string>, spec: set<string>,
                          novel: set<string>, nearKnown: int) {
    i <= |order| && (forall k :: k in done <==> k in order[..i])
    && novel == base + done * spec && nearKnown == |done - spec|
  }

  lemma SettleOne(order: seq<string>, i: nat, done: set<string>, base: set<string>, spec: set<string>,
                  novel: set<string>, nearKnown: int)
    requires i < |order| && order[i] !in order[..i] && Settled(order, i, done, base, spec, novel, nearKnown)
    ensures if order[i] in spec
            then Settled(order, i + 1, done + {order[i]}, base, spec, novel + {order[i]}, nearKnown)
            else Settled(order, i + 1, done + {order[i]}, base, spec, novel, nearKnown + 1)
  {
    var key := order[i];
    assert order[..i + 1] == order[..i] + [key];
    assert (done + {key}) - spec == if key in spec then done - spec else (done - spec) + {key};
    assert (done + {key}) * spec == if key in spec then done * spec + {key} else done * spec;
  }

  lemma AllSettled(facts: set<Fact>, known: map<string, int>, cutoff: int, similarity: real, novel0: set<string>,
                   unknown: map<string, bool>, order: seq<string>, done: set<string>)
    requires Classified(facts, known, cutoff, novel0, unknown, order)
    requires forall k :: k in done <==> k in order[..|order|]
    ensures var spec := Novel(facts, known, cutoff, similarity);
            && novel0 + done * spec == spec
            && done - spec == Keys(facts) - known.Keys - spec
            && novel0 == known.Keys * spec
  {
    assert order[..|order|] == order;
    assert done == Keys(facts) - known.Keys;
    SpecSplits(facts, known, cutoff, similarity, novel0);
  }

  lemma UnknownKey(key: string, facts: set<Fact>, known: map<string, int>, cutoff: int, similarity: real)
    requires key in Keys(facts) && key !in known
    ensures key in Novel(facts, known, cutoff, similarity)
       <==> !(AllEligible(facts, key) && similarity < 1.0 && NearKnown(known, cutoff, key, similarity))
  {
  }

  lemma SpecSplits(facts: set<Fact>, known: map<string, int>, cutoff: int, similarity: real, silent: set<string>)
    requires silent == set k | k in Keys(facts) && k in known && known[k] < cutoff
    ensures Novel(facts, known, cutoff, similarity)
         == silent + (Keys(facts) - known.Keys) * Novel(facts, known, cutoff, similarity)
    ensures silent == known.Keys * Novel(facts, known, cutoff, similarity)
  {
  }

  // ----- what the decision depends on -----

  /** Order, repetition, counts, samples and nodes of the templates never matter. */
  lemma DependsOnFactsOnly(canon: Canon, b: Bundle, b': Bundle, known: map<string, int>, securityOnly: bool,
                           cfg: Config)
    requires b.start == b'.start
    requires forall t :: t in b.templates ==> exists u :: u in b'.templates && SameFact(canon, t, u)
    requires forall u :: u in b'.templates ==> exists t :: t in b.templates && SameFact(canon, u, t)
    ensures Decide(FactsOf(canon, b.templates), known, SilentBefore(b.start, cfg.silence), securityOnly, cfg)
         == Decide(FactsOf(canon, b'.templates), known, SilentBefore(b'.start, cfg.silence), securityOnly, cfg)
  {
    FactsWithin(canon, b.templates, b'.templates);
    FactsWithin(canon, b'.templates, b.templates);
    assert FactsOf(canon, b.templates) == FactsOf(canon, b'.templates);
  }

  lemma FactsWithin(canon: Canon, ts: seq<Template>, us: seq<Template>)
    requires forall t :: t in ts ==> exists u :: u in us && SameFact(canon, t, u)
    ensures FactsOf(canon, ts) <= FactsOf(canon, us)
  {
    forall x | x in FactsOf(canon, ts) ensures x in FactsOf(canon, us) {
      var t :| t in ts && FactOf(canon, t) == x;
      var u :| u in us && SameFact(canon, t, u);
      assert FactOf(canon, u) == x;
    }
  }

  predicate SameFact(canon: Canon, t: Template, u: Template) {
    && ModuleFamily(t.moduleId) == ModuleFamily(u.moduleId)
    && canon(ModuleFamily(t.moduleId), t.text) == canon(ModuleFamily(u.moduleId), u.text)
    && t.priority == u.priority && t.category == u.category
  }

  /** known' remembers at least as much: every template as late, and new ones only if recent. */
  ghost predicate RemembersMore(known: map<string, int>, known': map<string, int>, cutoff: int) {
    && (forall k :: k in known ==> k in known' && known'[k] >= known[k])
    && (forall k :: k in known' && k !in known ==> known'[k] >= cutoff)
  }

  /** Remembering more can only shrink the novel set, and can only turn a call off. */
  lemma NoveltyShrinks(facts: set<Fact>, known: map<string, int>, known': map<string, int>, cutoff: int,
                       securityOnly: bool, cfg: Config)
    requires RemembersMore(known, known', cutoff)
    ensures Novel(facts, known', cutoff, cfg.similarity) <= Novel(facts, known, cutoff, cfg.similarity)
    ensures Decide(facts, known', cutoff, securityOnly, cfg).call
            ==> Decide(facts, known, cutoff, securityOnly, cfg).call
  {
    var novel, novel' := Novel(facts, known, cutoff, cfg.similarity), Novel(facts, known', cutoff, cfg.similarity);
    forall k | k in novel' ensures k in novel {
      if NearKnown(known, cutoff, k, cfg.similarity) {
        var w :| w in known && Recent(known, cutoff, w) && Matches(k, w, cfg.similarity);
        assert w in known' && Recent(known', cutoff, w);
      }
    }
    SubsetSize(novel', novel);
  }

  // ----- forgetting -----

  /** after has lost some templates silent since before the cutoff, or their latest rows, and nothing else. */
  ghost predicate Forgets(known: map<string, int>, after: map<string, int>, cutoff: int) {
    && (forall k :: k in after ==> k in known)
    && (forall k :: k in known && known[k] >= cutoff ==> k in after && after[k] == known[k])
    && (forall k :: k in after && known[k] < cutoff ==> after[k] < cutoff)
  }

  /** The forgotten templates of the window that a recent one stands for. */
  function Hidden(facts: set<Fact>, known: map<string, int>, after: map<string, int>, cutoff: int, similarity: real)
    : set<string>
  {
    set k | k in Keys(facts) && k in known && k !in after && StoodFor(k, facts, known, cutoff, similarity)
  }

  lemma RecentSurvives(known: map<string, int>, after: map<string, int>, cutoff: int, key: string, similarity: real)
    requires Forgets(known, after, cutoff)
    ensures NearKnown(after, cutoff, key, similarity) <==> NearKnown(known, cutoff, key, similarity)
  {
    hide Matches;
    if NearKnown(known, cutoff, key, similarity) {
      var w :| w in known && Recent(known, cutoff, w) && Matches(key, w, similarity);
      assert w in after && Recent(after, cutoff, w);
    }
    if NearKnown(after, cutoff, key, similarity) {
      var w :| w in after && Recent(after, cutoff, w) && Matches(key, w, similarity);
      assert w in known && Recent(known, cutoff, w);
    }
  }

  /** Forgetting silent templates takes exactly the hidden ones out of the novel set; so it leaves the set alone
      if and only if nothing stands for any forgotten template of the window. */
  lemma ForgettingSilent(facts: set<Fact>, known: map<string, int>, after: map<string, int>, cutoff: int,
                         similarity: real)
    requires Forgets(known, after, cutoff)
    ensures var hidden := Hidden(facts, known, after, cutoff, similarity);
            && hidden <= Novel(facts, known, cutoff, similarity)
            && Novel(facts, after, cutoff, similarity) == Novel(facts, known, cutoff, similarity) - hidden
    ensures Novel(facts, after, cutoff, similarity) == Novel(facts, known, cutoff, similarity)
       <==> forall k :: k in Keys(facts) && k in known && k !in after
                        ==> !StoodFor(k, facts, known, cutoff, similarity)
  {
    hide NearKnown, AllEligible;
    forall k ensures StoodFor(k, facts, after, cutoff, similarity) <==> StoodFor(k, facts, known, cutoff, similarity) {
      RecentSurvives(known, after, cutoff, k, similarity);
    }
    var novel, hidden := Novel(facts, known, cutoff, similarity), Hidden(facts, known, after, cutoff, similarity);
    assert Novel(facts, after, cutoff, similarity) == novel - hidden;
    if k :| k in Keys(facts) && k in known && k !in after && StoodFor(k, facts, known, cutoff, similarity) {
      assert k in hidden && k in novel;
    }
  }

  /** What that does to the call: the hidden templates are missing from the quorum, and only from there. */
  lemma ForgettingAndTheCall(canon: Canon, ts: seq<Template>, known: map<string, int>, after: map<string, int>,
                             cutoff: int, securityOnly: bool, cfg: Config)
    requires Forgets(known, after, cutoff)
    ensures var facts := FactsOf(canon, ts);
            var novel, hidden := Novel(facts, known, cutoff, cfg.similarity),
                                 Hidden(facts, known, after, cutoff, cfg.similarity);
            var quorum := !securityOnly && |novel| - |hidden| >= cfg.minNewTemplates > 0;
            Decide(facts, after, cutoff, securityOnly, cfg).call == (SecurityNew(facts, novel) || quorum)
  {
    hide Novel, Hidden, Forgets, NearKnown;
    var facts := FactsOf(canon, ts);
    var novel := Novel(facts, known, cutoff, cfg.similarity);
    var hidden := Hidden(facts, known, after, cutoff, cfg.similarity);
    ForgettingSilent(facts, known, after, cutoff, cfg.similarity);
    assert |novel - hidden| == |novel| - |hidden|;
    if f :| f in facts && f.security && f.key in novel {
      NotHidden(canon, ts, f, known, after, cutoff, cfg.similarity);
      assert f.key in novel - hidden;
    }
  }

  /** Security templates are never hidden. */
  lemma NotHidden(canon: Canon, ts: seq<Template>, f: Fact, known: map<string, int>, after: map<string, int>,
                  cutoff: int, similarity: real)
    requires f in FactsOf(canon, ts) && f.security
    ensures f.key !in Hidden(FactsOf(canon, ts), known, after, cutoff, similarity)
  {
    assert !f.eligible;
    assert !AllEligible(FactsOf(canon, ts), f.key);
  }

  /** One silent row: remembering it adds its template to the novel set; forgetting it changes the set exactly
      if the window has the template and a recent one stands for it. */
  lemma SilentTemplate(facts: set<Fact>, known: map<string, int>, k: string, cutoff: int, similarity: real)
    requires k in known && known[k] < cutoff
    ensures Novel(facts, known, cutoff, similarity)
         == Novel(facts, known - {k}, cutoff, similarity) + (if k in Keys(facts) then {k} else {})
    ensures Novel(facts, known - {k}, cutoff, similarity) == Novel(facts, known, cutoff, similarity)
       <==> k !in Keys(facts) || !StoodFor(k, facts, known, cutoff, similarity)
  {
    hide StoodFor, Novel;
    ForgettingSilent(facts, known, known - {k}, cutoff, similarity);
    NovelOf(k, facts, known, cutoff, similarity);
    NovelOf(k, facts, known - {k}, cutoff, similarity);
  }

  lemma NovelOf(k: string, facts: set<Fact>, known: map<string, int>, cutoff: int, similarity: real)
    ensures k in Novel(facts, known, cutoff, similarity)
       <==> k in Keys(facts) && IsNovel(k, facts, known, cutoff, similarity)
  {
  }

  // ----- lines that differ in one identifier -----

  predicate IsWord(w: string) { w != [] && forall i :: 0 <= i < |w| ==> IsWordByte(w[i]) }

  /** Words, each followed by a blank. */
  function Spaced(ws: seq<string>): string { if ws == [] then [] else Spaced(ws[..|ws| - 1]) + ws[|ws| - 1] + " " }

  lemma {:induction false} TokensOfSpaced(ws: seq<string>, rest: string)
    requires forall w :: w in ws ==> IsWord(w)
    ensures Tokens(Spaced(ws) + rest) == ws + Tokens(rest)
    decreases |ws|
  {
    hide Tokens;
    if ws == [] {
      assert Spaced(ws) + rest == rest && ws + Tokens(rest) == Tokens(rest);
    } else {
      var init, last := ws[..|ws| - 1], ws[|ws| - 1];
      assert last in ws && ws == init + [last];
      assert Spaced(ws) + rest == Spaced(init) + (last + [' '] + rest);
      TokensOfSpaced(init, last + [' '] + rest);
      TokensSplit(last, ' ', rest);
      TokensOfWord(last);
      assert ws + Tokens(rest) == init + ([last] + [] + Tokens(rest));
    }
  }

  const HELD := ["the", "queue", "runner", "gave", "up", "for", "now", "and", "holds", "job"]

  /** The queue runner's line about one job. */
  function JobLine(id: string): string { Spaced(HELD) + id }

  lemma TokensOfJobLine(id: string)
    requires IsWord(id)
    ensures Tokens(JobLine(id)) == HELD + [id]
  {
    hide Tokens, Spaced;
    assert IsWord("the") && IsWord("queue") && IsWord("runner") && IsWord("gave") && IsWord("up");
    assert IsWord("for") && IsWord("now") && IsWord("and") && IsWord("holds") && IsWord("job");
    TokensOfSpaced(HELD, id);
    TokensOfWord(id);
  }

  /** With the default similarity one job's line stands for another's, if the job ids are no plain words. */
  lemma JobLinesMatch(family: string, x: string, y: string)
    requires NUL !in family && IsWord(x) && IsWord(y) && x != y && !ReadsAsWord(x) && !ReadsAsWord(y)
    ensures Matches(family + [NUL] + JobLine(x), family + [NUL] + JobLine(y), 0.9)
  {
    CutOfJoin(family, JobLine(x), NUL);
    CutOfJoin(family, JobLine(y), NUL);
    TokensOfJobLine(x);
    TokensOfJobLine(y);
    hide Tokens, JobLine, ReadsAsWord, Cut;
    var a, b := HELD + [x], HELD + [y];
    assert |HELD| == 10 && Allowed(11, 0.9) == 1;
    assert Differences(a, b) == {10};
  }

  /** A window of one line, silent and known, for which a recent line may stand: forgetting it ends the call. */
  lemma ForgettingTheOnlyLine(facts: set<Fact>, k: string, w: string, before: map<string, int>,
                              after: map<string, int>, cutoff: int, cfg: Config)
    requires facts == {Fact(k, true, false)} && cfg.similarity < 1.0 && cfg.minNewTemplates == 1
    requires k in before && before[k] < cutoff && k !in after
    requires w in before && before[w] >= cutoff && Matches(k, w, cfg.similarity)
    requires Forgets(before, after, cutoff)
    ensures Novel(facts, before, cutoff, cfg.similarity) == {k} && Decide(facts, before, cutoff, false, cfg).call
    ensures Novel(facts, after, cutoff, cfg.similarity) == {} && !Decide(facts, after, cutoff, false, cfg).call
  {
    hide Matches;
    assert Keys(facts) == {k};
    assert Recent(before, cutoff, w);
    assert StoodFor(k, facts, before, cutoff, cfg.similarity);
    assert Novel(facts, before, cutoff, cfg.similarity) == {k};
    ForgettingSilent(facts, before, after, cutoff, cfg.similarity);
    assert k in Hidden(facts, before, after, cutoff, cfg.similarity);
    assert Novel(facts, after, cutoff, cfg.similarity) == {};
  }

  /** A security template fires the gate exactly when its key is new: similarity never hides it,
      and neither the quorum nor the spend cap holds it back. */
  lemma NewSecurityAlwaysPays(facts: set<Fact>, key: string, known: map<string, int>, cutoff: int,
                              securityOnly: bool, cfg: Config)
    requires Fact(key, false, true) in facts
    requires key !in known || known[key] < cutoff
    ensures Decide(facts, known, cutoff, securityOnly, cfg).call
    ensures key in Novel(facts, known, cutoff, cfg.similarity)
  {
    assert !AllEligible(facts, key);
    assert key in Keys(facts);
  }
}
