/** The gate's answer in terms of the window's lines and what was known, without the facts drawn from them. */
module GateLaws {
  import opened Model
  import opened Sorting
  import opened Gate

  const INT64_MIN: int := -9_223_372_036_854_775_808

  /** Some line of the window has the key. */
  ghost predicate Shows(canon: Canon, ts: seq<Template>, key: string) {
    exists t :: t in ts && KeyOf(canon, t) == key
  }

  /** Some line with the key is classified as security, or is of priority critical or above. */
  ghost predicate Grave(canon: Canon, ts: seq<Template>, key: string) {
    exists t :: t in ts && KeyOf(canon, t) == key && (t.category == "security" || t.priority <= 2)
  }

  /** The positions at which two equally long token lists differ. */
  function Apart(a: seq<string>, b: seq<string>): set<int>
    requires |a| == |b|
  {
    set i | 0 <= i < |a| && a[i] != b[i]
  }

  /** As many tokens on both sides; the number that differ is within what the threshold leaves of them, which is at
      least one; and where they differ, neither token is a plain word. */
  predicate TokensResemble(a: seq<string>, b: seq<string>, threshold: real) {
    && |a| == |b| && |a| > 0
    && (|a| as real) * (1.0 - threshold) + 0.000000001 >= 1.0
    && (|Apart(a, b)| as real) <= (|a| as real) * (1.0 - threshold) + 0.000000001
    && forall i :: 0 <= i < |a| && a[i] != b[i] ==> !ReadsAsWord(a[i]) && !ReadsAsWord(b[i])
  }

  /** The same family, and texts whose tokens resemble each other. */
  predicate Resembles(x: string, y: string, threshold: real) {
    match (Cut(x, NUL), Cut(y, NUL))
    case (Some((f, s)), Some((g, t))) => f == g && TokensResemble(Tokens(s), Tokens(t), threshold)
    case _ => false
  }

  lemma FloorIsLeast(x: real, n: int)
    ensures n <= x.Floor <==> n as real <= x
  {
  }

  lemma AlikeMeans(a: seq<string>, b: seq<string>, threshold: real)
    ensures |a| == |b| && |a| > 0 && Allowed(|a|, threshold) > 0 && Alike(a, b, Allowed(|a|, threshold))
       <==> TokensResemble(a, b, threshold)
  {
    if |a| == |b| {
      var room := (|a| as real) * (1.0 - threshold) + 0.000000001;
      assert Apart(a, b) == Differences(a, b) && Allowed(|a|, threshold) == room.Floor;
      FloorIsLeast(room, 1);
      FloorIsLeast(room, |Apart(a, b)|);
      hide ReadsAsWord, Allowed, Apart, Differences;
    }
  }

  lemma MatchesMeans(x: string, y: string, threshold: real)
    ensures Matches(x, y, threshold) <==> Resembles(x, y, threshold)
  {
    hide Tokens, Alike, TokensResemble, Allowed;
    match (Cut(x, NUL), Cut(y, NUL))
    case (Some((_, s)), Some((_, t))) => AlikeMeans(Tokens(s), Tokens(t), threshold);
    case _ =>
  }

  /** A recent known line stands in for the key. */
  ghost predicate HasStandIn(known: map<string, int>, cutoff: int, key: string, threshold: real) {
    threshold < 1.0 && exists k :: k in known && known[k] >= cutoff && Resembles(key, k, threshold)
  }

  lemma StandInMeans(known: map<string, int>, cutoff: int, key: string, threshold: real)
    ensures threshold < 1.0 && NearKnown(known, cutoff, key, threshold) <==> HasStandIn(known, cutoff, key, threshold)
  {
    hide Matches, Resembles;
    forall k ensures Matches(key, k, threshold) <==> Resembles(key, k, threshold) { MatchesMeans(key, k, threshold); }
    if threshold < 1.0 && NearKnown(known, cutoff, key, threshold) {
      var k :| k in known && Recent(known, cutoff, k) && Matches(key, k, threshold);
      assert known[k] >= cutoff && Resembles(key, k, threshold);
    }
    if HasStandIn(known, cutoff, key, threshold) {
      var k :| k in known && known[k] >= cutoff && Resembles(key, k, threshold);
      assert Recent(known, cutoff, k);
    }
  }

  lemma EligibleMeans(canon: Canon, ts: seq<Template>, key: string)
    ensures AllEligible(FactsOf(canon, ts), key) <==> !Grave(canon, ts, key)
    ensures key in Keys(FactsOf(canon, ts)) <==> Shows(canon, ts, key)
  {
    hide KeyOf;
    var facts := FactsOf(canon, ts);
    if t :| t in ts && KeyOf(canon, t) == key && (t.category == "security" || t.priority <= 2) {
      assert FactOf(canon, t) in facts;
    }
    if f :| f in facts && f.key == key && !f.eligible {
      var t :| t in ts && FactOf(canon, t) == f;
    }
    if t :| t in ts && KeyOf(canon, t) == key { assert FactOf(canon, t) in facts; }
    if key in Keys(facts) {
      var f :| f in facts && f.key == key;
      var t :| t in ts && FactOf(canon, t) == f;
    }
  }

  /** Which keys are novel. A known one, exactly if the silence is switched on and longer than it; an unknown one always
      if some line with it is grave, otherwise exactly if no recent known line stands in for it. */
  lemma NovelMeans(canon: Canon, ts: seq<Template>, known: map<string, int>, start: int, silence: int, threshold: real,
                   key: string)
    requires forall k :: k in known ==> known[k] >= INT64_MIN
    ensures var cutoff := if silence > 0 then start - silence else INT64_MIN;
            var new_ := if key in known then silence > 0 && known[key] < start - silence
                      else Grave(canon, ts, key) || !HasStandIn(known, cutoff, key, threshold);
            key in Novel(FactsOf(canon, ts), known, SilentBefore(start, silence), threshold)
            <==> Shows(canon, ts, key) && new_
  {
    EligibleMeans(canon, ts, key);
    StandInMeans(known, SilentBefore(start, silence), key, threshold);
    hide FactsOf, Keys, AllEligible, NearKnown, HasStandIn, Shows, Grave;
  }

  /** The call and its reasons. */
  lemma DecisionMeans(canon: Canon, ts: seq<Template>, known: map<string, int>, cutoff: int, securityOnly: bool,
                      cfg: Config)
    ensures var d := Decide(FactsOf(canon, ts), known, cutoff, securityOnly, cfg);
            var security := exists t :: t in ts && t.category == "security" && KeyOf(canon, t) in d.novel;
            var enough := !securityOnly && cfg.minNewTemplates > 0 && |d.novel| >= cfg.minNewTemplates;
            && d.novel == Novel(FactsOf(canon, ts), known, cutoff, cfg.similarity)
            && (d.call <==> security || enough)
            && d.reasons == (if security then ["security_new"] else []) + (if enough then ["new_templates"] else [])
            && d.returning == |set k | k in d.novel && k in known|
            && d.nearKnown == |set k | k in Keys(FactsOf(canon, ts)) && k !in known && k !in d.novel|
  {
    hide KeyOf, Novel, Keys;
    var facts, novel := FactsOf(canon, ts), Novel(FactsOf(canon, ts), known, cutoff, cfg.similarity);
    SecurityMeans(canon, ts, novel);
    assert known.Keys * novel == set k | k in novel && k in known;
    assert Keys(facts) - known.Keys - novel == set k | k in Keys(facts) && k !in known && k !in novel;
    hide SecurityNew, FactsOf;
  }

  lemma SecurityMeans(canon: Canon, ts: seq<Template>, novel: set<string>)
    ensures SecurityNew(FactsOf(canon, ts), novel)
       <==> exists t :: t in ts && t.category == "security" && KeyOf(canon, t) in novel
  {
    hide KeyOf;
    var facts := FactsOf(canon, ts);
    if t :| t in ts && t.category == "security" && KeyOf(canon, t) in novel { assert FactOf(canon, t) in facts; }
    if f :| f in facts && f.security && f.key in novel { var t :| t in ts && FactOf(canon, t) == f; }
  }

  predicate Small(c: char) { 'a' <= c <= 'z' }

  predicate Capital(c: char) { 'A' <= c <= 'Z' }

  /** Letters, digits, underscores and angle brackets make words; blanks, tabs and line ends are skipped; every other
      byte is a token of its own. */
  lemma TokensMean(s: string, c: char)
    ensures (forall i :: 0 <= i < |s| ==> InWord(s[i])) && s != [] ==> Tokens(s) == [s]
    ensures !InWord(c) ==> Tokens(s + [c]) == Tokens(s) + (if c in {' ', '\t', '\n', '\r'} then [] else [[c]])
  {
    if s != [] && forall i :: 0 <= i < |s| ==> InWord(s[i]) { TokensOfWord(s); }
    if !InWord(c) {
      TokensSplit(s, c, "");
      assert s + [c] + "" == s + [c];
    }
  }

  predicate InWord(c: char) { Small(c) || Capital(c) || '0' <= c <= '9' || c in {'_', '<', '>'} }

  /** What counts as a plain word: two letters or more and nothing else, and no capital right after a small letter. */
  lemma PlainWords(tok: string)
    ensures |tok| < 2 ==> !ReadsAsWord(tok)
    ensures (exists i :: 0 <= i < |tok| && !Small(tok[i]) && !Capital(tok[i])) ==> !ReadsAsWord(tok)
    ensures (exists i :: 0 <= i < |tok| - 1 && Small(tok[i]) && Capital(tok[i + 1])) ==> !ReadsAsWord(tok)
    ensures |tok| >= 2 && (forall i :: 0 <= i < |tok| ==> Small(tok[i])) ==> ReadsAsWord(tok)
    ensures |tok| >= 2 && (forall i :: 0 <= i < |tok| ==> Capital(tok[i])) ==> ReadsAsWord(tok)
    ensures |tok| >= 2 && Capital(tok[0]) && (forall i :: 1 <= i < |tok| ==> Small(tok[i])) ==> ReadsAsWord(tok)
  {
    if i :| 0 <= i < |tok| - 1 && Small(tok[i]) && Capital(tok[i + 1]) {
      assert 0 < i + 1 < |tok| && 'A' <= tok[i + 1] <= 'Z' && 'a' <= tok[i + 1 - 1] <= 'z';
    }
  }

  /** Two lines have one key exactly if their families and their canonical texts agree. */
  lemma KeysAgree(canon: Canon, t: Template, u: Template)
    requires NUL !in t.moduleId && NUL !in u.moduleId
    ensures KeyOf(canon, t) == KeyOf(canon, u)
       <==> && ModuleFamily(t.moduleId) == ModuleFamily(u.moduleId)
            && canon(ModuleFamily(t.moduleId), t.text) == canon(ModuleFamily(u.moduleId), u.text)
  {
    var f, g := ModuleFamily(t.moduleId), ModuleFamily(u.moduleId);
    TrimDigitsResult(t.moduleId);
    TrimDigitsResult(u.moduleId);
    assert NUL !in f && NUL !in g;
    CutOfJoin(f, canon(f, t.text), NUL);
    CutOfJoin(g, canon(g, u.text), NUL);
    hide ModuleFamily, Cut;
  }
}
