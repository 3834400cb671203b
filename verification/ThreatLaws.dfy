/** What the ingest sanitizer does to a batch, said of the reports' own strings and times. */
module ThreatLaws {
  import opened Model
  import opened Sorting
  import T = ThreatSanitize

  // ----- one report -----

  /** The same letters, capitals or not. */
  predicate Spells(s: string, word: string) {
    |s| == |word|
    && forall i :: 0 <= i < |s| ==> s[i] == word[i] || ('A' <= s[i] <= 'Z' && s[i] as int + 32 == word[i] as int)
  }

  predicate LowerCase(word: string) { forall i :: 0 <= i < |word| ==> !('A' <= word[i] <= 'Z') }

  lemma LowerMeans(s: string, word: string)
    requires LowerCase(word)
    ensures T.Lower(s) == word <==> Spells(s, word)
  {
    if T.Lower(s) == word {
      forall i | 0 <= i < |s| ensures s[i] == word[i] || ('A' <= s[i] <= 'Z' && s[i] as int + 32 == word[i] as int) {
        assert T.Lower(s)[i] == T.LowerByte(s[i]);
      }
    }
    if Spells(s, word) {
      forall i | 0 <= i < |s| ensures T.Lower(s)[i] == word[i] {
        assert s[i] == word[i] || ('A' <= s[i] <= 'Z' && s[i] as int + 32 == word[i] as int);
      }
    }
  }

  /** The node itself decided it: not a subscription, not an import. */
  predicate DecidedHere(origin: string) {
    Spells(origin, "crowdsec") || Spells(origin, "cscli") || Spells(origin, "banip")
  }

  /** When the report says it was made, in milliseconds; a clock more than a day fast counts as now. */
  function Dated(p: T.Parsers, now: int, d: T.Report): Option<int> {
    var at := p.time(TrimSpace(d.createdAt));
    if at.Some? && at.value > now + 86_400_000 then Some(now) else at
  }

  predicate Fresh(o: T.Options, now: int, at: Option<int>) {
    at.Some? && (o.maxAge > 0 ==> at.value >= now - o.maxAge)
  }

  /** A public unicast address, without a zone, and not the reporter's own. */
  predicate Attacker(p: T.Parsers, o: T.Options, a: T.Addr) {
    !a.scoped && p.isPublic(a.ip) && (o.source.None? || o.source.value != a.ip)
  }

  lemma JudgeMeans(p: T.Parsers, o: T.Options, now: int, d: T.Report)
    ensures var v, a, at := T.Judge(p, o, now, d), p.addr(TrimSpace(d.value)), Dated(p, now, d);
            && (v == T.BadKind <==> !Spells(d.kind, "ban"))
            && (v == T.BadScope <==> Spells(d.kind, "ban") && !Spells(d.scope, "ip"))
            && (v == T.BadOrigin <==> Spells(d.kind, "ban") && Spells(d.scope, "ip") && !DecidedHere(d.origin))
            && (v == T.BadAddress <==> Relevant(d) && a.None?)
            && (v == T.PrivateAddress <==> Relevant(d) && a.Some? && !Attacker(p, o, a.value))
            && (v == T.BadTime <==> Relevant(d) && a.Some? && Attacker(p, o, a.value) && !Fresh(o, now, at))
            && (v.Accept? <==> Relevant(d) && a.Some? && Attacker(p, o, a.value) && Fresh(o, now, at))
            && (v.Accept? ==> v.key == T.Key(a.value.ip, p.clean(d.scenario), at.value))
  {
    LowerMeans(d.kind, "ban");
    LowerMeans(d.scope, "ip");
    LowerMeans(d.origin, "crowdsec");
    LowerMeans(d.origin, "cscli");
    LowerMeans(d.origin, "banip");
    hide T.Lower, Spells, TrimSpace;
  }

  /** A local ban of one address. */
  predicate Relevant(d: T.Report) { Spells(d.kind, "ban") && Spells(d.scope, "ip") && DecidedHere(d.origin) }

  /** Every accepted report is a local ban of a public address, dated no more than a day ahead and not too old. */
  lemma AcceptedMeans(p: T.Parsers, o: T.Options, now: int, d: T.Report, k: T.Key)
    requires T.Judge(p, o, now, d) == T.Accept(k)
    ensures Spells(d.kind, "ban") && Spells(d.scope, "ip") && DecidedHere(d.origin)
    ensures p.isPublic(k.ip) && o.source != Some(k.ip) && p.addr(TrimSpace(d.value)) == Some(T.Addr(false, k.ip))
    ensures k.observedAt <= now + 86_400_000 && k.scenario == p.clean(d.scenario)
    ensures o.maxAge > 0 ==> k.observedAt >= now - o.maxAge
  {
    JudgeMeans(p, o, now, d);
    hide Spells, TrimSpace, T.Lower, T.LocalOrigin;
  }

  // ----- a batch -----

  /** The first reports of a batch, up to the cap: 500 if it is not set. */
  lemma TakenMeans(o: T.Options, ds: seq<T.Report>)
    ensures var most := if o.maxDecisions > 0 then o.maxDecisions else 500;
            T.Taken(o, ds) == if |ds| <= most then ds else ds[..most]
  {
  }

  function Judged(p: T.Parsers, o: T.Options, now: int, ds: seq<T.Report>, v: T.Verdict): set<int> {
    set i | 0 <= i < |ds| && T.Judge(p, o, now, ds[i]) == v
  }

  function Accepted(p: T.Parsers, o: T.Options, now: int, ds: seq<T.Report>): set<int> {
    set i | 0 <= i < |ds| && T.Judge(p, o, now, ds[i]).Accept?
  }

  lemma JudgedGrow(p: T.Parsers, o: T.Options, now: int, ds: seq<T.Report>, v: T.Verdict)
    requires ds != []
    ensures var init, n := ds[..|ds| - 1], |ds| - 1;
            && Judged(p, o, now, ds, v)
               == Judged(p, o, now, init, v) + (if T.Judge(p, o, now, ds[n]) == v then {n} else {})
            && n !in Judged(p, o, now, init, v)
  {
    hide T.Judge;
  }

  lemma AcceptedGrow(p: T.Parsers, o: T.Options, now: int, ds: seq<T.Report>)
    requires ds != []
    ensures var init, n := ds[..|ds| - 1], |ds| - 1;
            && Accepted(p, o, now, ds)
               == Accepted(p, o, now, init) + (if T.Judge(p, o, now, ds[n]).Accept? then {n} else {})
            && n !in Accepted(p, o, now, init)
  {
    hide T.Judge;
  }

  /** Each counter is the number of reports with that verdict. */
  lemma TallyMeans(p: T.Parsers, o: T.Options, now: int, ds: seq<T.Report>)
    ensures var c := T.Tally(p, o, now, ds);
            && c.accepted == |Accepted(p, o, now, ds)| && c.kind == |Judged(p, o, now, ds, T.BadKind)|
            && c.scope == |Judged(p, o, now, ds, T.BadScope)| && c.origin == |Judged(p, o, now, ds, T.BadOrigin)|
            && c.badIp == |Judged(p, o, now, ds, T.BadAddress)|
            && c.privateIp == |Judged(p, o, now, ds, T.PrivateAddress)|
            && c.time == |Judged(p, o, now, ds, T.BadTime)|
  {
    AcceptedAreCounted(p, o, now, ds);
    DroppedAreCounted(p, o, now, ds, T.BadKind);
    DroppedAreCounted(p, o, now, ds, T.BadScope);
    DroppedAreCounted(p, o, now, ds, T.BadOrigin);
    DroppedAreCounted(p, o, now, ds, T.BadAddress);
    DroppedAreCounted(p, o, now, ds, T.PrivateAddress);
    DroppedAreCounted(p, o, now, ds, T.BadTime);
    hide T.Judge, T.Tally, Judged, Accepted;
  }

  function Counter(c: T.Counters, v: T.Verdict): int {
    match v
    case Accept(_) => c.accepted
    case BadKind => c.kind
    case BadScope => c.scope
    case BadOrigin => c.origin
    case BadAddress => c.badIp
    case PrivateAddress => c.privateIp
    case BadTime => c.time
  }

  lemma {:induction false} DroppedAreCounted(p: T.Parsers, o: T.Options, now: int, ds: seq<T.Report>, v: T.Verdict)
    requires !v.Accept?
    ensures Counter(T.Tally(p, o, now, ds), v) == |Judged(p, o, now, ds, v)|
  {
    if ds != [] {
      var init, u := ds[..|ds| - 1], T.Judge(p, o, now, ds[|ds| - 1]);
      DroppedAreCounted(p, o, now, init, v);
      JudgedGrow(p, o, now, ds, v);
      CountedOnce(T.Tally(p, o, now, init), u, v);
      hide T.Judge, Judged, T.Counted, Counter;
    }
  }

  lemma CountedOnce(c: T.Counters, u: T.Verdict, v: T.Verdict)
    requires !v.Accept?
    ensures Counter(T.Counted(c, u), v) == Counter(c, v) + (if u == v then 1 else 0)
  {
  }

  lemma {:induction false} AcceptedAreCounted(p: T.Parsers, o: T.Options, now: int, ds: seq<T.Report>)
    ensures T.Tally(p, o, now, ds).accepted == |Accepted(p, o, now, ds)|
  {
    if ds != [] {
      AcceptedAreCounted(p, o, now, ds[..|ds| - 1]);
      AcceptedGrow(p, o, now, ds);
      hide T.Judge, Accepted;
    }
  }

  /** The first report accepted under the key. */
  predicate IsFirst(p: T.Parsers, o: T.Options, now: int, ds: seq<T.Report>, k: T.Key, i: int) {
    i in Judged(p, o, now, ds, T.Accept(k)) && forall j :: j in Judged(p, o, now, ds, T.Accept(k)) ==> i <= j
  }

  /** An event counts the reports accepted under its key, and takes the length of the ban from the first. */
  lemma MergedMeans(p: T.Parsers, o: T.Options, now: int, ds: seq<T.Report>, k: T.Key)
    ensures var m, from := T.Merged(p, o, now, ds), Judged(p, o, now, ds, T.Accept(k));
            && (k in m <==> from != {})
            && (k in m ==> m[k].key == k && m[k].hits == |from|
                           && exists i :: IsFirst(p, o, now, ds, k, i)
                                          && m[k].seconds == p.seconds(TrimSpace(ds[i].duration)))
  {
    HitsMean(p, o, now, ds, k);
    if k in T.Merged(p, o, now, ds) { var i := SecondsMean(p, o, now, ds, k); }
    hide T.Judge, T.Merged, Judged, IsFirst, TrimSpace;
  }

  lemma {:induction false} HitsMean(p: T.Parsers, o: T.Options, now: int, ds: seq<T.Report>, k: T.Key)
    ensures var m, from := T.Merged(p, o, now, ds), Judged(p, o, now, ds, T.Accept(k));
            (k in m <==> from != {}) && (k in m ==> m[k].key == k && m[k].hits == |from|)
  {
    if ds != [] {
      HitsMean(p, o, now, ds[..|ds| - 1], k);
      JudgedGrow(p, o, now, ds, T.Accept(k));
      hide T.Judge, Judged;
    }
  }

  lemma {:induction false} SecondsMean(p: T.Parsers, o: T.Options, now: int, ds: seq<T.Report>, k: T.Key)
    returns (i: int)
    requires k in T.Merged(p, o, now, ds)
    ensures IsFirst(p, o, now, ds, k, i)
    ensures T.Merged(p, o, now, ds)[k].seconds == p.seconds(TrimSpace(ds[i].duration))
  {
    hide T.Judge;
    var init, n := ds[..|ds| - 1], |ds| - 1;
    JudgedGrow(p, o, now, ds, T.Accept(k));
    if k in T.Merged(p, o, now, init) {
      i := SecondsMean(p, o, now, init, k);
      FirstStays(p, o, now, ds, k, i);
    } else {
      i := n;
      HitsMean(p, o, now, init, k);
    }
    hide Judged;
  }

  lemma FirstStays(p: T.Parsers, o: T.Options, now: int, ds: seq<T.Report>, k: T.Key, i: int)
    requires ds != [] && IsFirst(p, o, now, ds[..|ds| - 1], k, i)
    ensures IsFirst(p, o, now, ds, k, i) && i < |ds| - 1
  {
    hide T.Judge;
    var init := ds[..|ds| - 1];
    assert i in Judged(p, o, now, init, T.Accept(k));
    JudgedGrow(p, o, now, ds, T.Accept(k));
    assert i < |ds| - 1;
    hide Judged;
  }

  /** By address, then scenario, then time. */
  predicate Before(a: T.Key, b: T.Key) {
    || StringLess(a.ip, b.ip)
    || (a.ip == b.ip && StringLess(a.scenario, b.scenario))
    || (a.ip == b.ip && a.scenario == b.scenario && a.observedAt < b.observedAt)
  }

  /** The events of a batch: one for each key with an accepted report, counting them, and in order. */
  lemma SanitizedMeans(p: T.Parsers, o: T.Options, now: int, ds: seq<T.Report>, r: T.Result, k: T.Key)
    requires T.Sanitized(p, o, now, ds, r)
    ensures var from := Judged(p, o, now, T.Taken(o, ds), T.Accept(k));
            && (from != {} <==> k in T.Keys(r.events))
            && (forall i :: 0 <= i < |r.events| && r.events[i].key == k ==> r.events[i].hits == |from|)
    ensures forall i, j :: 0 <= i < j < |r.events| ==> Before(r.events[i].key, r.events[j].key)
  {
    hide T.Judge;
    var taken := T.Taken(o, ds);
    MergedMeans(p, o, now, taken, k);
    InOrderMeans(r.events);
    hide T.Merged, T.Tally, T.KeyLess, Before, Judged, T.Taken;
    forall i | 0 <= i < |r.events| && r.events[i].key == k
      ensures r.events[i].hits == T.Merged(p, o, now, taken)[k].hits {
      assert r.events[i] in r.events;
    }
    if k in T.Keys(r.events) {
      var i :| 0 <= i < |r.events| && T.Keys(r.events)[i] == k;
      assert r.events[i] in r.events;
    }
  }

  /** The counters of a batch: for each kind of drop the reports dropped so, and those past the cap. */
  lemma CountersMean(p: T.Parsers, o: T.Options, now: int, ds: seq<T.Report>, r: T.Result)
    requires T.Sanitized(p, o, now, ds, r)
    ensures var taken, c := T.Taken(o, ds), r.counters;
            && c.truncated == |ds| - |taken|
            && c.accepted == |Accepted(p, o, now, taken)| && c.kind == |Judged(p, o, now, taken, T.BadKind)|
            && c.scope == |Judged(p, o, now, taken, T.BadScope)|
            && c.origin == |Judged(p, o, now, taken, T.BadOrigin)|
            && c.badIp == |Judged(p, o, now, taken, T.BadAddress)|
            && c.privateIp == |Judged(p, o, now, taken, T.PrivateAddress)|
            && c.time == |Judged(p, o, now, taken, T.BadTime)|
  {
    TallyMeans(p, o, now, T.Taken(o, ds));
    hide T.Judge, T.Merged, T.Tally, Judged, Accepted, T.Taken, T.KeyLess;
  }

  lemma InOrderMeans(events: seq<T.Event>)
    requires StrictlySorted(T.Keys(events), T.KeyLess)
    ensures forall i, j :: 0 <= i < j < |events| ==> Before(events[i].key, events[j].key)
  {
    StringLessTotal();
    forall i, j | 0 <= i < j < |events| ensures Before(events[i].key, events[j].key) {
      assert T.KeyLess(T.Keys(events)[i], T.Keys(events)[j]);
    }
  }
}
