/** The ingest sanitizer: every reported decision becomes part of an event or counts as one kind of drop. */
module ThreatSanitize {
  import opened Model
  import opened Sets
  import opened Sorting
  import Consensus
  import ThreatStore

  const DEFAULT_MAX_DECISIONS := 500
  const MAX_CLOCK_SKEW := 24 * 60 * 60 * 1000

  datatype Report = Report(kind: string, scope: string, origin: string, value: string, createdAt: string,
                           scenario: string, duration: string)

  /** A parsed address: whether it carried a zone, and its unmapped spelling. */
  datatype Addr = Addr(scoped: bool, ip: string)

  /** The parsers of the standard library, and the range tables of publicUnicast. */
  datatype Parsers = Parsers(addr: string -> Option<Addr>, isPublic: string -> bool, time: string -> Option<int>,
                             clean: string -> string, seconds: string -> Option<int>)

  /** source is the reporter's own address, unmapped, when it is valid. */
  datatype Options = Options(source: Option<string>, maxDecisions: int, maxAge: int)

  datatype Key = Key(ip: string, scenario: string, observedAt: int)

  datatype Event = Event(key: Key, hits: int, seconds: Option<int>)

  datatype Counters = Counters(truncated: int, accepted: int, kind: int, scope: int, origin: int, badIp: int,
                               privateIp: int, time: int)

  datatype Result = Result(events: seq<Event>, counters: Counters)

  // ----- one decision -----

  function LowerByte(c: char): char { if 'A' <= c <= 'Z' then c - 'A' + 'a' else c }

  function Lower(s: string): string { seq(|s|, i requires 0 <= i < |s| => LowerByte(s[i])) }

  predicate LocalOrigin(s: string) { s == "crowdsec" || s == "cscli" || s == "banip" }

  /** Too far ahead is clamped to now, too old is dropped. */
  function ObservedAt(p: Parsers, raw: string, now: int, maxAge: int): Option<int> {
    match p.time(TrimSpace(raw))
    case None => None
    case Some(ms) =>
      if ms > now + MAX_CLOCK_SKEW then Some(now)
      else if maxAge > 0 && ms < now - maxAge then None
      else Some(ms)
  }

  datatype Verdict = Accept(key: Key) | BadKind | BadScope | BadOrigin | BadAddress | PrivateAddress | BadTime

  predicate Acceptable(p: Parsers, o: Options, a: Addr) { !a.scoped && p.isPublic(a.ip) && o.source != Some(a.ip) }

  function Judge(p: Parsers, o: Options, now: int, d: Report): Verdict {
    if Lower(d.kind) != "ban" then BadKind
    else if Lower(d.scope) != "ip" then BadScope
    else if !LocalOrigin(Lower(d.origin)) then BadOrigin
    else match p.addr(TrimSpace(d.value))
         case None => BadAddress
         case Some(a) =>
           if !Acceptable(p, o, a) then PrivateAddress
           else match ObservedAt(p, d.createdAt, now, o.maxAge)
                case None => BadTime
                case Some(t) => Accept(Key(a.ip, p.clean(d.scenario), t))
  }

  // ----- a batch -----

  const NO_COUNTS := Counters(0, 0, 0, 0, 0, 0, 0, 0)

  function Counted(c: Counters, v: Verdict): Counters {
    match v
    case Accept(_) => c.(accepted := c.accepted + 1)
    case BadKind => c.(kind := c.kind + 1)
    case BadScope => c.(scope := c.scope + 1)
    case BadOrigin => c.(origin := c.origin + 1)
    case BadAddress => c.(badIp := c.badIp + 1)
    case PrivateAddress => c.(privateIp := c.privateIp + 1)
    case BadTime => c.(time := c.time + 1)
  }

  function Tally(p: Parsers, o: Options, now: int, ds: seq<Report>): Counters {
    if ds == [] then NO_COUNTS else Counted(Tally(p, o, now, ds[..|ds| - 1]), Judge(p, o, now, ds[|ds| - 1]))
  }

  /** The first decision of a key brings the metadata, every one a hit. */
  function MergedWith(m: map<Key, Event>, v: Verdict, seconds: Option<int>): map<Key, Event> {
    match v
    case Accept(k) => m[k := if k in m then m[k].(hits := m[k].hits + 1) else Event(k, 1, seconds)]
    case _ => m
  }

  function Merged(p: Parsers, o: Options, now: int, ds: seq<Report>): map<Key, Event> {
    if ds == [] then map[]
    else MergedWith(Merged(p, o, now, ds[..|ds| - 1]), Judge(p, o, now, ds[|ds| - 1]),
                    p.seconds(TrimSpace(ds[|ds| - 1].duration)))
  }

  function Cap(o: Options): int { if o.maxDecisions <= 0 then DEFAULT_MAX_DECISIONS else o.maxDecisions }

  function Taken(o: Options, ds: seq<Report>): seq<Report> { if |ds| > Cap(o) then ds[..Cap(o)] else ds }

  predicate KeyLess(a: Key, b: Key) {
    if a.ip != b.ip then StringLess(a.ip, b.ip)
    else if a.scenario != b.scenario then StringLess(a.scenario, b.scenario)
    else a.observedAt < b.observedAt
  }

  function Keys(events: seq<Event>): seq<Key> { seq(|events|, i requires 0 <= i < |events| => events[i].key) }

  /** The sanitized batch: the merged events in key order, the tally of what was taken, and how much was not. */
  ghost predicate Sanitized(p: Parsers, o: Options, now: int, ds: seq<Report>, r: Result) {
    var taken := Taken(o, ds);
    && r.counters == Tally(p, o, now, taken).(truncated := |ds| - |taken|)
    && StrictlySorted(Keys(r.events), KeyLess)
    && (forall e :: e in r.events ==> e.key in Merged(p, o, now, taken) && Merged(p, o, now, taken)[e.key] == e)
    && (forall k :: k in Merged(p, o, now, taken) ==> k in Keys(r.events))
  }

  lemma KeyLessTotal()
    ensures TotalOrder(KeyLess)
  {
    StringLessTotal();
    forall x: Key, y: Key | x != y ensures KeyLess(x, y) || KeyLess(y, x) {
      assert x.ip != y.ip ==> StringLess(x.ip, y.ip) || StringLess(y.ip, x.ip);
      assert x.scenario != y.scenario ==> StringLess(x.scenario, y.scenario) || StringLess(y.scenario, x.scenario);
    }
    forall x: Key, y: Key, z: Key | KeyLess(x, y) && KeyLess(y, z) ensures KeyLess(x, z) { KeyLessTransitive(x, y, z); }
  }

  lemma KeyLessTransitive(x: Key, y: Key, z: Key)
    requires TotalOrder(StringLess) && KeyLess(x, y) && KeyLess(y, z)
    ensures KeyLess(x, z)
  {
    if x.ip != y.ip && y.ip != z.ip {
      assert StringLess(x.ip, z.ip) && !StringLess(z.ip, x.ip);
    } else if x.ip == y.ip == z.ip && x.scenario != y.scenario && y.scenario != z.scenario {
      assert StringLess(x.scenario, z.scenario) && !StringLess(z.scenario, x.scenario);
    }
  }

  method Sanitize(p: Parsers, o: Options, now: int, ds: seq<Report>) returns (r: Result)
    ensures Sanitized(p, o, now, ds, r)
  {
    hide Judge, Merged;
    var max := o.maxDecisions;
    if max <= 0 { max := DEFAULT_MAX_DECISIONS; }
    var counters := NO_COUNTS;
    var decisions := ds;
    if |decisions| > max {
      counters := counters.(truncated := |decisions| - max);
      decisions := decisions[..max];
    }
    var merged: map<Key, Event> := map[];
    counters, merged := Fold(p, o, now, decisions, counters);
    KeyLessTotal();
    var keys := InOrder(merged.Keys, KeyLess);
    var events: seq<Event> := [];
    MergedByKey(p, o, now, decisions);
    for i := 0 to |keys|
      invariant |events| == i && forall j :: 0 <= j < i ==> keys[j] in merged && events[j] == merged[keys[j]]
    {
      assert keys[i] in keys;
      events := events + [merged[keys[i]]];
    }
    assert Keys(events) == keys;
    r := Result(events, counters);
  }

  /** The loop over the decisions. */
  method Fold(p: Parsers, o: Options, now: int, ds: seq<Report>, start: Counters)
    returns (counters: Counters, merged: map<Key, Event>)
    requires start == NO_COUNTS.(truncated := start.truncated)
    ensures counters == Tally(p, o, now, ds).(truncated := start.truncated) && merged == Merged(p, o, now, ds)
  {
    hide Judge;
    counters, merged := start, map[];
    for i := 0 to |ds|
      invariant counters == Tally(p, o, now, ds[..i]).(truncated := start.truncated)
      invariant merged == Merged(p, o, now, ds[..i])
    {
      assert ds[..i + 1][..i] == ds[..i];
      var v := Decide(p, o, now, ds[i]);
      counters := Counted(counters, v);
      if v.Accept? {
        if v.key in merged {
          merged := merged[v.key := merged[v.key].(hits := merged[v.key].hits + 1)];
        } else {
          merged := merged[v.key := Event(v.key, 1, p.seconds(TrimSpace(ds[i].duration)))];
        }
      }
    }
    assert ds[..|ds|] == ds;
  }

  /** The filters in order; the first that objects decides. */
  method Decide(p: Parsers, o: Options, now: int, d: Report) returns (v: Verdict)
    ensures v == Judge(p, o, now, d)
  {
    if Lower(d.kind) != "ban" { return BadKind; }
    if Lower(d.scope) != "ip" { return BadScope; }
    if !LocalOrigin(Lower(d.origin)) { return BadOrigin; }
    var parsed := p.addr(TrimSpace(d.value));
    if parsed.None? { return BadAddress; }
    var a := parsed.value;
    if a.scoped || !p.isPublic(a.ip) || (o.source.Some? && a.ip == o.source.value) { return PrivateAddress; }
    var t := ObservedAt(p, d.createdAt, now, o.maxAge);
    if t.None? { return BadTime; }
    return Accept(Key(a.ip, p.clean(d.scenario), t.value));
  }

  lemma {:induction false} MergedByKey(p: Parsers, o: Options, now: int, ds: seq<Report>)
    ensures forall k :: k in Merged(p, o, now, ds) ==> Merged(p, o, now, ds)[k].key == k
  {
    if ds != [] { MergedByKey(p, o, now, ds[..|ds| - 1]); }
  }

  // ----- conservation -----

  function Total(c: Counters): int {
    c.truncated + c.accepted + c.kind + c.scope + c.origin + c.badIp + c.privateIp + c.time
  }

  lemma {:induction false} TallyCountsAll(p: Parsers, o: Options, now: int, ds: seq<Report>)
    ensures Total(Tally(p, o, now, ds)) == |ds| && Tally(p, o, now, ds).truncated == 0
  {
    hide Judge;
    if ds != [] { TallyCountsAll(p, o, now, ds[..|ds| - 1]); }
  }

  function HitsIn(m: map<Key, Event>): Key -> int { (k: Key) => if k in m then m[k].hits else 0 }

  lemma {:induction false} HitsAreAccepted(p: Parsers, o: Options, now: int, ds: seq<Report>)
    ensures var m := Merged(p, o, now, ds); Sum(m.Keys, HitsIn(m)) == Tally(p, o, now, ds).accepted
  {
    hide Judge;
    if ds != [] {
      var init := ds[..|ds| - 1];
      HitsAreAccepted(p, o, now, init);
      var v := Judge(p, o, now, ds[|ds| - 1]);
      if v.Accept? { OneMoreHit(Merged(p, o, now, init), Merged(p, o, now, ds), v.key); }
    }
  }

  lemma OneMoreHit(m: map<Key, Event>, m': map<Key, Event>, k: Key)
    requires m'.Keys == m.Keys + {k} && m'[k].hits == HitsIn(m)(k) + 1
    requires forall j :: j in m && j != k ==> m'[j] == m[j]
    ensures Sum(m'.Keys, HitsIn(m')) == Sum(m.Keys, HitsIn(m)) + 1
  {
    var rest := m.Keys - {k};
    SumSame(rest, HitsIn(m), HitsIn(m'));
    SumInsert(rest, k, HitsIn(m'));
    assert rest + {k} == m'.Keys;
    if k in m {
      SumInsert(rest, k, HitsIn(m));
      assert rest + {k} == m.Keys;
    } else {
      assert rest == m.Keys;
    }
  }

  function HitSum(events: seq<Event>): int {
    if events == [] then 0 else HitSum(events[..|events| - 1]) + events[|events| - 1].hits
  }

  lemma DistinctInit(init: seq<Key>, last: Key)
    requires Distinct(init + [last])
    ensures Distinct(init) && last !in init
  {
    var all := init + [last];
    assert forall i :: 0 <= i < |init| ==> all[i] == init[i] && all[i] != all[|init|];
  }

  lemma {:induction false} SeqSum(events: seq<Event>, m: map<Key, Event>, keys: set<Key>)
    requires Distinct(Keys(events)) && (forall k :: k in keys <==> k in Keys(events))
    requires forall e :: e in events ==> e.key in m && m[e.key] == e
    ensures HitSum(events) == Sum(keys, HitsIn(m))
  {
    if events == [] {
      assert keys == {};
    } else {
      var init, last := events[..|events| - 1], events[|events| - 1];
      assert last in events && forall e :: e in init ==> e in events;
      assert Keys(events) == Keys(init) + [last.key];
      DistinctInit(Keys(init), last.key);
      SeqSum(init, m, keys - {last.key});
      SumInsert(keys - {last.key}, last.key, HitsIn(m));
      assert keys - {last.key} + {last.key} == keys;
    }
  }

  /** Nothing is lost and nothing counted twice: the counters account for every decision, the hits of the events
      for every accepted one, and no two events share a key. */
  lemma SanitizeConserves(p: Parsers, o: Options, now: int, ds: seq<Report>, r: Result)
    requires Sanitized(p, o, now, ds, r)
    ensures Total(r.counters) == |ds|
    ensures r.counters.truncated == if |ds| > Cap(o) then |ds| - Cap(o) else 0
    ensures HitSum(r.events) == r.counters.accepted
    ensures Distinct(Keys(r.events))
  {
    hide Judge, Merged, Tally;
    var taken := Taken(o, ds);
    var m := Merged(p, o, now, taken);
    TallyCountsAll(p, o, now, taken);
    HitsAreAccepted(p, o, now, taken);
    KeyLessTotal();
    StrictIsDistinct(Keys(r.events), KeyLess);
    forall k | k in Keys(r.events) ensures k in m.Keys {
      var i :| 0 <= i < |r.events| && r.events[i].key == k;
      assert r.events[i] in r.events;
    }
    SeqSum(r.events, m, m.Keys);
  }

  /** Some taken decision was accepted under this key. */
  ghost predicate Earned(p: Parsers, o: Options, now: int, ds: seq<Report>, k: Key) {
    exists d :: d in ds && Judge(p, o, now, d) == Accept(k)
  }

  lemma {:induction false} MergedIsEarned(p: Parsers, o: Options, now: int, ds: seq<Report>, k: Key)
    ensures k in Merged(p, o, now, ds) <==> Earned(p, o, now, ds, k)
  {
    hide Judge;
    if ds != [] {
      var init, last := ds[..|ds| - 1], ds[|ds| - 1];
      MergedIsEarned(p, o, now, init, k);
      assert forall d :: d in ds <==> d in init || d == last;
    }
  }

  /** Every event names a public address other than the reporter's, at a time a consensus window can hold. */
  lemma EventsAreCredible(p: Parsers, o: Options, now: int, ds: seq<Report>, r: Result, e: Event)
    requires Sanitized(p, o, now, ds, r) && e in r.events
    ensures p.isPublic(e.key.ip) && o.source != Some(e.key.ip)
    ensures e.key.observedAt <= now + MAX_CLOCK_SKEW && (o.maxAge > 0 ==> e.key.observedAt >= now - o.maxAge)
    ensures Earned(p, o, now, Taken(o, ds), e.key)
  {
    MergedIsEarned(p, o, now, Taken(o, ds), e.key);
    var d :| d in Taken(o, ds) && Judge(p, o, now, d) == Accept(e.key);
  }

  // ----- storing a batch again -----

  function Rows(events: seq<Event>): seq<ThreatStore.NewEvent> {
    seq(|events|, i requires 0 <= i < |events| =>
      ThreatStore.NewEvent(events[i].key.ip, events[i].key.scenario, events[i].key.observedAt, events[i].hits))
  }

  /** Storing the same sanitized events again changes no row, hence no candidate. */
  lemma StoringAgainChangesNothing(stored: Consensus.Events, systemId: string, events: seq<Event>)
    ensures ThreatStore.Inserted(ThreatStore.Inserted(stored, systemId, Rows(events)), systemId, Rows(events))
         == ThreatStore.Inserted(stored, systemId, Rows(events))
  {
    ThreatStore.RedeliveryChangesNothing(stored, systemId, Rows(events), Rows(events));
  }

  /** Dated more than a day ahead of its delivery at now: stored as of now instead. */
  predicate Clamped(p: Parsers, now: int, d: Report) {
    var t := p.time(TrimSpace(d.createdAt));
    t.Some? && t.value > now + MAX_CLOCK_SKEW
  }

  /** The decision names the address it was reported from, so it is dropped. */
  predicate OwnAddress(p: Parsers, o: Options, d: Report) {
    var a := p.addr(TrimSpace(d.value));
    a.Some? && o.source == Some(a.value.ip)
  }

  /** The same service's options for a request from another address. */
  function From(o: Options, source: Option<string>): Options { o.(source := source) }

  /** A decision sent again later, from wherever, falls on its old event exactly when its time was not clamped the
      first time. */
  lemma ResendFallsOnTheSameEventIff(p: Parsers, o: Options, source: Option<string>, now: int, later: int, d: Report)
    requires now < later && Judge(p, o, now, d).Accept? && Judge(p, From(o, source), later, d).Accept?
    ensures Judge(p, From(o, source), later, d) == Judge(p, o, now, d) <==> !Clamped(p, now, d)
  {
    var a := p.addr(TrimSpace(d.value)).value;
    assert Judge(p, o, now, d).key.observedAt == ObservedAt(p, d.createdAt, now, o.maxAge).value;
  }

  /** A decision accepted again was accepted before, unless it was the first reporter's own address: one too old
      stays too old. */
  lemma AcceptedAgain(p: Parsers, o: Options, source: Option<string>, now: int, later: int, d: Report)
    requires now <= later && Judge(p, From(o, source), later, d).Accept?
    ensures Judge(p, o, now, d).Accept? <==> !OwnAddress(p, o, d)
    ensures !OwnAddress(p, o, d) && !Clamped(p, now, d) ==> Judge(p, From(o, source), later, d) == Judge(p, o, now, d)
    ensures source == o.source ==> !OwnAddress(p, o, d)
  {
  }

  /** The row an event becomes. */
  function RowOf(systemId: string, k: Key): Consensus.Sighting {
    Consensus.Sighting(systemId, k.ip, k.scenario, k.observedAt)
  }

  function KeyAt(x: Consensus.Sighting): Key { Key(x.ip, x.scenario, x.observedAt) }

  function Stored(stored: Consensus.Events, systemId: string, r: Result): Consensus.Events {
    ThreatStore.Inserted(stored, systemId, Rows(r.events))
  }

  /** The rows after a delivery: those before it, and one for every key some taken decision was accepted under. */
  lemma StoredKeys(p: Parsers, o: Options, now: int, ds: seq<Report>, r: Result, stored: Consensus.Events,
                   systemId: string)
    requires Sanitized(p, o, now, ds, r)
    ensures forall x :: x in Stored(stored, systemId, r)
                   <==> x in stored || (x.systemId == systemId && Earned(p, o, now, Taken(o, ds), KeyAt(x)))
  {
    hide Judge, Merged, Earned, Tally;
    var taken, rows := Taken(o, ds), Rows(r.events);
    ThreatStore.InsertedKeys(stored, systemId, rows);
    forall k ensures k in Keys(r.events) <==> Earned(p, o, now, taken, k) {
      MergedIsEarned(p, o, now, taken, k);
      if k in Keys(r.events) {
        var i :| 0 <= i < |r.events| && r.events[i].key == k;
        assert r.events[i] in r.events;
      }
    }
    forall x ensures x in Stored(stored, systemId, r)
                <==> x in stored || (x.systemId == systemId && KeyAt(x) in Keys(r.events)) {
      RowsByKey(r.events, systemId, x);
    }
  }

  lemma RowsByKey(events: seq<Event>, systemId: string, x: Consensus.Sighting)
    ensures (exists e :: e in Rows(events) && ThreatStore.KeyOfEvent(systemId, e) == x)
       <==> x.systemId == systemId && KeyAt(x) in Keys(events)
  {
    if e :| e in Rows(events) && ThreatStore.KeyOfEvent(systemId, e) == x {
      var i :| 0 <= i < |events| && Rows(events)[i] == e;
      assert Keys(events)[i] == KeyAt(x);
    }
    if x.systemId == systemId && KeyAt(x) in Keys(events) {
      var i :| 0 <= i < |events| && Keys(events)[i] == KeyAt(x);
      assert Rows(events)[i] in Rows(events) && ThreatStore.KeyOfEvent(systemId, Rows(events)[i]) == x;
    }
  }

  lemma {:induction false} MergedHasHits(p: Parsers, o: Options, now: int, ds: seq<Report>)
    ensures forall k :: k in Merged(p, o, now, ds) ==> Merged(p, o, now, ds)[k].hits >= 1
  {
    hide Judge;
    if ds != [] { MergedHasHits(p, o, now, ds[..|ds| - 1]); }
  }

  /** A decision whose second verdict may differ from its first. */
  predicate Moves(p: Parsers, o: Options, now: int, d: Report) { Clamped(p, now, d) || OwnAddress(p, o, d) }

  /** No such decision of the batch comes back under a row the table does not have. */
  predicate MovesAreStored(p: Parsers, o: Options, source: Option<string>, now: int, later: int, taken: seq<Report>,
                           stored: Consensus.Events, systemId: string) {
    forall d :: d in taken && Moves(p, o, now, d) && Judge(p, From(o, source), later, d).Accept?
                ==> RowOf(systemId, Judge(p, From(o, source), later, d).key) in stored
  }

  /** A whole batch delivered at now and again later, from the same address or another, whatever the table held and
      however the keys merge: the second delivery changes the table if and only if some decision that was clamped the
      first time, or named the address it was sent from, is accepted now under a row not there. So with nothing
      clamped a retry from the same address changes nothing. */
  lemma ResendChangesNothingIff(p: Parsers, o: Options, source: Option<string>, now: int, later: int, ds: seq<Report>,
                                first: Result, again: Result, stored: Consensus.Events, systemId: string)
    requires now <= later && Sanitized(p, o, now, ds, first) && Sanitized(p, From(o, source), later, ds, again)
    ensures var once := Stored(stored, systemId, first);
            (Stored(once, systemId, again) == once)
            <==> MovesAreStored(p, o, source, now, later, Taken(o, ds), once, systemId)
    ensures source == o.source && (forall d :: d in Taken(o, ds) ==> !Clamped(p, now, d))
            ==> Stored(Stored(stored, systemId, first), systemId, again) == Stored(stored, systemId, first)
  {
    var taken, once := Taken(o, ds), Stored(stored, systemId, first);
    hide Judge, Sanitized, Stored, Clamped, OwnAddress;
    if source == o.source && (forall d :: d in taken ==> !Clamped(p, now, d)) {
      forall d | d in taken && Judge(p, From(o, source), later, d).Accept? ensures !Moves(p, o, now, d) {
        AcceptedAgain(p, o, source, now, later, d);
      }
      assert MovesAreStored(p, o, source, now, later, taken, once, systemId);
    }
    if MovesAreStored(p, o, source, now, later, taken, once, systemId) {
      ResendIsStored(p, o, source, now, later, ds, first, again, stored, systemId);
    } else {
      ResendIsMissing(p, o, source, now, later, ds, again, once, systemId);
    }
  }

  lemma ResendIsStored(p: Parsers, o: Options, source: Option<string>, now: int, later: int, ds: seq<Report>,
                       first: Result, again: Result, stored: Consensus.Events, systemId: string)
    requires now <= later && Sanitized(p, o, now, ds, first) && Sanitized(p, From(o, source), later, ds, again)
    requires MovesAreStored(p, o, source, now, later, Taken(o, ds), Stored(stored, systemId, first), systemId)
    ensures Stored(Stored(stored, systemId, first), systemId, again) == Stored(stored, systemId, first)
  {
    hide Judge, Sanitized, Stored, Clamped, OwnAddress;
    var taken, once := Taken(o, ds), Stored(stored, systemId, first);
    assert Taken(From(o, source), ds) == taken;
    StoredKeys(p, o, now, ds, first, stored, systemId);
    StoredKeys(p, From(o, source), later, ds, again, once, systemId);
    StoredKeeps(once, systemId, again);
    forall x: Consensus.Sighting | x.systemId == systemId && Earned(p, From(o, source), later, taken, KeyAt(x))
      ensures x in once {
      var d :| d in taken && Judge(p, From(o, source), later, d) == Accept(KeyAt(x));
      AcceptedAgain(p, o, source, now, later, d);
      if !Moves(p, o, now, d) { assert Earned(p, o, now, taken, KeyAt(x)); }
    }
    assert Stored(once, systemId, again).Keys == once.Keys;
  }

  lemma ResendIsMissing(p: Parsers, o: Options, source: Option<string>, now: int, later: int, ds: seq<Report>,
                        again: Result, once: Consensus.Events, systemId: string)
    requires Sanitized(p, From(o, source), later, ds, again)
    requires !MovesAreStored(p, o, source, now, later, Taken(o, ds), once, systemId)
    ensures Stored(once, systemId, again) != once
  {
    hide Judge, Sanitized, Stored, Clamped, OwnAddress;
    var o', taken := From(o, source), Taken(o, ds);
    assert Taken(o', ds) == taken;
    StoredKeys(p, o', later, ds, again, once, systemId);
    var d :| d in taken && Moves(p, o, now, d) && Judge(p, o', later, d).Accept?
             && RowOf(systemId, Judge(p, o', later, d).key) !in once;
    var k := Judge(p, o', later, d).key;
    assert KeyAt(RowOf(systemId, k)) == k && Earned(p, o', later, taken, k);
    assert RowOf(systemId, k) in Stored(once, systemId, again);
  }

  lemma StoredKeeps(stored: Consensus.Events, systemId: string, r: Result)
    ensures stored.Keys <= Stored(stored, systemId, r).Keys
    ensures forall x :: x in stored ==> Stored(stored, systemId, r)[x] == stored[x]
  {
    ThreatStore.InsertIsIngest(stored, systemId, Rows(r.events));
  }

  lemma {:induction false} NewRowsHaveHits(stored: Consensus.Events, systemId: string, ev: seq<ThreatStore.NewEvent>)
    requires forall e :: e in ev ==> e.hits >= 1
    ensures var after := ThreatStore.Inserted(stored, systemId, ev);
            forall x :: x in after && x !in stored ==> after[x] >= 1
  {
    if ev != [] {
      assert ev[|ev| - 1] in ev;
      NewRowsHaveHits(stored, systemId, ev[..|ev| - 1]);
    }
  }

  /** Where a retry does change the table, inside the window, it adds hits to the candidate of the decision's pair;
      if the decision was accepted before, the reporter had that candidate already. */
  lemma ResendAddsHits(p: Parsers, o: Options, source: Option<string>, now: int, later: int, ds: seq<Report>,
                       first: Result, again: Result, stored: Consensus.Events, systemId: string, since: int,
                       rows: seq<ThreatStore.Candidate>, more: seq<ThreatStore.Candidate>, d: Report)
    requires now <= later && Sanitized(p, o, now, ds, first) && Sanitized(p, From(o, source), later, ds, again)
    requires d in Taken(o, ds) && Moves(p, o, now, d) && Judge(p, From(o, source), later, d).Accept?
    requires RowOf(systemId, Judge(p, From(o, source), later, d).key) !in Stored(stored, systemId, first)
    requires since <= now && since <= Judge(p, From(o, source), later, d).key.observedAt
    requires var once := Stored(stored, systemId, first);
             && ThreatStore.AreCandidates(rows, once, since)
             && ThreatStore.AreCandidates(more, Stored(once, systemId, again), since)
    ensures var t := ThreatStore.TripleOf(RowOf(systemId, Judge(p, From(o, source), later, d).key));
            && (exists r :: r in more && r.key == t && forall q :: q in rows && q.key == t ==> q.hits < r.hits)
            && (!OwnAddress(p, o, d) ==> exists q :: q in rows && q.key == t)
  {
    var o' := From(o, source);
    AcceptedAgain(p, o, source, now, later, d);
    if !OwnAddress(p, o, d) { LaterKeyIsRecent(p, o, source, now, later, d); }
    hide ThreatStore.AreCandidates, Judge, Sanitized, Stored, Clamped, OwnAddress, Rows, ThreatStore.Inserted;
    var once, x := Stored(stored, systemId, first), RowOf(systemId, Judge(p, o', later, d).key);
    assert Taken(o', ds) == Taken(o, ds);
    StoredKeys(p, o', later, ds, again, once, systemId);
    assert KeyAt(x) == Judge(p, o', later, d).key && Earned(p, o', later, Taken(o, ds), KeyAt(x));
    StoredKeeps(once, systemId, again);
    StoredHasHits(p, o', later, ds, again, once, systemId);
    var r := ThreatStore.NewRowShows(once, Stored(once, systemId, again), since, x, rows, more);
    if !OwnAddress(p, o, d) {
      StoredKeys(p, o, now, ds, first, stored, systemId);
      var x' := x.(observedAt := now);
      assert Earned(p, o, now, Taken(o, ds), KeyAt(x')) && x' in once;
      var q := ThreatStore.CandidateOf(rows, once, since, x');
    }
  }

  lemma LaterKeyIsRecent(p: Parsers, o: Options, source: Option<string>, now: int, later: int, d: Report)
    requires now <= later && Judge(p, From(o, source), later, d).Accept?
    requires Moves(p, o, now, d) && !OwnAddress(p, o, d)
    ensures Judge(p, o, now, d) == Accept(Judge(p, From(o, source), later, d).key.(observedAt := now))
  {
  }

  lemma StoredHasHits(p: Parsers, o: Options, now: int, ds: seq<Report>, r: Result, stored: Consensus.Events,
                      systemId: string)
    requires Sanitized(p, o, now, ds, r)
    ensures forall x :: x in Stored(stored, systemId, r) && x !in stored ==> Stored(stored, systemId, r)[x] >= 1
  {
    EventsHaveHits(p, o, now, ds, r);
    NewRowsHaveHits(stored, systemId, Rows(r.events));
    hide Sanitized;
  }

  lemma EventsHaveHits(p: Parsers, o: Options, now: int, ds: seq<Report>, r: Result)
    requires Sanitized(p, o, now, ds, r)
    ensures forall e :: e in Rows(r.events) ==> e.hits >= 1
  {
    hide Judge, Merged;
    MergedHasHits(p, o, now, Taken(o, ds));
    forall e | e in Rows(r.events) ensures e.hits >= 1 {
      var i :| 0 <= i < |r.events| && Rows(r.events)[i] == e;
      assert r.events[i] in r.events;
    }
  }

  // ----- retries that add a row -----

  /** A local ban of 192.0.2.1, dated the fifth of January 1970, four days after the epoch. */
  const BAN := Report("ban", "ip", "crowdsec", "192.0.2.1", "1970-01-05T00:00:00Z", "ssh", "4h")

  /** The parsers read that report as it stands. */
  ghost predicate ReadsBan(p: Parsers) {
    && p.addr("192.0.2.1") == Some(Addr(false, "192.0.2.1")) && p.isPublic("192.0.2.1")
    && p.time("1970-01-05T00:00:00Z") == Some(4 * MAX_CLOCK_SKEW)
  }

  function BanAt(p: Parsers, at: int): Key { Key("192.0.2.1", p.clean("ssh"), at) }

  lemma BanIsJudged(p: Parsers, o: Options, now: int)
    requires ReadsBan(p)
    ensures o.source == Some("192.0.2.1") ==> Judge(p, o, now, BAN) == PrivateAddress
    ensures o.source != Some("192.0.2.1") && now < 3 * MAX_CLOCK_SKEW ==> Judge(p, o, now, BAN) == Accept(BanAt(p, now))
    ensures o.source != Some("192.0.2.1") && now == 4 * MAX_CLOCK_SKEW && o.maxAge >= 0
            ==> Judge(p, o, now, BAN) == Accept(BanAt(p, now))
  {
    assert Lower("ban") == "ban" && Lower("ip") == "ip" && Lower("crowdsec") == "crowdsec";
    assert TrimSpace(BAN.value) == BAN.value && TrimSpace(BAN.createdAt) == BAN.createdAt;
    hide TrimSpace, Lower;
  }

  lemma OnlyBanEarned(p: Parsers, o: Options, now: int, k: Key)
    ensures Taken(o, [BAN]) == [BAN]
    ensures Earned(p, o, now, [BAN], k) <==> Judge(p, o, now, BAN) == Accept(k)
  {
    hide Judge;
    assert BAN in [BAN];
  }

  /** One report from a clock four days fast, delivered at 0 and retried a minute later, becomes two rows. */
  lemma ARetryAddsARow(p: Parsers, o: Options, first: Result, again: Result)
    requires ReadsBan(p) && o.source != Some("192.0.2.1")
    requires Sanitized(p, o, 0, [BAN], first) && Sanitized(p, o, 60_000, [BAN], again)
    ensures var once := Stored(map[], "node1", first);
            && once.Keys == {RowOf("node1", BanAt(p, 0))}
            && Stored(once, "node1", again).Keys == {RowOf("node1", BanAt(p, 0)), RowOf("node1", BanAt(p, 60_000))}
  {
    hide Judge, Sanitized, Stored, Earned;
    var once := Stored(map[], "node1", first);
    BanIsJudged(p, o, 0);
    BanIsJudged(p, o, 60_000);
    StoredKeys(p, o, 0, [BAN], first, map[], "node1");
    StoredKeys(p, o, 60_000, [BAN], again, once, "node1");
    forall k ensures Earned(p, o, 0, [BAN], k) <==> k == BanAt(p, 0)
             ensures Earned(p, o, 60_000, [BAN], k) <==> k == BanAt(p, 60_000) {
      OnlyBanEarned(p, o, 0, k);
      OnlyBanEarned(p, o, 60_000, k);
    }
  }

  /** The same report, dated the moment it is delivered: dropped as the reporter's own address, and accepted when it
      is sent again at once from another. */
  lemma ARetryFromElsewhereAddsARow(p: Parsers, o: Options, source: Option<string>, first: Result, again: Result)
    requires ReadsBan(p) && o.source == Some("192.0.2.1") != source && o.maxAge >= 0
    requires var now := 4 * MAX_CLOCK_SKEW;
             Sanitized(p, o, now, [BAN], first) && Sanitized(p, From(o, source), now, [BAN], again)
    ensures !Clamped(p, 4 * MAX_CLOCK_SKEW, BAN)
    ensures Stored(map[], "node1", first) == map[]
    ensures Stored(map[], "node1", again).Keys == {RowOf("node1", BanAt(p, 4 * MAX_CLOCK_SKEW))}
  {
    var o', now := From(o, source), 4 * MAX_CLOCK_SKEW;
    assert TrimSpace(BAN.createdAt) == BAN.createdAt;
    hide Judge, Sanitized, Stored, Earned, TrimSpace;
    BanIsJudged(p, o, now);
    BanIsJudged(p, o', now);
    StoredKeys(p, o, now, [BAN], first, map[], "node1");
    StoredKeys(p, o', now, [BAN], again, map[], "node1");
    forall k ensures !Earned(p, o, now, [BAN], k)
             ensures Earned(p, o', now, [BAN], k) <==> k == BanAt(p, now) {
      OnlyBanEarned(p, o, now, k);
      OnlyBanEarned(p, o', now, k);
    }
    assert Stored(map[], "node1", first).Keys == {};
  }
}
