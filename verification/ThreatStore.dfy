/** The threat store, the consensus pass over it, and the served snapshot, proved against Consensus. */
module ThreatStore {
  import opened Model
  import opened Sets
  import opened Sorting
  import opened Consensus

  // ----- ingest -----

  datatype NewEvent = NewEvent(ip: string, scenario: string, observedAt: int, hits: int)

  function KeyOfEvent(systemId: string, e: NewEvent): Sighting { Sighting(systemId, e.ip, e.scenario, e.observedAt) }

  /** ON CONFLICT DO NOTHING, row by row. */
  function Inserted(events: Events, systemId: string, ev: seq<NewEvent>): Events {
    if ev == [] then events
    else
      var before, k := Inserted(events, systemId, ev[..|ev| - 1]), KeyOfEvent(systemId, ev[|ev| - 1]);
      if k in before then before else before[k := ev[|ev| - 1].hits]
  }

  /** Inserting a batch adds the rows it has for keys not stored yet, and nothing else: one Ingest step. */
  lemma {:induction false} InsertIsIngest(events: Events, systemId: string, ev: seq<NewEvent>)
    ensures Inserted(events, systemId, ev) == Inserted(map[], systemId, ev) + events
  {
    if ev != [] { InsertIsIngest(events, systemId, ev[..|ev| - 1]); }
  }

  lemma {:induction false} InsertedKeys(events: Events, systemId: string, ev: seq<NewEvent>)
    ensures forall k :: k in Inserted(events, systemId, ev)
                   <==> k in events || exists e :: e in ev && KeyOfEvent(systemId, e) == k
  {
    if ev != [] {
      var init, last := ev[..|ev| - 1], ev[|ev| - 1];
      InsertedKeys(events, systemId, init);
      assert forall e :: e in ev <==> e in init || e == last;
    }
  }

  lemma {:induction false} AllStored(events: Events, systemId: string, ev: seq<NewEvent>)
    requires forall e :: e in ev ==> KeyOfEvent(systemId, e) in events
    ensures Inserted(events, systemId, ev) == events
  {
    if ev != [] { AllStored(events, systemId, ev[..|ev| - 1]); }
  }

  /** Redelivery changes no row, so no candidate: a retry cannot add to the consensus. */
  lemma RedeliveryChangesNothing(events: Events, systemId: string, ev: seq<NewEvent>, more: seq<NewEvent>)
    requires forall e :: e in more ==> exists f :: f in ev && KeyOfEvent(systemId, f) == KeyOfEvent(systemId, e)
    ensures Inserted(Inserted(events, systemId, ev), systemId, more) == Inserted(events, systemId, ev)
  {
    InsertedKeys(events, systemId, ev);
    AllStored(Inserted(events, systemId, ev), systemId, more);
  }

  // ----- candidates -----

  datatype Triple = Triple(ip: string, scenario: string, systemId: string)

  datatype Candidate = Candidate(key: Triple, hits: int, lastSeen: int)

  function TripleOf(k: Sighting): Triple { Triple(k.ip, k.scenario, k.systemId) }

  function Group(of: set<Sighting>, since: int, t: Triple): set<Sighting> {
    set k | k in of && k.observedAt >= since && TripleOf(k) == t
  }

  /** GROUP BY ip, scenario, system: SUM(hit_count), MAX(observed_at). */
  ghost predicate Summarizes(events: Events, g: set<Sighting>, hits: int, lastSeen: int) {
    hits == Sum(g, HitsOf(events)) && IsGreatest(lastSeen, Times(g))
  }

  ghost predicate AreCandidates(rows: seq<Candidate>, events: Events, since: int) {
    && (forall i, j :: 0 <= i < j < |rows| ==> rows[i].key != rows[j].key)
    && (forall r :: r in rows ==> Summarizes(events, Group(events.Keys, since, r.key), r.hits, r.lastSeen))
    && (forall k :: k in events && k.observedAt >= since ==> exists r :: r in rows && r.key == TripleOf(k))
  }

  type Groups = map<Triple, (int, int)>

  ghost predicate GroupedAt(groups: Groups, events: Events, of: set<Sighting>, since: int, t: Triple) {
    if t in groups then Summarizes(events, Group(of, since, t), groups[t].0, groups[t].1) else Group(of, since, t) == {}
  }

  function AddToGroups(groups: Groups, k: Sighting, hits: int): Groups {
    var t := TripleOf(k);
    groups[t := if t in groups then (groups[t].0 + hits, MaxInt(groups[t].1, k.observedAt)) else (hits, k.observedAt)]
  }

  lemma GroupStep(groups: Groups, events: Events, of: set<Sighting>, since: int, k: Sighting, t: Triple)
    requires GroupedAt(groups, events, of, since, t) && k in events && k !in of
    ensures GroupedAt(if k.observedAt >= since then AddToGroups(groups, k, events[k]) else groups, events, of + {k},
                      since, t)
  {
    var g := Group(of, since, t);
    if k.observedAt >= since && TripleOf(k) == t {
      assert Group(of + {k}, since, t) == g + {k};
      SumInsert(g, k, HitsOf(events));
      TimesInsert(g, k);
      assert Sum({}, HitsOf(events)) == 0;
    } else {
      assert Group(of + {k}, since, t) == g;
    }
  }

  lemma TimesInsert(g: set<Sighting>, k: Sighting)
    ensures Times(g + {k}) == Times(g) + {k.observedAt}
  {
    forall n | n in Times(g) + {k.observedAt} ensures n in Times(g + {k}) {
      if n != k.observedAt {
        var j :| j in g && j.observedAt == n;
        assert j in g + {k};
      } else {
        assert k in g + {k};
      }
    }
  }

  lemma TimesUnion(g: set<Sighting>, h: set<Sighting>)
    ensures Times(g + h) == Times(g) + Times(h)
  {
    forall n | n in Times(g) + Times(h) ensures n in Times(g + h) {
      if n in Times(g) {
        var j :| j in g && j.observedAt == n;
        assert j in g + h;
      } else {
        var j :| j in h && j.observedAt == n;
        assert j in g + h;
      }
    }
  }

  /** Rows added with at least one hit raise the total of their group. */
  lemma GroupGrows(events: Events, after: Events, since: int, k: Sighting)
    requires events.Keys <= after.Keys && forall j :: j in events ==> after[j] == events[j]
    requires forall j :: j in after && j !in events ==> after[j] >= 1
    requires k in after && k !in events && k.observedAt >= since
    ensures Sum(Group(after.Keys, since, TripleOf(k)), HitsOf(after))
          > Sum(Group(events.Keys, since, TripleOf(k)), HitsOf(events))
  {
    var g, h := Group(events.Keys, since, TripleOf(k)), Group(after.Keys, since, TripleOf(k));
    assert h == g + (h - g) && k in h - g;
    SumUnion(g, h - g, HitsOf(after));
    SumSame(g, HitsOf(events), HitsOf(after));
    SumAtLeastSize(h - g, HitsOf(after));
    assert |h - g| >= 1 by { assert {k} <= h - g; SubsetSize({k}, h - g); }
  }

  /** A row that is new since raises the hits its candidate is read with. */
  lemma NewRowShows(events: Events, after: Events, since: int, k: Sighting, rows: seq<Candidate>, more: seq<Candidate>)
    returns (r: Candidate)
    requires events.Keys <= after.Keys && forall j :: j in events ==> after[j] == events[j]
    requires forall j :: j in after && j !in events ==> after[j] >= 1
    requires k in after && k !in events && k.observedAt >= since
    requires AreCandidates(rows, events, since) && AreCandidates(more, after, since)
    ensures r in more && r.key == TripleOf(k) && forall q :: q in rows && q.key == r.key ==> q.hits < r.hits
  {
    r := CandidateOf(more, after, since, k);
    GroupGrows(events, after, since, k);
  }

  lemma CandidateOf(rows: seq<Candidate>, events: Events, since: int, k: Sighting) returns (r: Candidate)
    requires AreCandidates(rows, events, since) && k in events && k.observedAt >= since
    ensures r in rows && r.key == TripleOf(k)
  {
    r :| r in rows && r.key == TripleOf(k);
  }

  // ----- the fold -----

  datatype Fold = Fold(systems: set<string>, scenarios: set<string>, hits: int, lastSeen: int)

  function Added(net: Net, folded: map<string, Fold>, r: Candidate): map<string, Fold> {
    match net.parse(r.key.ip)
    case None => folded
    case Some(a) =>
      var c := if a in folded then folded[a] else Fold({}, {}, 0, 0);
      folded[a := Fold(c.systems + {r.key.systemId}, c.scenarios + {r.key.scenario}, c.hits + r.hits,
                       MaxInt(c.lastSeen, r.lastSeen))]
  }

  function FoldAll(net: Net, rows: seq<Candidate>): map<string, Fold> {
    if rows == [] then map[] else Added(net, FoldAll(net, rows[..|rows| - 1]), rows[|rows| - 1])
  }

  /** The evidence about a that the given candidate rows stand for. */
  function Covered(net: Net, events: Events, since: int, a: string, rows: seq<Candidate>): set<Sighting> {
    set k | k in Evidence(net, events, since, a) && exists r :: r in rows && r.key == TripleOf(k)
  }

  ghost function FoldOf(events: Events, e: set<Sighting>): Fold {
    Fold(Reporters(e), Consensus.Scenarios(e), Sum(e, HitsOf(events)), LastSeen(e))
  }

  ghost predicate FoldedAt(net: Net, events: Events, since: int, rows: seq<Candidate>, a: string) {
    var e := Covered(net, events, since, a, rows);
    if a in FoldAll(net, rows) then e != {} && FoldAll(net, rows)[a] == FoldOf(events, e) else e == {}
  }

  /** Adding one group's events to the evidence about an address. */
  lemma FoldGrows(events: Events, e: set<Sighting>, g: set<Sighting>, t: Triple, hits: int, lastSeen: int)
    requires e !! g && Summarizes(events, g, hits, lastSeen) && forall k :: k in g ==> TripleOf(k) == t
    ensures FoldOf(events, e + g) == Fold(Reporters(e) + {t.systemId}, Consensus.Scenarios(e) + {t.scenario},
                                          Sum(e, HitsOf(events)) + hits, MaxInt(LastSeen(e), lastSeen))
  {
    SumUnion(e, g, HitsOf(events));
    TimesUnion(e, g);
    var k :| k in g && k.observedAt == lastSeen;
    NamesGrow(e, g, t, k);
    LatestGrows(e, g, lastSeen);
    hide Summarizes, Reporters, Consensus.Scenarios, LastSeen, Times, HitsOf;
  }

  lemma LatestGrows(e: set<Sighting>, g: set<Sighting>, lastSeen: int)
    requires IsGreatest(lastSeen, Times(g))
    ensures LastSeen(e + g) == MaxInt(LastSeen(e), lastSeen)
  {
    TimesUnion(e, g);
    hide Times;
  }

  lemma NamesGrow(e: set<Sighting>, g: set<Sighting>, t: Triple, k: Sighting)
    requires k in g && forall j :: j in g ==> TripleOf(j) == t
    ensures Reporters(e + g) == Reporters(e) + {t.systemId}
    ensures Consensus.Scenarios(e + g) == Consensus.Scenarios(e) + {t.scenario}
  {
    assert k in e + g && k.systemId == t.systemId && k.scenario == t.scenario;
    forall x | x in Reporters(e) ensures x in Reporters(e + g) {
      var j :| j in e && j.systemId == x;
      assert j in e + g;
    }
    forall x | x in Consensus.Scenarios(e) ensures x in Consensus.Scenarios(e + g) {
      var j :| j in e && j.scenario == x;
      assert j in e + g;
    }
  }

  lemma CoveredGrows(net: Net, events: Events, since: int, a: string, rows: seq<Candidate>, r: Candidate)
    requires forall s :: s in rows ==> s.key != r.key
    ensures var g := Group(events.Keys, since, r.key);
            && Covered(net, events, since, a, rows) !! g
            && Covered(net, events, since, a, rows + [r])
               == Covered(net, events, since, a, rows) + (if net.parse(r.key.ip) == Some(a) then g else {})
  {
    var g, before, after := Group(events.Keys, since, r.key), Covered(net, events, since, a, rows),
                            Covered(net, events, since, a, rows + [r]);
    forall k ensures k in after <==> k in before || (net.parse(r.key.ip) == Some(a) && k in g) {
      if k in before {
        var s :| s in rows && s.key == TripleOf(k);
        assert s in rows + [r];
      }
      if k in g && net.parse(r.key.ip) == Some(a) { assert r in rows + [r] && r.key == TripleOf(k); }
      if k in after {
        var s :| s in rows + [r] && s.key == TripleOf(k);
        assert s in rows || s == r;
      }
    }
  }

  lemma {:induction false} FoldStep(net: Net, events: Events, since: int, rows: seq<Candidate>, a: string)
    requires forall i, j :: 0 <= i < j < |rows| ==> rows[i].key != rows[j].key
    requires forall r :: r in rows ==> Summarizes(events, Group(events.Keys, since, r.key), r.hits, r.lastSeen)
    ensures FoldedAt(net, events, since, rows, a)
  {
    hide FoldOf, Covered, Group, Summarizes;
    if rows == [] {
      NothingCovered(net, events, since, a);
    } else {
      var init, r := rows[..|rows| - 1], rows[|rows| - 1];
      assert rows == init + [r] && r in rows && forall s :: s in init ==> s in rows;
      FoldStep(net, events, since, init, a);
      CoveredGrows(net, events, since, a, init, r);
      if net.parse(r.key.ip) == Some(a) {
        FoldGrowsAt(net, events, since, init, r, a);
      } else {
        assert Covered(net, events, since, a, rows) == Covered(net, events, since, a, init);
      }
    }
  }

  lemma NothingCovered(net: Net, events: Events, since: int, a: string)
    ensures Covered(net, events, since, a, []) == {}
  {
  }

  lemma FoldGrowsAt(net: Net, events: Events, since: int, init: seq<Candidate>, r: Candidate, a: string)
    requires FoldedAt(net, events, since, init, a) && net.parse(r.key.ip) == Some(a)
    requires var e, g := Covered(net, events, since, a, init), Group(events.Keys, since, r.key);
             e !! g && Summarizes(events, g, r.hits, r.lastSeen)
    ensures var e, g := Covered(net, events, since, a, init), Group(events.Keys, since, r.key);
            e + g != {} && Added(net, FoldAll(net, init), r)[a] == FoldOf(events, e + g)
  {
    hide Covered;
    var e, g := Covered(net, events, since, a, init), Group(events.Keys, since, r.key);
    FoldGrows(events, e, g, r.key, r.hits, r.lastSeen);
    EmptyFold(events);
    assert g != {};
  }

  lemma EmptyFold(events: Events)
    ensures FoldOf(events, {}) == Fold({}, {}, 0, 0)
  {
  }

  /** The fold over the candidate rows is the evidence about each address. */
  lemma FoldIsEvidence(net: Net, events: Events, since: int, rows: seq<Candidate>, a: string)
    requires AreCandidates(rows, events, since)
    ensures var e := Evidence(net, events, since, a);
            if a in FoldAll(net, rows) then e != {} && FoldAll(net, rows)[a] == FoldOf(events, e) else e == {}
  {
    hide FoldOf, Summarizes;
    FoldStep(net, events, since, rows, a);
    assert Covered(net, events, since, a, rows) == Evidence(net, events, since, a);
  }

  // ----- the store -----

  /** One row of the upsert. */
  datatype Entry = Entry(ip: string, row: Row)

  /** The entries are the rows of m, each once. */
  ghost predicate Lists(entries: seq<Entry>, m: Blocklist) {
    && (forall i, j :: 0 <= i < j < |entries| ==> entries[i].ip != entries[j].ip)
    && (forall e :: e in entries ==> e.ip in m && m[e.ip] == e.row)
    && (forall a :: a in m ==> Entry(a, m[a]) in entries)
  }

  class Store {
    var events: Events
    var blocklist: Blocklist
    var allowlist: map<string, Option<int>>

    ghost function Db(): Db
      reads this
    {
      Consensus.Db(events, blocklist, allowlist)
    }

    constructor ()
      ensures Db() == Consensus.Db(map[], map[], map[])
    {
      events, blocklist, allowlist := map[], map[], map[];
    }

    method InsertThreatEvents(systemId: string, ev: seq<NewEvent>) returns (inserted: nat, duplicates: nat)
      modifies this`events
      ensures events == Inserted(old(events), systemId, ev)
      ensures inserted + duplicates == |ev| && inserted == |events| - |old(events)|
    {
      inserted, duplicates := 0, 0;
      for i := 0 to |ev|
        invariant events == Inserted(old(events), systemId, ev[..i])
        invariant inserted + duplicates == i && inserted == |events| - |old(events)|
      {
        assert ev[..i + 1][..i] == ev[..i];
        var k := KeyOfEvent(systemId, ev[i]);
        if k in events {
          duplicates := duplicates + 1;
        } else {
          events := events[k := ev[i].hits];
          inserted := inserted + 1;
        }
      }
      assert ev[..|ev|] == ev;
    }

    method ConsensusCandidates(since: int) returns (rows: seq<Candidate>)
      ensures AreCandidates(rows, events, since)
    {
      var groups := GroupEvents(since);
      rows := [];
      var todo := groups.Keys;
      while todo != {}
        invariant todo <= groups.Keys
        invariant forall i, j :: 0 <= i < j < |rows| ==> rows[i].key != rows[j].key
        invariant forall r :: r in rows ==> r.key in groups && r.key !in todo && groups[r.key] == (r.hits, r.lastSeen)
        invariant forall t :: t in groups && t !in todo ==> Candidate(t, groups[t].0, groups[t].1) in rows
      {
        var t :| t in todo;
        todo := todo - {t};
        rows := rows + [Candidate(t, groups[t].0, groups[t].1)];
      }
      GroupsAreCandidates(rows, groups, events, since);
    }

    method GroupEvents(since: int) returns (groups: Groups)
      ensures forall t :: GroupedAt(groups, events, events.Keys, since, t)
    {
      hide GroupedAt, AddToGroups;
      groups := map[];
      var todo := events.Keys;
      NoGroups(events, since);
      assert events.Keys - todo == {};
      while todo != {}
        invariant todo <= events.Keys
        invariant forall t :: GroupedAt(groups, events, events.Keys - todo, since, t)
      {
        var k :| k in todo;
        ghost var before, of := groups, events.Keys - todo;
        todo := todo - {k};
        if k.observedAt >= since { groups := AddToGroups(groups, k, events[k]); }
        assert events.Keys - todo == of + {k};
        forall t ensures GroupedAt(groups, events, of + {k}, since, t) {
          GroupStep(before, events, of, since, k, t);
        }
      }
      assert events.Keys - todo == events.Keys;
    }

    method ThreatAllowlist(now: int) returns (entries: set<string>)
      ensures entries == Active(allowlist, now)
    {
      entries := set c | c in allowlist && (allowlist[c].None? || allowlist[c].value > now);
    }

    method UpsertBlocklistEntries(entries: seq<Entry>, ghost m: Blocklist)
      requires Lists(entries, m)
      modifies this`blocklist
      ensures blocklist == Refreshed(old(blocklist), m)
    {
      for i := 0 to |entries|
        invariant UpsertedTo(old(blocklist), blocklist, entries[..i])
      {
        var e := entries[i];
        assert entries[..i + 1] == entries[..i] + [e];
        ghost var before := blocklist;
        if e.ip in blocklist {
          blocklist := blocklist[e.ip := e.row.(firstListedAt := blocklist[e.ip].firstListedAt)];
        } else {
          blocklist := blocklist[e.ip := e.row];
        }
        assert forall x :: x in entries[..i] ==> x.ip != e.ip by {
          forall x | x in entries[..i] ensures x.ip != e.ip { var j :| 0 <= j < i && entries[j] == x; }
        }
        UpsertStep(old(blocklist), before, blocklist, entries[..i], e);
      }
      assert entries[..|entries|] == entries;
      AllUpserted(old(blocklist), blocklist, entries, m);
    }

    method ExpireBlocklist(now: int)
      modifies this`blocklist
      ensures blocklist == Expired(old(blocklist), now)
    {
      blocklist := map a | a in blocklist && !(blocklist[a].expiresAt <= now) :: blocklist[a];
    }

    method ListBlocklistIPs(now: int) returns (ips: seq<string>)
      ensures forall a :: a in ips <==> Live(blocklist, now, a)
    {
      StringLessTotal();
      ips := InOrder(LiveSet(blocklist, now), StringLess);
    }

    method DeleteBlocklistEntries(ips: seq<string>)
      modifies this`blocklist
      ensures blocklist == old(blocklist) - (set a | a in ips)
    {
      for i := 0 to |ips|
        invariant blocklist == old(blocklist) - (set a | a in ips[..i])
      {
        assert ips[..i + 1] == ips[..i] + [ips[i]];
        blocklist := blocklist - {ips[i]};
      }
      assert ips[..|ips|] == ips;
    }

    /** Most recently seen first; limit <= 0 means all. */
    method ListBlocklist(now: int, limit: int) returns (ips: seq<string>)
      ensures StrictlySorted(ips, Order(blocklist))
      ensures forall a :: a in ips <==> Live(blocklist, now, a) && (limit > 0 ==> |Ahead(blocklist, now, a)| < limit)
      ensures |ips| == if 0 < limit < |LiveSet(blocklist, now)| then limit else |LiveSet(blocklist, now)|
    {
      OrderTotal(blocklist);
      var all := InOrder(LiveSet(blocklist, now), Order(blocklist));
      SizeOfStrict(all, LiveSet(blocklist, now), Order(blocklist));
      ips := if 0 < limit < |all| then all[..limit] else all;
      forall a ensures a in ips <==> Live(blocklist, now, a) && (limit > 0 ==> |Ahead(blocklist, now, a)| < limit) {
        if a in LiveSet(blocklist, now) { PositionIsRank(blocklist, now, all, a, |ips|); }
      }
    }

    method PruneThreatEvents(olderThan: int)
      modifies this`events
      ensures events == Pruned(old(events), olderThan)
    {
      events := map k | k in events && !(k.observedAt < olderThan) :: events[k];
    }
  }

  lemma NoGroups(events: Events, since: int)
    ensures forall t :: GroupedAt(map[], events, {}, since, t)
  {
  }

  lemma GroupsAreCandidates(rows: seq<Candidate>, groups: Groups, events: Events, since: int)
    requires forall t :: GroupedAt(groups, events, events.Keys, since, t)
    requires forall i, j :: 0 <= i < j < |rows| ==> rows[i].key != rows[j].key
    requires forall r :: r in rows ==> r.key in groups && groups[r.key] == (r.hits, r.lastSeen)
    requires forall t :: t in groups ==> Candidate(t, groups[t].0, groups[t].1) in rows
    ensures AreCandidates(rows, events, since)
  {
    hide Summarizes;
    forall r | r in rows ensures Summarizes(events, Group(events.Keys, since, r.key), r.hits, r.lastSeen) {
      assert GroupedAt(groups, events, events.Keys, since, r.key);
    }
    forall k | k in events && k.observedAt >= since ensures exists r :: r in rows && r.key == TripleOf(k) {
      var t := TripleOf(k);
      assert GroupedAt(groups, events, events.Keys, since, t) && k in Group(events.Keys, since, t);
      assert Candidate(t, groups[t].0, groups[t].1) in rows;
    }
  }

  ghost predicate UpsertedTo(was: Blocklist, now: Blocklist, entries: seq<Entry>) {
    && (forall a :: a in now <==> a in was || exists e :: e in entries && e.ip == a)
    && (forall e :: e in entries ==>
          now[e.ip] == if e.ip in was then e.row.(firstListedAt := was[e.ip].firstListedAt) else e.row)
    && (forall a :: a in was && (forall e :: e in entries ==> e.ip != a) ==> now[a] == was[a])
  }

  lemma UpsertStep(was: Blocklist, before: Blocklist, after: Blocklist, entries: seq<Entry>, e: Entry)
    requires UpsertedTo(was, before, entries) && forall x :: x in entries ==> x.ip != e.ip
    requires var row := if e.ip in before then e.row.(firstListedAt := before[e.ip].firstListedAt) else e.row;
             after == before[e.ip := row]
    ensures UpsertedTo(was, after, entries + [e])
  {
    forall a ensures a in after <==> a in was || exists x :: x in entries + [e] && x.ip == a {
      if a == e.ip { assert e in entries + [e]; }
      if x :| x in entries && x.ip == a { assert x in entries + [e]; }
    }
  }

  lemma AllUpserted(was: Blocklist, now: Blocklist, entries: seq<Entry>, m: Blocklist)
    requires UpsertedTo(was, now, entries) && Lists(entries, m)
    ensures now == Refreshed(was, m)
  {
    forall a ensures a in now <==> a in Refreshed(was, m)
             ensures a in now && a in Refreshed(was, m) ==> now[a] == Refreshed(was, m)[a] {
      if a in m { assert Entry(a, m[a]) in entries; }
    }
  }

  lemma PositionIsRank(b: Blocklist, now: int, all: seq<string>, a: string, n: nat)
    requires StrictlySorted(all, Order(b)) && (forall x :: x in all <==> x in LiveSet(b, now)) && a in all && n <= |all|
    ensures a in all[..n] <==> |Ahead(b, now, a)| < n
  {
    OrderTotal(b);
    var i :| 0 <= i < |all| && all[i] == a;
    assert forall x :: x in Ahead(b, now, a) <==> x in all && Order(b)(x, all[i]);
    RankIsPosition(all, i, Ahead(b, now, a), Order(b));
    assert Distinct(all);
    TakenByPosition(all, n, i);
  }
}
