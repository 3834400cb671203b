/** The fleet's agreement about attacker addresses: what one consensus pass makes of the reported events, the
    blocklist and the allowlist, and what every run of ingests, allowlist edits and passes keeps. */
module Consensus {
  import opened Model
  import opened Sets
  import opened Sorting

  /** Addresses, as far as they matter here. parse gives the canonical spelling, unmapped and without a zone;
      covers says whether an allowlist entry contains a canonical address; less is numeric order. */
  datatype Net = Net(parse: string -> Option<string>, wellFormed: string -> bool, covers: (string, string) -> bool,
                     less: (string, string) -> bool)

  ghost predicate Addresses(net: Net) {
    && (forall s :: net.parse(s).Some? ==> net.parse(net.parse(s).value) == net.parse(s))
    && TotalOrder(net.less)
  }

  /** Durations in milliseconds. */
  datatype Config = Config(window: int, minSystems: int, ttl: int, maxEntries: nat, retention: int)

  /** The unique columns of an event; the value is its hit count. */
  datatype Sighting = Sighting(systemId: string, ip: string, scenario: string, observedAt: int)

  type Events = map<Sighting, int>

  datatype Row = Row(firstListedAt: int, lastSeenAt: int, expiresAt: int, systems: nat, scenarios: set<string>,
                     hits: int, decidedAt: int)

  type Blocklist = map<string, Row>

  /** The allowlist maps an entry to its expiry, if it has one. */
  datatype Db = Db(events: Events, blocklist: Blocklist, allowlist: map<string, Option<int>>)

  // ----- promotion -----

  /** The events about address a no older than since. */
  function Evidence(net: Net, events: Events, since: int, a: string): set<Sighting> {
    set k | k in events && k.observedAt >= since && net.parse(k.ip) == Some(a)
  }

  function Reporters(evidence: set<Sighting>): set<string> { set k | k in evidence :: k.systemId }

  function Scenarios(evidence: set<Sighting>): set<string> { set k | k in evidence :: k.scenario }

  function Times(evidence: set<Sighting>): set<int> { set k | k in evidence :: k.observedAt }

  /** The accumulator starts at zero. */
  ghost function LastSeen(evidence: set<Sighting>): int {
    if Times(evidence) == {} then 0 else MaxInt(0, Greatest(Times(evidence)))
  }

  function HitsOf(events: Events): Sighting -> int { (k: Sighting) => if k in events then events[k] else 0 }

  predicate Exempt(net: Net, entries: set<string>, a: string) { exists c :: c in entries && net.covers(c, a) }

  ghost predicate Agreed(net: Net, cfg: Config, events: Events, entries: set<string>, now: int, a: string) {
    var e := Evidence(net, events, now - cfg.window, a);
    e != {} && !Exempt(net, entries, a) && |Reporters(e)| >= cfg.minSystems
  }

  /** A sighting dated in the future counts as seen now. */
  ghost function Listing(net: Net, cfg: Config, events: Events, now: int, a: string): Row {
    var e := Evidence(net, events, now - cfg.window, a);
    var lastSeen := MinInt(LastSeen(e), now);
    Row(now, lastSeen, lastSeen + cfg.ttl, |Reporters(e)|, Scenarios(e), Sum(e, HitsOf(events)), now)
  }

  function Reported(net: Net, events: Events): set<string> {
    set k | k in events && net.parse(k.ip).Some? :: net.parse(k.ip).value
  }

  ghost function Promoted(net: Net, cfg: Config, events: Events, entries: set<string>, now: int): Blocklist {
    map a | a in Reported(net, events) && Agreed(net, cfg, events, entries, now, a) :: Listing(net, cfg, events, now, a)
  }

  lemma PromotedIffAgreed(net: Net, cfg: Config, events: Events, entries: set<string>, now: int, a: string)
    ensures a in Promoted(net, cfg, events, entries, now) <==> Agreed(net, cfg, events, entries, now, a)
  {
    var e := Evidence(net, events, now - cfg.window, a);
    if e != {} {
      var k := Pick(e);
      assert k in events && net.parse(k.ip).value == a;
    }
  }

  /** A refresh is not a new listing. */
  function Refreshed(old_: Blocklist, rows: Blocklist): Blocklist {
    map a | a in old_.Keys + rows.Keys ::
      if a !in rows then old_[a] else if a in old_ then rows[a].(firstListedAt := old_[a].firstListedAt) else rows[a]
  }

  // ----- the other steps -----

  function Active(allowlist: map<string, Option<int>>, now: int): set<string> {
    set c | c in allowlist && (allowlist[c].None? || allowlist[c].value > now)
  }

  predicate Live(b: Blocklist, now: int, a: string) { a in b && b[a].expiresAt > now }

  function Expired(b: Blocklist, now: int): Blocklist { map a | a in b && b[a].expiresAt > now :: b[a] }

  function Unlisted(net: Net, b: Blocklist, entries: set<string>, now: int): Blocklist {
    map a | a in b && !(Live(b, now, a) && net.parse(a).Some? && Exempt(net, entries, net.parse(a).value)) :: b[a]
  }

  function Pruned(events: Events, olderThan: int): Events {
    map k | k in events && k.observedAt >= olderThan :: events[k]
  }

  /** What the i-th step against the store answers: true for success. */
  type World = nat -> bool

  const CANDIDATES: nat := 0
  const ALLOWLIST: nat := 1
  const PROMOTE: nat := 2
  const EXPIRE: nat := 3
  const UNLIST: nat := 4
  const PRUNE: nat := 5
  const LIST: nat := 6
  const GENERATE: nat := 7

  /** A malformed active entry aborts the pass: an allowlist that loses an entry would fail open. */
  ghost predicate Readable(net: Net, db: Db, now: int, ok: World) {
    ok(CANDIDATES) && ok(ALLOWLIST) && forall c :: c in Active(db.allowlist, now) ==> net.wellFormed(c)
  }

  /** The tables after a pass that stops at its first failing step; only the pruning may fail and be passed over. */
  ghost function PassDb(net: Net, cfg: Config, db: Db, now: int, ok: World): Db {
    var entries := Active(db.allowlist, now);
    if !Readable(net, db, now, ok) || !ok(PROMOTE) then db
    else
      var promoted := Refreshed(db.blocklist, Promoted(net, cfg, db.events, entries, now));
      if !ok(EXPIRE) then db.(blocklist := promoted)
      else if !ok(UNLIST) then db.(blocklist := Expired(promoted, now))
      else Db(if ok(PRUNE) then Pruned(db.events, now - cfg.retention) else db.events,
              Unlisted(net, Expired(promoted, now), entries, now), db.allowlist)
  }

  ghost predicate Completes(net: Net, db: Db, now: int, ok: World) {
    Readable(net, db, now, ok) && ok(PROMOTE) && ok(EXPIRE) && ok(UNLIST) && ok(LIST) && ok(GENERATE)
  }

  // ----- the feed -----

  function SeenAt(b: Blocklist, a: string): int { if a in b then b[a].lastSeenAt else 0 }

  /** Most recently seen first, then by address text. */
  predicate Before(b: Blocklist, x: string, y: string) {
    SeenAt(b, x) > SeenAt(b, y) || (SeenAt(b, x) == SeenAt(b, y) && StringLess(x, y))
  }

  function Order(b: Blocklist): (string, string) -> bool { (x: string, y: string) => Before(b, x, y) }

  function LiveSet(b: Blocklist, now: int): set<string> { set a | a in b && Live(b, now, a) }

  function Ahead(b: Blocklist, now: int, a: string): set<string> { set x | x in LiveSet(b, now) && Before(b, x, a) }

  /** The first maxEntries live rows. */
  function Feed(b: Blocklist, now: int, maxEntries: nat): set<string> {
    set a | a in LiveSet(b, now) && |Ahead(b, now, a)| < maxEntries
  }

  function Spelled(net: Net, rows: set<string>): set<string> {
    set a | a in rows && net.parse(a).Some? :: net.parse(a).value
  }

  /** Every field belongs to one generation. */
  datatype Snapshot = Snapshot(ready: bool, addrs: set<string>, generatedAt: int, capped: bool)

  const NOTHING := Snapshot(false, {}, 0, false)

  function Generated(net: Net, cfg: Config, b: Blocklist, now: int): Snapshot {
    Snapshot(true, Spelled(net, Feed(b, now, cfg.maxEntries)), now, |LiveSet(b, now)| > cfg.maxEntries)
  }

  ghost function PassSnap(net: Net, cfg: Config, db: Db, snap: Snapshot, now: int, ok: World): Snapshot {
    if Completes(net, db, now, ok) then Generated(net, cfg, PassDb(net, cfg, db, now, ok).blocklist, now) else snap
  }

  // ----- runs -----

  /** What a promoting pass looked at. */
  datatype Round = Round(now: int, events: Events, entries: set<string>)

  /** clock is the time of the latest pass and rounds its history; neither is stored anywhere. */
  datatype Sys = Sys(db: Db, snap: Snapshot, clock: int, rounds: seq<Round>)

  datatype Event =
    | Ingest(batch: Events)                               // ON CONFLICT DO NOTHING
    | EditAllowlist(entries: map<string, Option<int>>)
    | Pass(now: int, ok: World)

  ghost function Apply(net: Net, cfg: Config, s: Sys, e: Event): Sys {
    match e
    case Ingest(batch) => s.(db := s.db.(events := batch + s.db.events))
    case EditAllowlist(entries) => s.(db := s.db.(allowlist := entries))
    case Pass(now, ok) =>
      Sys(PassDb(net, cfg, s.db, now, ok), PassSnap(net, cfg, s.db, s.snap, now, ok), now,
          if Readable(net, s.db, now, ok) && ok(PROMOTE)
          then s.rounds + [Round(now, s.db.events, Active(s.db.allowlist, now))] else s.rounds)
  }

  ghost function Run(net: Net, cfg: Config, s: Sys, es: seq<Event>): Sys {
    if es == [] then s else Apply(net, cfg, Run(net, cfg, s, es[..|es| - 1]), es[|es| - 1])
  }

  /** The row is what this round's agreement about a says. */
  ghost predicate Justifies(net: Net, cfg: Config, r: Round, a: string, row: Row) {
    Agreed(net, cfg, r.events, r.entries, r.now, a)
    && row.(firstListedAt := r.now) == Listing(net, cfg, r.events, r.now, a)
  }

  ghost predicate Justified(net: Net, cfg: Config, rounds: seq<Round>, a: string, row: Row) {
    exists r :: r in rounds && Justifies(net, cfg, r, a, row)
  }

  ghost predicate AgreedOnce(net: Net, cfg: Config, rounds: seq<Round>, a: string) {
    exists r :: r in rounds && Agreed(net, cfg, r.events, r.entries, r.now, a)
  }

  /** Every row is under its canonical spelling and justified by some round; so is everything served. */
  ghost predicate Inv(net: Net, cfg: Config, s: Sys) {
    && (forall a :: a in s.db.blocklist
                    ==> net.parse(a) == Some(a) && Justified(net, cfg, s.rounds, a, s.db.blocklist[a]))
    && (forall a :: a in s.snap.addrs ==> AgreedOnce(net, cfg, s.rounds, a))
    && |s.snap.addrs| <= cfg.maxEntries
  }

  lemma AgreedIsCanonical(net: Net, cfg: Config, events: Events, entries: set<string>, now: int, a: string)
    requires Addresses(net) && Agreed(net, cfg, events, entries, now, a)
    ensures net.parse(a) == Some(a)
  {
    var k := Pick(Evidence(net, events, now - cfg.window, a));
    assert net.parse(net.parse(k.ip).value) == net.parse(k.ip);
  }

  /** What is left in the table after a pass comes from before it or from its promotions. */
  lemma PassRows(net: Net, cfg: Config, db: Db, now: int, ok: World, a: string)
    requires a in PassDb(net, cfg, db, now, ok).blocklist
    ensures var row, promoted := PassDb(net, cfg, db, now, ok).blocklist[a],
                Promoted(net, cfg, db.events, Active(db.allowlist, now), now);
            if Readable(net, db, now, ok) && ok(PROMOTE) && a in promoted
            then row.(firstListedAt := now) == promoted[a]
                 && row.firstListedAt == (if a in db.blocklist then db.blocklist[a].firstListedAt else now)
            else a in db.blocklist && row == db.blocklist[a]
  {
    hide Promoted;
    var promoted := Promoted(net, cfg, db.events, Active(db.allowlist, now), now);
    if a in promoted { PromotedRow(net, cfg, db.events, Active(db.allowlist, now), now, a); }
  }

  lemma PromotedRow(net: Net, cfg: Config, events: Events, entries: set<string>, now: int, a: string)
    requires a in Promoted(net, cfg, events, entries, now)
    ensures Promoted(net, cfg, events, entries, now)[a] == Listing(net, cfg, events, now, a)
    ensures Promoted(net, cfg, events, entries, now)[a].firstListedAt == now
  {
  }

  lemma PassKeepsRows(net: Net, cfg: Config, s: Sys, now: int, ok: World, a: string)
    requires Addresses(net) && Inv(net, cfg, s)
    requires a in Apply(net, cfg, s, Pass(now, ok)).db.blocklist
    ensures var s' := Apply(net, cfg, s, Pass(now, ok));
            net.parse(a) == Some(a) && Justified(net, cfg, s'.rounds, a, s'.db.blocklist[a])
  {
    hide PassDb, Promoted, Listing, Agreed, Generated;
    var s', entries := Apply(net, cfg, s, Pass(now, ok)), Active(s.db.allowlist, now);
    PassRows(net, cfg, s.db, now, ok, a);
    var row := s'.db.blocklist[a];
    if Readable(net, s.db, now, ok) && ok(PROMOTE) && a in Promoted(net, cfg, s.db.events, entries, now) {
      var r := Round(now, s.db.events, entries);
      PromotedIffAgreed(net, cfg, s.db.events, entries, now, a);
      PromotedRow(net, cfg, s.db.events, entries, now, a);
      AgreedIsCanonical(net, cfg, s.db.events, entries, now, a);
      assert r in s'.rounds && Justifies(net, cfg, r, a, row);
    } else {
      var r :| r in s.rounds && Justifies(net, cfg, r, a, row);
      assert r in s'.rounds;
    }
  }

  // ----- the cap -----

  lemma OrderTotal(b: Blocklist)
    ensures TotalOrder(Order(b))
  {
    StringLessTotal();
    var less := Order(b);
    forall x, y ensures less(x, y) == Before(b, x, y) {}
    forall x, y | x != y ensures less(x, y) || less(y, x) {
      assert StringLess(x, y) || StringLess(y, x);
    }
  }

  lemma FeedFits(b: Blocklist, now: int, maxEntries: nat)
    ensures |Feed(b, now, maxEntries)| <= maxEntries
  {
    var feed := Feed(b, now, maxEntries);
    if |feed| > 0 {
      OrderTotal(b);
      LastExists(feed, Order(b));
      var z :| z in feed && forall x :: x in feed && x != z ==> Order(b)(x, z);
      assert feed - {z} <= Ahead(b, now, z);
      SubsetSize(feed - {z}, Ahead(b, now, z));
    }
  }

  /** What the cap leaves out was seen no later than anything it keeps. */
  lemma FeedKeepsTheMostRecent(b: Blocklist, now: int, maxEntries: nat, kept: string, cut: string)
    requires kept in Feed(b, now, maxEntries) && Live(b, now, cut) && cut !in Feed(b, now, maxEntries)
    ensures b[kept].lastSeenAt >= b[cut].lastSeenAt
    ensures b[kept].lastSeenAt == b[cut].lastSeenAt ==> StringLess(kept, cut)
  {
    OrderTotal(b);
    var less := Order(b);
    if less(cut, kept) {
      assert forall x :: x in Ahead(b, now, cut) ==> less(x, cut) && less(x, kept);
      assert cut in Ahead(b, now, kept) && cut !in Ahead(b, now, cut);
      ProperSubsetSize(Ahead(b, now, cut), Ahead(b, now, kept));
    }
    assert kept != cut && less(kept, cut);
  }

  /** The cap binds exactly when there are more live rows than it allows. */
  lemma CapBindsIff(b: Blocklist, now: int, maxEntries: nat)
    ensures Feed(b, now, maxEntries) == LiveSet(b, now) <==> |LiveSet(b, now)| <= maxEntries
  {
    var live := LiveSet(b, now);
    FeedFits(b, now, maxEntries);
    if |live| <= maxEntries {
      OrderTotal(b);
      forall a | a in live ensures |Ahead(b, now, a)| < maxEntries {
        assert !Order(b)(a, a);
        assert a !in Ahead(b, now, a);
        ProperSubsetSize(Ahead(b, now, a), live);
      }
    }
  }

  // ----- safety over runs -----

  lemma SpelledCanonically(net: Net, b: Blocklist, rows: set<string>)
    requires forall a :: a in rows ==> net.parse(a) == Some(a)
    ensures Spelled(net, rows) == rows
  {
    forall a | a in rows ensures a in Spelled(net, rows) { assert net.parse(a).value == a; }
  }

  lemma PassKeepsInv(net: Net, cfg: Config, s: Sys, now: int, ok: World)
    requires Addresses(net) && Inv(net, cfg, s)
    ensures Inv(net, cfg, Apply(net, cfg, s, Pass(now, ok)))
  {
    hide PassDb, Promoted, Listing, Agreed, Feed;
    var s' := Apply(net, cfg, s, Pass(now, ok));
    forall a | a in s'.db.blocklist
      ensures net.parse(a) == Some(a) && Justified(net, cfg, s'.rounds, a, s'.db.blocklist[a]) {
      PassKeepsRows(net, cfg, s, now, ok, a);
    }
    forall a | a in s'.snap.addrs ensures AgreedOnce(net, cfg, s'.rounds, a) {
      PassServesAgreed(net, cfg, s, now, ok, a);
    }
    SnapFits(net, cfg, s, now, ok);
  }

  lemma SnapFits(net: Net, cfg: Config, s: Sys, now: int, ok: World)
    requires Addresses(net) && Inv(net, cfg, s)
    ensures |Apply(net, cfg, s, Pass(now, ok)).snap.addrs| <= cfg.maxEntries
  {
    hide PassDb, Promoted, Listing, Agreed;
    var s' := Apply(net, cfg, s, Pass(now, ok));
    var feed := Feed(s'.db.blocklist, now, cfg.maxEntries);
    forall a | a in feed ensures net.parse(a) == Some(a) { PassKeepsRows(net, cfg, s, now, ok, a); }
    SpelledCanonically(net, s'.db.blocklist, feed);
    FeedFits(s'.db.blocklist, now, cfg.maxEntries);
  }

  lemma PassServesAgreed(net: Net, cfg: Config, s: Sys, now: int, ok: World, a: string)
    requires Addresses(net) && Inv(net, cfg, s) && a in Apply(net, cfg, s, Pass(now, ok)).snap.addrs
    ensures AgreedOnce(net, cfg, Apply(net, cfg, s, Pass(now, ok)).rounds, a)
  {
    hide PassDb, Promoted, Listing, Agreed;
    var s' := Apply(net, cfg, s, Pass(now, ok));
    if Completes(net, s.db, now, ok) {
      var row :| row in Feed(s'.db.blocklist, now, cfg.maxEntries) && net.parse(row) == Some(a);
      PassKeepsRows(net, cfg, s, now, ok, row);
      var r :| r in s'.rounds && Justifies(net, cfg, r, row, s'.db.blocklist[row]);
    } else {
      var r :| r in s.rounds && Agreed(net, cfg, r.events, r.entries, r.now, a);
      assert r in s'.rounds;
    }
  }

  lemma StepKeepsInv(net: Net, cfg: Config, s: Sys, e: Event)
    requires Addresses(net) && Inv(net, cfg, s)
    ensures Inv(net, cfg, Apply(net, cfg, s, e))
  {
    hide PassDb, Promoted, Listing, Agreed, Feed;
    match e
    case Ingest(_) =>
    case EditAllowlist(_) =>
    case Pass(now, ok) => PassKeepsInv(net, cfg, s, now, ok);
  }

  /** Empty tables and nothing published yet. */
  function Start(clock: int): Sys { Sys(Db(map[], map[], map[]), NOTHING, clock, []) }

  lemma StartHoldsInv(net: Net, cfg: Config, clock: int)
    ensures Inv(net, cfg, Start(clock)) && Remembers(net, cfg, Start(clock))
  {
  }

  /** In every run, whatever fails and whenever, at most maxEntries addresses are served, and each was reported by
      at least minSystems distinct systems within the window of some pass so far. */
  lemma {:induction false} RunKeepsInv(net: Net, cfg: Config, s: Sys, es: seq<Event>)
    requires Addresses(net) && Inv(net, cfg, s)
    ensures Inv(net, cfg, Run(net, cfg, s, es))
  {
    hide Inv, Apply;
    if es != [] {
      RunKeepsInv(net, cfg, s, es[..|es| - 1]);
      StepKeepsInv(net, cfg, Run(net, cfg, s, es[..|es| - 1]), es[|es| - 1]);
    }
  }

  /** What a completed pass serves is listed, unexpired at now, and covered by no allowlist entry active at now,
      including one added after the address was promoted. */
  lemma ServedIsCurrent(net: Net, cfg: Config, s: Sys, now: int, ok: World, a: string)
    requires Addresses(net) && Inv(net, cfg, s) && Completes(net, s.db, now, ok)
    requires a in Apply(net, cfg, s, Pass(now, ok)).snap.addrs
    ensures var s' := Apply(net, cfg, s, Pass(now, ok));
            && Live(s'.db.blocklist, now, a) && !Exempt(net, Active(s.db.allowlist, now), a)
            && a in Feed(s'.db.blocklist, now, cfg.maxEntries)
  {
    hide Promoted, Listing, Agreed, Refreshed;
    var s' := Apply(net, cfg, s, Pass(now, ok));
    var row :| row in Feed(s'.db.blocklist, now, cfg.maxEntries) && net.parse(row) == Some(a);
    PassKeepsRows(net, cfg, s, now, ok, row);
  }

  /** A pass that fails anywhere leaves the served generation as it was, whole. */
  lemma FailedPassServesTheOldFeed(net: Net, cfg: Config, s: Sys, now: int, ok: World)
    ensures var s' := Apply(net, cfg, s, Pass(now, ok));
            if Completes(net, s.db, now, ok) then s'.snap.ready && s'.snap.generatedAt == now
                 && (s'.snap.capped <==> Feed(s'.db.blocklist, now, cfg.maxEntries) != LiveSet(s'.db.blocklist, now))
            else s'.snap == s.snap
  {
    hide PassDb, Feed;
    var s' := Apply(net, cfg, s, Pass(now, ok));
    CapBindsIff(s'.db.blocklist, now, cfg.maxEntries);
  }

  // ----- refreshing never goes back -----

  /** Some sighting accounts for the row's last_seen_at, and is still stored or too old for any later window. */
  ghost predicate Anchors(net: Net, cfg: Config, s: Sys, a: string, k: Sighting)
    requires a in s.db.blocklist
  {
    var row := s.db.blocklist[a];
    && net.parse(k.ip) == Some(a) && (k in s.db.events || k.observedAt < s.clock - cfg.retention)
    && row.lastSeenAt == MinInt(MaxInt(0, k.observedAt), row.decidedAt)
  }

  ghost predicate Anchored(net: Net, cfg: Config, s: Sys, a: string)
    requires a in s.db.blocklist
  {
    && s.db.blocklist[a].decidedAt <= s.clock
    && s.db.blocklist[a].expiresAt == s.db.blocklist[a].lastSeenAt + cfg.ttl
    && exists k :: Anchors(net, cfg, s, a, k)
  }

  ghost predicate Remembers(net: Net, cfg: Config, s: Sys) {
    forall a :: a in s.db.blocklist ==> Anchored(net, cfg, s, a)
  }

  ghost predicate Ordered(net: Net, cfg: Config, s: Sys, es: seq<Event>) {
    es == [] || (Ordered(net, cfg, s, es[..|es| - 1])
                 && (es[|es| - 1].Pass? ==> Run(net, cfg, s, es[..|es| - 1]).clock <= es[|es| - 1].now))
  }

  /** The latest sighting of a promoted address. */
  lemma LatestSighting(net: Net, cfg: Config, events: Events, entries: set<string>, now: int,
                       a: string) returns (k: Sighting)
    requires Agreed(net, cfg, events, entries, now, a)
    ensures k in Evidence(net, events, now - cfg.window, a)
    ensures Listing(net, cfg, events, now, a).lastSeenAt == MinInt(MaxInt(0, k.observedAt), now)
    ensures forall j :: j in Evidence(net, events, now - cfg.window, a) ==> j.observedAt <= k.observedAt
  {
    var e := Evidence(net, events, now - cfg.window, a);
    var some := Pick(e);
    assert some.observedAt in Times(e);
    var last := Greatest(Times(e));
    k :| k in e && k.observedAt == last;
    forall j | j in e ensures j.observedAt <= k.observedAt { assert j.observedAt in Times(e); }
  }

  lemma PassEvents(net: Net, cfg: Config, db: Db, now: int, ok: World, k: Sighting)
    requires k in db.events
    ensures k in PassDb(net, cfg, db, now, ok).events || k.observedAt < now - cfg.retention
  {
    hide Promoted, Refreshed, Unlisted;
  }

  lemma PassKeepsAnchor(net: Net, cfg: Config, s: Sys, now: int, ok: World, a: string)
    requires Remembers(net, cfg, s) && s.clock <= now && a in Apply(net, cfg, s, Pass(now, ok)).db.blocklist
    ensures Anchored(net, cfg, Apply(net, cfg, s, Pass(now, ok)), a)
  {
    hide PassDb, Promoted, Agreed, Evidence, Generated;
    var s', entries := Apply(net, cfg, s, Pass(now, ok)), Active(s.db.allowlist, now);
    PassRows(net, cfg, s.db, now, ok, a);
    if Readable(net, s.db, now, ok) && ok(PROMOTE) && a in Promoted(net, cfg, s.db.events, entries, now) {
      PromotedIffAgreed(net, cfg, s.db.events, entries, now, a);
      PromotedRow(net, cfg, s.db.events, entries, now, a);
      var k := LatestSighting(net, cfg, s.db.events, entries, now, a);
      InEvidence(net, s.db.events, now - cfg.window, a, k);
      PassEvents(net, cfg, s.db, now, ok, k);
      assert Anchors(net, cfg, s', a, k);
    } else {
      assert Anchored(net, cfg, s, a);
      var k :| Anchors(net, cfg, s, a, k);
      if k in s.db.events { PassEvents(net, cfg, s.db, now, ok, k); }
      assert Anchors(net, cfg, s', a, k);
    }
  }

  lemma InEvidence(net: Net, events: Events, since: int, a: string, k: Sighting)
    ensures k in Evidence(net, events, since, a) <==> k in events && k.observedAt >= since && net.parse(k.ip) == Some(a)
  {
  }

  /** Refreshing a listed address keeps when it was first listed, and never moves its last sighting or its expiry
      back, given a clock that does not go back and events kept for at least the window. */
  lemma RefreshNeverGoesBack(net: Net, cfg: Config, s: Sys, e: Event, a: string)
    requires Remembers(net, cfg, s) && cfg.retention >= cfg.window && (e.Pass? ==> s.clock <= e.now)
    requires a in s.db.blocklist && a in Apply(net, cfg, s, e).db.blocklist
    ensures var row, row' := s.db.blocklist[a], Apply(net, cfg, s, e).db.blocklist[a];
            && row'.firstListedAt == row.firstListedAt
            && row'.lastSeenAt >= row.lastSeenAt && row'.expiresAt >= row.expiresAt
  {
    hide PassDb, Promoted, Agreed, Evidence, Generated, Anchors;
    assert Anchored(net, cfg, s, a);
    if e.Pass? {
      var entries := Active(s.db.allowlist, e.now);
      PassRows(net, cfg, s.db, e.now, e.ok, a);
      if Readable(net, s.db, e.now, e.ok) && e.ok(PROMOTE) && a in Promoted(net, cfg, s.db.events, entries, e.now) {
        PromotedRow(net, cfg, s.db.events, entries, e.now, a);
        RelistedNoEarlier(net, cfg, s, e.now, a, entries);
      }
    }
  }

  lemma RelistedNoEarlier(net: Net, cfg: Config, s: Sys, now: int, a: string, entries: set<string>)
    requires a in s.db.blocklist && Anchored(net, cfg, s, a) && cfg.retention >= cfg.window && s.clock <= now
    requires a in Promoted(net, cfg, s.db.events, entries, now)
    ensures Listing(net, cfg, s.db.events, now, a).lastSeenAt >= s.db.blocklist[a].lastSeenAt
    ensures Listing(net, cfg, s.db.events, now, a).expiresAt >= s.db.blocklist[a].expiresAt
  {
    hide Promoted, Agreed, Evidence;
    PromotedIffAgreed(net, cfg, s.db.events, entries, now, a);
    var k :| Anchors(net, cfg, s, a, k);
    var latest := LatestSighting(net, cfg, s.db.events, entries, now, a);
    InEvidence(net, s.db.events, now - cfg.window, a, latest);
    InEvidence(net, s.db.events, now - cfg.window, a, k);
  }

  lemma StepRemembers(net: Net, cfg: Config, s: Sys, e: Event)
    requires Remembers(net, cfg, s) && (e.Pass? ==> s.clock <= e.now)
    ensures Remembers(net, cfg, Apply(net, cfg, s, e))
  {
    hide PassDb, Promoted, Generated, Anchored;
    var s' := Apply(net, cfg, s, e);
    forall a | a in s'.db.blocklist ensures Anchored(net, cfg, s', a) {
      match e
      case Pass(now, ok) => PassKeepsAnchor(net, cfg, s, now, ok, a);
      case _ => AnchorStays(net, cfg, s, s', a);
    }
  }

  lemma AnchorStays(net: Net, cfg: Config, s: Sys, s': Sys, a: string)
    requires a in s.db.blocklist && Anchored(net, cfg, s, a)
    requires s'.db.blocklist == s.db.blocklist && s'.clock == s.clock && s.db.events.Keys <= s'.db.events.Keys
    ensures Anchored(net, cfg, s', a)
  {
    var k :| Anchors(net, cfg, s, a, k);
    assert Anchors(net, cfg, s', a, k);
  }

  lemma {:induction false} RunRemembers(net: Net, cfg: Config, s: Sys, es: seq<Event>)
    requires Remembers(net, cfg, s) && Ordered(net, cfg, s, es)
    ensures Remembers(net, cfg, Run(net, cfg, s, es))
  {
    hide Apply, Remembers;
    if es != [] {
      RunRemembers(net, cfg, s, es[..|es| - 1]);
      StepRemembers(net, cfg, Run(net, cfg, s, es[..|es| - 1]), es[|es| - 1]);
    }
  }

  /** Over any run in which the clock does not go back, for as long as an address stays listed. */
  lemma {:induction false} ListingNeverGoesBack(net: Net, cfg: Config, s: Sys, es: seq<Event>, a: string)
    requires Remembers(net, cfg, s) && Ordered(net, cfg, s, es) && cfg.retention >= cfg.window
    requires forall n :: 0 <= n <= |es| ==> a in Run(net, cfg, s, es[..n]).db.blocklist
    ensures a in s.db.blocklist && a in Run(net, cfg, s, es).db.blocklist
    ensures var row, row' := s.db.blocklist[a], Run(net, cfg, s, es).db.blocklist[a];
            && row'.firstListedAt == row.firstListedAt
            && row'.lastSeenAt >= row.lastSeenAt && row'.expiresAt >= row.expiresAt
  {
    hide Apply, Remembers;
    assert es[..|es|] == es && es[..0] == [];
    assert a in Run(net, cfg, s, es[..0]).db.blocklist && a in Run(net, cfg, s, es[..|es|]).db.blocklist;
    if es != [] {
      var init := es[..|es| - 1];
      forall n | 0 <= n <= |init| ensures a in Run(net, cfg, s, init[..n]).db.blocklist {
        assert init[..n] == es[..n];
      }
      ListingNeverGoesBack(net, cfg, s, init, a);
      RunRemembers(net, cfg, s, init);
      RefreshNeverGoesBack(net, cfg, Run(net, cfg, s, init), es[|es| - 1], a);
    }
  }

  /** However far in the future a sighting is dated, a listing ends at most the TTL after the pass that made it. */
  lemma ExpiryIsBounded(net: Net, cfg: Config, s: Sys, es: seq<Event>, a: string)
    requires Remembers(net, cfg, s) && Ordered(net, cfg, s, es) && a in Run(net, cfg, s, es).db.blocklist
    ensures var s' := Run(net, cfg, s, es);
            s'.db.blocklist[a].expiresAt <= s'.db.blocklist[a].decidedAt + cfg.ttl
            && s'.db.blocklist[a].decidedAt <= s'.clock
  {
    RunRemembers(net, cfg, s, es);
    var s' := Run(net, cfg, s, es);
    assert Anchored(net, cfg, s', a);
    var k :| Anchors(net, cfg, s', a, k);
  }
}
