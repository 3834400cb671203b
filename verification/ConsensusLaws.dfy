/** What a consensus pass does, in the rows of the tables it reads: who is listed, for how long, and what is served. */
module ConsensusLaws {
  import opened Model
  import opened Sets
  import opened Sorting
  import opened Consensus
  import opened ConsensusSteps

  /** An entry without an expiry is always in force, one with an expiry until that moment. */
  predicate InForce(allowlist: map<string, Option<int>>, c: string, now: int) {
    c in allowlist && (allowlist[c] == None || (allowlist[c].Some? && allowlist[c].value > now))
  }

  /** Some entry in force covers the address. */
  ghost predicate Shielded(net: Net, allowlist: map<string, Option<int>>, now: int, a: string) {
    exists c :: InForce(allowlist, c, now) && net.covers(c, a)
  }

  lemma ActiveIsInForce(net: Net, allowlist: map<string, Option<int>>, now: int, a: string)
    ensures Exempt(net, Active(allowlist, now), a) <==> Shielded(net, allowlist, now, a)
    ensures forall c :: c in Active(allowlist, now) <==> InForce(allowlist, c, now)
  {
    if c :| InForce(allowlist, c, now) && net.covers(c, a) { assert c in Active(allowlist, now); }
  }

  // ----- who is promoted -----

  /** The event is about the address and inside the window. */
  predicate About(net: Net, cfg: Config, events: Events, now: int, a: string, k: Sighting) {
    k in events && k.observedAt >= now - cfg.window && net.parse(k.ip) == Some(a)
  }

  /** An address is promoted exactly if at least minSystems systems reported it within the window and no entry in
      force covers it; entries whose time has come hold nothing back. */
  lemma PromotionMeans(net: Net, cfg: Config, db: Db, now: int, a: string)
    ensures a in Promoted(net, cfg, db.events, Active(db.allowlist, now), now)
       <==> && (exists k :: About(net, cfg, db.events, now, a, k))
            && |set k | k in db.events && About(net, cfg, db.events, now, a, k) :: k.systemId| >= cfg.minSystems
            && !Shielded(net, db.allowlist, now, a)
  {
    PromotedIffAgreed(net, cfg, db.events, Active(db.allowlist, now), now, a);
    ActiveIsInForce(net, db.allowlist, now, a);
    var e := Evidence(net, db.events, now - cfg.window, a);
    assert Reporters(e) == set k | k in db.events && About(net, cfg, db.events, now, a, k) :: k.systemId;
    if k :| About(net, cfg, db.events, now, a, k) { assert k in e; }
    if e != {} { assert About(net, cfg, db.events, now, a, Pick(e)); }
    hide Exempt, Shielded, Promoted;
  }

  /** The row a promotion writes: seen when the latest of those events was dated, but not after now, and listed for
      the TTL from then; with the systems, the scenarios and the hits of exactly those events. */
  lemma ListingMeans(net: Net, cfg: Config, events: Events, now: int, a: string)
    requires exists k :: About(net, cfg, events, now, a, k)
    ensures var row := Listing(net, cfg, events, now, a);
            && row.expiresAt == row.lastSeenAt + cfg.ttl && row.decidedAt == now && row.lastSeenAt <= now
            && (now >= 0 ==> forall k :: About(net, cfg, events, now, a, k) && k.observedAt <= now
                                         ==> row.lastSeenAt >= k.observedAt)
            && (now >= 0 && (exists k :: About(net, cfg, events, now, a, k) && k.observedAt >= now)
                ==> row.lastSeenAt == now)
            && (row.lastSeenAt == now || row.lastSeenAt == 0
                || exists k :: About(net, cfg, events, now, a, k) && k.observedAt == row.lastSeenAt)
            && row.systems == |set k | k in events && About(net, cfg, events, now, a, k) :: k.systemId|
            && (forall s :: s in row.scenarios <==> exists k :: About(net, cfg, events, now, a, k) && k.scenario == s)
            && row.hits == Sum((set k | k in events && About(net, cfg, events, now, a, k)), HitsOf(events))
  {
    var e := Evidence(net, events, now - cfg.window, a);
    assert e == set k | k in events && About(net, cfg, events, now, a, k);
    assert Reporters(e) == set k | k in events && About(net, cfg, events, now, a, k) :: k.systemId;
    var some :| About(net, cfg, events, now, a, some);
    assert some in e;
    LatestMeans(e);
    forall s ensures s in Scenarios(e) <==> exists k :: About(net, cfg, events, now, a, k) && k.scenario == s {
      if s in Scenarios(e) {
        var k :| k in e && k.scenario == s;
        assert About(net, cfg, events, now, a, k);
      }
    }
    assert forall k :: k in e <==> About(net, cfg, events, now, a, k);
    hide Evidence, Scenarios, Reporters, LastSeen, Times;
  }

  lemma LatestMeans(e: set<Sighting>)
    requires e != {}
    ensures forall k :: k in e ==> LastSeen(e) >= k.observedAt
    ensures LastSeen(e) == 0 || exists k :: k in e && k.observedAt == LastSeen(e)
    ensures LastSeen(e) >= 0
  {
    assert Pick(e).observedAt in Times(e);
    forall k | k in e ensures LastSeen(e) >= k.observedAt { assert k.observedAt in Times(e); }
  }

  // ----- what a pass leaves -----

  /** The row as the promotion of this pass leaves it, if there is one. */
  ghost function AfterPromotion(net: Net, cfg: Config, db: Db, now: int, a: string): Option<Row> {
    if a in Promoted(net, cfg, db.events, Active(db.allowlist, now), now)
    then
      var row := Listing(net, cfg, db.events, now, a);
      Some(row.(firstListedAt := if a in db.blocklist then db.blocklist[a].firstListedAt else now))
    else if a in db.blocklist then Some(db.blocklist[a]) else None
  }

  /** After a pass whose critical steps succeed a row is in the blocklist exactly if it was there or was promoted, its
      time has not come, and no entry in force covers its address; and it is the promotion's row or the old one. */
  lemma RowsAfterPass(net: Net, cfg: Config, db: Db, now: int, ok: World, a: string)
    requires Readable(net, db, now, ok) && ok(PROMOTE) && ok(EXPIRE) && ok(UNLIST)
    ensures var row := AfterPromotion(net, cfg, db, now, a);
            var stays := row.Some? && row.value.expiresAt > now
                         && !(net.parse(a).Some? && Shielded(net, db.allowlist, now, net.parse(a).value));
            && (a in PassDb(net, cfg, db, now, ok).blocklist <==> stays)
            && (stays ==> PassDb(net, cfg, db, now, ok).blocklist[a] == row.value)
  {
    hide Promoted, Listing, Shielded, Exempt, Active;
    if net.parse(a).Some? { ActiveIsInForce(net, db.allowlist, now, net.parse(a).value); }
    if a in Promoted(net, cfg, db.events, Active(db.allowlist, now), now) {
      PromotedRow(net, cfg, db.events, Active(db.allowlist, now), now, a);
    }
  }

  /** Events go only by a pass whose pruning succeeds, and only those older than the retention; the allowlist is never
      written. */
  lemma EventsAfterPass(net: Net, cfg: Config, db: Db, now: int, ok: World, k: Sighting)
    ensures var after := PassDb(net, cfg, db, now, ok);
            && after.allowlist == db.allowlist
            && (k in after.events ==> k in db.events && after.events[k] == db.events[k])
            && (k in db.events && k !in after.events ==> ok(PRUNE) && k.observedAt < now - cfg.retention)
            && (Completes(net, db, now, ok) && ok(PRUNE) && k.observedAt < now - cfg.retention ==> k !in after.events)
  {
    hide Promoted, Refreshed, Expired, Unlisted;
  }

  /** A pass reads an allowlist only if it can be read and every entry in force is well formed; it completes if no
      step but the pruning fails. */
  lemma CompletionMeans(net: Net, db: Db, now: int, ok: World)
    ensures Completes(net, db, now, ok)
       <==> && ok(0) && ok(1) && ok(2) && ok(3) && ok(4) && ok(6) && ok(7)
            && forall c :: InForce(db.allowlist, c, now) ==> net.wellFormed(c)
  {
    ActiveIsInForce(net, db.allowlist, now, "");
    hide Active;
  }

  // ----- what is served -----

  /** x goes before a: seen later, or as late and first by its text. */
  predicate Precedes(b: Blocklist, x: string, a: string)
    requires x in b && a in b
  {
    b[x].lastSeenAt > b[a].lastSeenAt || (b[x].lastSeenAt == b[a].lastSeenAt && StringLess(x, a))
  }

  /** The feed is the live rows with fewer than maxEntries live rows before them. */
  lemma FeedMeans(b: Blocklist, now: int, maxEntries: nat, a: string)
    ensures a in Feed(b, now, maxEntries)
       <==> && a in b && b[a].expiresAt > now
            && |set x | x in b && b[x].expiresAt > now && Precedes(b, x, a)| < maxEntries
  {
    if a in b {
      assert Ahead(b, now, a) == set x | x in b && b[x].expiresAt > now && Precedes(b, x, a);
    }
  }

  /** A generation is ready, dated by its pass, lists the feed's addresses in their canonical spelling, and is marked
      capped exactly if more rows have time left than it may list. */
  lemma GenerationMeans(net: Net, cfg: Config, b: Blocklist, now: int)
    ensures var g := Generated(net, cfg, b, now);
            && g.ready && g.generatedAt == now
            && (forall a :: a in g.addrs <==> exists x :: x in Feed(b, now, cfg.maxEntries) && net.parse(x) == Some(a))
            && (g.capped <==> |set x | x in b && b[x].expiresAt > now| > cfg.maxEntries)
  {
    hide Feed;
    assert LiveSet(b, now) == set x | x in b && b[x].expiresAt > now;
  }

  /** No completed pass serves an address that an entry in force covers. */
  lemma ServedIsNotShielded(net: Net, cfg: Config, s: Sys, now: int, ok: World, a: string, c: string)
    requires Addresses(net) && Inv(net, cfg, s) && Completes(net, s.db, now, ok)
    requires a in Apply(net, cfg, s, Pass(now, ok)).snap.addrs
    requires c in s.db.allowlist && (s.db.allowlist[c] == None || s.db.allowlist[c].value > now)
    ensures !net.covers(c, a)
  {
    ServedIsCurrent(net, cfg, s, now, ok, a);
    ActiveIsInForce(net, s.db.allowlist, now, a);
    assert InForce(s.db.allowlist, c, now);
    hide Active, Apply;
  }

  /** And every address enough systems reported, that no entry in force covers and whose listing has not run out, is
      listed; it is served if the cap leaves room. */
  lemma AgreedIsServed(net: Net, cfg: Config, s: Sys, now: int, ok: World, a: string)
    requires Addresses(net) && Inv(net, cfg, s) && Completes(net, s.db, now, ok)
    requires exists k :: About(net, cfg, s.db.events, now, a, k)
    requires |set k | k in s.db.events && About(net, cfg, s.db.events, now, a, k) :: k.systemId| >= cfg.minSystems
    requires forall c :: c in s.db.allowlist && net.covers(c, a)
                         ==> s.db.allowlist[c].Some? && s.db.allowlist[c].value <= now
    requires Listing(net, cfg, s.db.events, now, a).expiresAt > now
    ensures var s' := Apply(net, cfg, s, Pass(now, ok));
            && Live(s'.db.blocklist, now, a)
            && (a in Feed(s'.db.blocklist, now, cfg.maxEntries) ==> a in s'.snap.addrs)
  {
    assert !Shielded(net, s.db.allowlist, now, a);
    PromotionMeans(net, cfg, s.db, now, a);
    PromotedIffAgreed(net, cfg, s.db.events, Active(s.db.allowlist, now), now, a);
    AgreedIsCanonical(net, cfg, s.db.events, Active(s.db.allowlist, now), now, a);
    RowsAfterPass(net, cfg, s.db, now, ok, a);
    hide PassDb, Promoted, Listing, Agreed, Shielded, Feed, Active, About, Inv;
  }

  // ----- the eight calls -----

  /** The entries a pass under way has read are those in force when it read them. */
  lemma ReadsThoseInForce(net: Net, cfg: Config, m: Machine, t: Tick)
    requires m.at.Gathered? && Ticked(net, cfg, m, t).at.Permitted?
    ensures var at := Ticked(net, cfg, m, t).at;
            at.now == m.at.now && forall c :: c in at.entries <==> InForce(m.sys.db.allowlist, c, m.at.now)
  {
    ActiveIsInForce(net, m.sys.db.allowlist, m.at.now, "");
    hide Active;
  }

  /** The n-th state is the one in which the pass that is under way after ts read its allowlist. */
  ghost predicate ReadAt(net: Net, cfg: Config, m: Machine, ts: seq<Tick>, n: int, now: int, entries: set<string>) {
    && 0 <= n < |ts| && After(net, cfg, m, ts[..n]).at.Gathered? && After(net, cfg, m, ts[..n]).at.now == now
    && forall c :: c in entries <==> InForce(After(net, cfg, m, ts[..n]).sys.db.allowlist, c, now)
  }

  predicate HasRead(at: Phase) {
    at.Permitted? || at.Upserted? || at.Reaped? || at.Cleared? || at.Swept? || at.Chosen?
  }

  lemma {:induction false} EntriesWereRead(net: Net, cfg: Config, m: Machine, ts: seq<Tick>)
    requires m.at.Resting? && HasRead(After(net, cfg, m, ts).at)
    ensures var at := After(net, cfg, m, ts).at; exists n :: ReadAt(net, cfg, m, ts, n, at.now, at.entries)
  {
    var init, t := ts[..|ts| - 1], ts[|ts| - 1];
    var before, after := After(net, cfg, m, init), After(net, cfg, m, ts);
    assert after == Ticked(net, cfg, before, t);
    hide Ticked, InForce;
    if HasRead(before.at) {
      EntriesWereRead(net, cfg, m, init);
      StaysRead(net, cfg, before, t);
      var n :| ReadAt(net, cfg, m, init, n, before.at.now, before.at.entries);
      assert init[..n] == ts[..n];
      assert ReadAt(net, cfg, m, ts, n, after.at.now, after.at.entries);
    } else {
      NewlyRead(net, cfg, before, t);
      ReadsThoseInForce(net, cfg, before, t);
      assert ReadAt(net, cfg, m, ts, |init|, after.at.now, after.at.entries);
    }
  }

  lemma StaysRead(net: Net, cfg: Config, m: Machine, t: Tick)
    requires HasRead(m.at) && HasRead(Ticked(net, cfg, m, t).at)
    ensures Ticked(net, cfg, m, t).at.now == m.at.now && Ticked(net, cfg, m, t).at.entries == m.at.entries
  {
    hide Promoted, Refreshed, Expired, Unlisted, Feed;
  }

  lemma NewlyRead(net: Net, cfg: Config, m: Machine, t: Tick)
    requires !HasRead(m.at) && HasRead(Ticked(net, cfg, m, t).at)
    ensures m.at.Gathered? && Ticked(net, cfg, m, t).at.Permitted?
  {
  }

  /** In every interleaving: when a pass publishes, no entry that was in force when it read the allowlist covers what
      it serves. */
  lemma ServedWasNotShielded(net: Net, cfg: Config, m: Machine, ts: seq<Tick>, a: string)
    requires Addresses(net) && Safe(net, cfg, m) && m.at.Resting? && After(net, cfg, m, ts).at.Chosen?
    requires a in Ticked(net, cfg, After(net, cfg, m, ts), Goes(true)).sys.snap.addrs
    ensures exists n, entries :: ReadAt(net, cfg, m, ts, n, After(net, cfg, m, ts).at.now, entries)
                                 && forall c :: c in entries ==> !net.covers(c, a)
  {
    ServedWasPermitted(net, cfg, m, ts, Goes(true));
    EntriesWereRead(net, cfg, m, ts);
    var at := After(net, cfg, m, ts).at;
    hide After, Ticked, InForce;
    var n :| ReadAt(net, cfg, m, ts, n, at.now, at.entries);
  }
}
