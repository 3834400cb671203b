/** The consensus runner and the snapshot it feeds: one pass in the order the program takes its steps. */
module Blocklist {
  import opened Model
  import opened Sets
  import opened Sorting
  import opened Consensus
  import opened ThreatStore

  class Published {
    var ready: bool
    var body: seq<string>
    var generatedAt: int
    var capped: bool

    ghost function View(): Snapshot
      reads this
    {
      Snapshot(ready, (set a | a in body), generatedAt, capped)
    }

    constructor ()
      ensures View() == NOTHING
    {
      ready, body, generatedAt, capped := false, [], 0, false;
    }

    /** Renders the rows that parse, in numeric order, then swaps every field at once. */
    method Generate(net: Net, rows: seq<string>, isCapped: bool, now: int)
      requires Addresses(net)
      modifies this
      ensures View() == Snapshot(true, Spelled(net, (set a | a in rows)), now, isCapped)
      ensures SortedBy(body, net.less)
      ensures (forall a :: a in rows ==> net.parse(a) == Some(a)) && Distinct(rows)
              ==> |body| == |rows| && StrictlySorted(body, net.less)
    {
      var addrs: seq<string> := [];
      for i := 0 to |rows|
        invariant forall a :: a in addrs <==> exists j :: 0 <= j < i && net.parse(rows[j]) == Some(a)
        invariant (forall a :: a in rows ==> net.parse(a) == Some(a)) ==> addrs == rows[..i]
      {
        assert rows[i] in rows && rows[..i + 1] == rows[..i] + [rows[i]];
        match net.parse(rows[i])
        case None =>
        case Some(a) => addrs := addrs + [a];
      }
      assert rows[..|rows|] == rows;
      TotalIsWeak(net.less);
      var sorted := Sort(addrs, net.less);
      MembersOfPermutation(addrs, sorted);
      if Distinct(addrs) {
        DistinctPermutation(addrs, sorted);
        DistinctSortedIsStrict(sorted, net.less);
      }
      ready, body, generatedAt, capped := true, sorted, now, isCapped;
    }
  }

  /** out has the entries of m for the addresses seen so far. */
  ghost predicate Partial(out: seq<Entry>, m: Consensus.Blocklist, seen: seq<string>) {
    && (forall x, y :: 0 <= x < y < |out| ==> out[x].ip != out[y].ip)
    && (forall e :: e in out ==> e.ip in seen && e.ip in m && m[e.ip] == e.row)
    && (forall a :: a in seen && a in m ==> Entry(a, m[a]) in out)
  }

  lemma NothingYet(m: Consensus.Blocklist)
    ensures Partial([], m, [])
  {
  }

  lemma PartialStep(out: seq<Entry>, m: Consensus.Blocklist, seen: seq<string>, a: string, row: Row)
    requires Partial(out, m, seen) && a !in seen && (a in m ==> m[a] == row)
    ensures Partial(if a in m then out + [Entry(a, row)] else out, m, seen + [a])
  {
    var after := if a in m then out + [Entry(a, row)] else out;
    forall x | x in seen + [a] && x in m ensures Entry(x, m[x]) in after {
      if x == a { assert after[|out|] == Entry(a, row); }
      else { assert Entry(x, m[x]) in out; }
    }
  }

  lemma PartialIsAll(out: seq<Entry>, m: Consensus.Blocklist, seen: seq<string>)
    requires Partial(out, m, seen) && forall a :: a in m ==> a in seen
    ensures Lists(out, m)
  {
  }

  class Runner {
    const store: Store
    const snap: Published
    const net: Net
    const cfg: Config

    constructor (store: Store, snap: Published, net: Net, cfg: Config)
      ensures this.store == store && this.snap == snap && this.net == net && this.cfg == cfg
    {
      this.store, this.snap, this.net, this.cfg := store, snap, net, cfg;
    }

    /** The candidate rows folded per address. */
    method FoldRows(rows: seq<Candidate>) returns (folded: map<string, Fold>)
      ensures folded == FoldAll(net, rows)
    {
      folded := map[];
      for i := 0 to |rows|
        invariant folded == FoldAll(net, rows[..i])
      {
        assert rows[..i + 1][..i] == rows[..i];
        match net.parse(rows[i].key.ip)
        case None =>
        case Some(a) =>
          var r := rows[i];
          var c := if a in folded then folded[a] else Fold({}, {}, 0, 0);
          var last := if r.lastSeen > c.lastSeen then r.lastSeen else c.lastSeen;
          folded := folded[a := Fold(c.systems + {r.key.systemId}, c.scenarios + {r.key.scenario}, c.hits + r.hits,
                                     last)];
      }
      assert rows[..|rows|] == rows;
    }

    /** The entries that clear the rule, by address. */
    method Promote(rows: seq<Candidate>, entries: set<string>, now: int, ghost events: Events) returns (out: seq<Entry>)
      requires AreCandidates(rows, events, now - cfg.window)
      ensures Lists(out, Promoted(net, cfg, events, entries, now))
    {
      hide FoldAll, Promoted, FoldOf, AreCandidates, Entered, Evidence, Partial;
      ghost var m := Promoted(net, cfg, events, entries, now);
      var folded := FoldRows(rows);
      StringLessTotal();
      var addrs := InOrder(folded.Keys, StringLess);
      out := [];
      NothingYet(m);
      for i := 0 to |addrs|
        invariant Partial(out, m, addrs[..i])
      {
        var a := addrs[i];
        assert addrs[..i + 1] == addrs[..i] + [a];
        StrictIsDistinct(addrs, StringLess);
        assert a in folded;
        FoldIsEvidence(net, events, now - cfg.window, rows, a);
        EnteredIsListing(events, entries, now, a, folded[a]);
        PartialStep(out, m, addrs[..i], a, Entered(folded[a], now));
        if !Exempted(entries, a) && |folded[a].systems| >= cfg.minSystems {
          out := out + [Entry(a, Entered(folded[a], now))];
        }
      }
      assert addrs[..|addrs|] == addrs;
      AllPromoted(rows, folded, events, entries, now);
      PartialIsAll(out, m, addrs);
    }

    predicate Exempted(entries: set<string>, a: string) { exists c :: c in entries && net.covers(c, a) }

    function Entered(c: Fold, now: int): Row {
      var lastSeen := if c.lastSeen > now then now else c.lastSeen;
      Row(now, lastSeen, lastSeen + cfg.ttl, |c.systems|, c.scenarios, c.hits, now)
    }

    lemma EnteredIsListing(events: Events, entries: set<string>, now: int, a: string, c: Fold)
      requires var e := Evidence(net, events, now - cfg.window, a); e != {} && c == FoldOf(events, e)
      ensures a in Promoted(net, cfg, events, entries, now) <==> !Exempted(entries, a) && |c.systems| >= cfg.minSystems
      ensures a in Promoted(net, cfg, events, entries, now)
              ==> Promoted(net, cfg, events, entries, now)[a] == Entered(c, now)
    {
      hide Promoted;
      PromotedIffAgreed(net, cfg, events, entries, now, a);
      if a in Promoted(net, cfg, events, entries, now) { PromotedRow(net, cfg, events, entries, now, a); }
    }

    lemma AllPromoted(rows: seq<Candidate>, folded: map<string, Fold>, events: Events, entries: set<string>, now: int)
      requires AreCandidates(rows, events, now - cfg.window) && folded == FoldAll(net, rows)
      ensures forall a :: a in Promoted(net, cfg, events, entries, now) ==> a in folded
    {
      hide FoldAll, Promoted;
      forall a | a in Promoted(net, cfg, events, entries, now) ensures a in folded {
        PromotedIffAgreed(net, cfg, events, entries, now, a);
        FoldIsEvidence(net, events, now - cfg.window, rows, a);
      }
    }

    /** Deletes the live rows the allowlist covers. */
    method Unlist(entries: set<string>, now: int)
      modifies store`blocklist
      ensures store.blocklist == Unlisted(net, old(store.blocklist), entries, now)
    {
      if entries == {} { return; }
      var ips := store.ListBlocklistIPs(now);
      var covered: seq<string> := [];
      for i := 0 to |ips|
        invariant forall a :: a in covered <==>
                    a in ips[..i] && net.parse(a).Some? && Exempted(entries, net.parse(a).value)
      {
        assert ips[..i + 1] == ips[..i] + [ips[i]];
        match net.parse(ips[i])
        case None =>
        case Some(addr) => if Exempted(entries, addr) { covered := covered + [ips[i]]; }
      }
      assert ips[..|ips|] == ips;
      if |covered| > 0 { store.DeleteBlocklistEntries(covered); }
    }

    /** promote, expire, unlist, prune: what the pass does to the tables. */
    method Rewrite(now: int, ok: World) returns (done: bool)
      modifies store
      ensures store.Db() == PassDb(net, cfg, old(store.Db()), now, ok)
      ensures done == (Readable(net, old(store.Db()), now, ok) && ok(PROMOTE) && ok(EXPIRE) && ok(UNLIST))
    {
      hide Promoted, Refreshed, Expired, Unlisted, Pruned, AreCandidates, Lists;
      if !ok(CANDIDATES) { return false; }
      var rows := store.ConsensusCandidates(now - cfg.window);
      if !ok(ALLOWLIST) { return false; }
      var entries := store.ThreatAllowlist(now);
      if exists c :: c in entries && !net.wellFormed(c) { return false; }

      var promoted := Promote(rows, entries, now, store.events);
      if !ok(PROMOTE) { return false; }
      store.UpsertBlocklistEntries(promoted, Promoted(net, cfg, store.events, entries, now));
      if !ok(EXPIRE) { return false; }
      store.ExpireBlocklist(now);
      if !ok(UNLIST) { return false; }
      Unlist(entries, now);
      if ok(PRUNE) { store.PruneThreatEvents(now - cfg.retention); }
      return true;
    }

    /** The capped list and the new generation. */
    method Publish(now: int, ok: World) returns (done: bool)
      requires Addresses(net)
      modifies snap
      ensures done == (ok(LIST) && ok(GENERATE))
      ensures snap.View() == if done then Generated(net, cfg, store.blocklist, now) else old(snap.View())
    {
      hide Feed, Spelled;
      if !ok(LIST) { return false; }
      var live := store.ListBlocklist(now, cfg.maxEntries + 1);
      var capped := |live| > cfg.maxEntries;
      var shown := if capped then live[..cfg.maxEntries] else live;
      if !ok(GENERATE) { return false; }
      ShownIsFeed(store.blocklist, now, live, shown);
      snap.Generate(net, shown, capped, now);
      return true;
    }

    method Run(now: int, ok: World) returns (done: bool)
      requires Addresses(net)
      modifies store, snap
      ensures store.Db() == PassDb(net, cfg, old(store.Db()), now, ok)
      ensures snap.View() == PassSnap(net, cfg, old(store.Db()), old(snap.View()), now, ok)
      ensures done == Completes(net, old(store.Db()), now, ok)
    {
      hide PassDb, Generated, Readable;
      done := Rewrite(now, ok);
      if done { done := Publish(now, ok); }
    }

    lemma ShownIsFeed(b: Consensus.Blocklist, now: int, live: seq<string>, shown: seq<string>)
      requires StrictlySorted(live, Order(b))
      requires forall a :: a in live <==> Live(b, now, a) && |Ahead(b, now, a)| < cfg.maxEntries + 1
      requires |live| == if cfg.maxEntries + 1 < |LiveSet(b, now)| then cfg.maxEntries + 1 else |LiveSet(b, now)|
      requires shown == if |live| > cfg.maxEntries then live[..cfg.maxEntries] else live
      ensures (set a | a in shown) == Feed(b, now, cfg.maxEntries)
    {
      OrderTotal(b);
      forall a ensures a in shown <==> a in Feed(b, now, cfg.maxEntries) {
        if a in live { ShownByRank(b, now, live, shown, a); }
        if a in Feed(b, now, cfg.maxEntries) { assert Live(b, now, a) && |Ahead(b, now, a)| < cfg.maxEntries + 1; }
        if a in shown { assert a in live; }
      }
    }

    lemma ShownByRank(b: Consensus.Blocklist, now: int, live: seq<string>, shown: seq<string>, a: string)
      requires StrictlySorted(live, Order(b)) && a in live
      requires forall x :: x in live <==> Live(b, now, x) && |Ahead(b, now, x)| < cfg.maxEntries + 1
      requires shown == if |live| > cfg.maxEntries then live[..cfg.maxEntries] else live
      ensures a in shown <==> |Ahead(b, now, a)| < cfg.maxEntries
    {
      OrderTotal(b);
      var i :| 0 <= i < |live| && live[i] == a;
      forall x ensures x in Ahead(b, now, a) <==> x in live && Order(b)(x, a) {
        if x in Ahead(b, now, a) {
          forall y | y in Ahead(b, now, x) ensures y in Ahead(b, now, a) {
            assert Order(b)(y, x) && Order(b)(x, a);
          }
          SubsetSize(Ahead(b, now, x), Ahead(b, now, a));
        }
      }
      RankIsPosition(live, i, Ahead(b, now, a), Order(b));
      StrictIsDistinct(live, Order(b));
      if |live| > cfg.maxEntries { TakenByPosition(live, cfg.maxEntries, i); }
    }
  }
}
