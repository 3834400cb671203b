/** The consensus pass taken apart: each call to the store is a step of its own, and events arrive and allowlist
    entries change between them. */
module ConsensusSteps {
  import opened Model
  import opened Sets
  import opened Consensus

  /** Where the runner is: what it has read so far, and what is left to do. */
  datatype Phase =
    | Resting
    | Gathered(now: int, events: Events)                                              // the candidates are read
    | Permitted(now: int, events: Events, entries: set<string>)                       // and the allowlist
    | Upserted(now: int, entries: set<string>)
    | Reaped(now: int, entries: set<string>)
    | Cleared(now: int, entries: set<string>)
    | Swept(now: int, entries: set<string>)
    | Chosen(now: int, entries: set<string>, rows: set<string>, capped: bool)         // the list is read

  datatype Machine = Machine(sys: Sys, at: Phase)

  datatype Tick =
    | Arrives(batch: Events)
    | Edits(entries: map<string, Option<int>>)
    | Begins(now: int, ok: bool)   // the first call of a pass; one begun inside another abandons it
    | Goes(ok: bool)               // the next call, whichever it is
    | Restarts                     // the served generation is in memory only

  /** The next call of the pass; only the pruning may fail and be passed over. */
  ghost function Gone(net: Net, cfg: Config, s: Sys, at: Phase, ok: bool): Machine {
    if !ok && !at.Cleared? then Machine(s, Resting)
    else
      match at
      case Resting => Machine(s, Resting)
      case Gathered(now, events) =>
        var entries := Active(s.db.allowlist, now);
        Machine(s, if forall c :: c in entries ==> net.wellFormed(c) then Permitted(now, events, entries) else Resting)
      case Permitted(now, events, entries) =>
        var listed := Refreshed(s.db.blocklist, Promoted(net, cfg, events, entries, now));
        var rounds := s.rounds + [Round(now, events, entries)];
        Machine(s.(db := s.db.(blocklist := listed), rounds := rounds), Upserted(now, entries))
      case Upserted(now, entries) =>
        Machine(s.(db := s.db.(blocklist := Expired(s.db.blocklist, now))), Reaped(now, entries))
      case Reaped(now, entries) =>
        Machine(s.(db := s.db.(blocklist := Unlisted(net, s.db.blocklist, entries, now))), Cleared(now, entries))
      case Cleared(now, entries) =>
        var kept := if ok then Pruned(s.db.events, now - cfg.retention) else s.db.events;
        Machine(s.(db := s.db.(events := kept)), Swept(now, entries))
      case Swept(now, entries) =>
        var capped := |LiveSet(s.db.blocklist, now)| > cfg.maxEntries;
        Machine(s, Chosen(now, entries, Feed(s.db.blocklist, now, cfg.maxEntries), capped))
      case Chosen(now, entries, rows, capped) =>
        Machine(s.(snap := Snapshot(true, Spelled(net, rows), now, capped)), Resting)
  }

  ghost function Ticked(net: Net, cfg: Config, m: Machine, t: Tick): Machine {
    match t
    case Arrives(batch) => m.(sys := Apply(net, cfg, m.sys, Ingest(batch)))
    case Edits(entries) => m.(sys := Apply(net, cfg, m.sys, EditAllowlist(entries)))
    case Begins(now, ok) =>
      Machine(m.sys.(clock := now), if ok then Gathered(now, m.sys.db.events) else Resting)
    case Goes(ok) => Gone(net, cfg, m.sys, m.at, ok)
    case Restarts => Machine(m.sys.(snap := NOTHING), Resting)
  }

  ghost function After(net: Net, cfg: Config, m: Machine, ts: seq<Tick>): Machine {
    if ts == [] then m else Ticked(net, cfg, After(net, cfg, m, ts[..|ts| - 1]), ts[|ts| - 1])
  }

  // ----- an uninterrupted pass is the one-step pass -----

  function Calls(now: int, ok: World, n: nat): seq<Tick> {
    if n == 0 then [] else Calls(now, ok, n - 1) + [if n == 1 then Begins(now, ok(0)) else Goes(ok(n - 1))]
  }

  lemma OneCall(net: Net, cfg: Config, m: Machine, now: int, ok: World, n: nat)
    requires n > 0
    ensures After(net, cfg, m, Calls(now, ok, n))
         == Ticked(net, cfg, After(net, cfg, m, Calls(now, ok, n - 1)),
                   if n == 1 then Begins(now, ok(0)) else Goes(ok(n - 1)))
  {
    var ts := Calls(now, ok, n);
    assert ts[..|ts| - 1] == Calls(now, ok, n - 1);
    hide Ticked;
  }

  /** A pass that stopped stays stopped. */
  lemma {:induction false} StaysResting(net: Net, cfg: Config, m: Machine, now: int, ok: World, n: nat, k: nat)
    requires 0 < n <= k && After(net, cfg, m, Calls(now, ok, n)).at.Resting?
    ensures After(net, cfg, m, Calls(now, ok, k)) == After(net, cfg, m, Calls(now, ok, n))
    decreases k - n
  {
    hide After, Calls;
    if n < k {
      OneCall(net, cfg, m, now, ok, n + 1);
      StaysResting(net, cfg, m, now, ok, n + 1, k);
    }
  }

  /** The eight calls with nothing in between do what the pass of the coarser model does. */
  lemma PassIsEightCalls(net: Net, cfg: Config, s: Sys, now: int, ok: World)
    ensures After(net, cfg, Machine(s, Resting), Calls(now, ok, 8))
         == Machine(Apply(net, cfg, s, Pass(now, ok)), Resting)
  {
    FirstCalls(net, cfg, s, now, ok);
    hide After, Calls, Promoted, Refreshed, Expired, Unlisted, Feed, Spelled, Active;
    var m := Machine(s, Resting);
    if Readable(net, s.db, now, ok) && ok(PROMOTE) {
      LastCalls(net, cfg, s, now, ok);
    } else {
      StaysResting(net, cfg, m, now, ok, 3, 8);
    }
  }

  /** Up to the promotion. */
  lemma FirstCalls(net: Net, cfg: Config, s: Sys, now: int, ok: World)
    ensures var entries := Active(s.db.allowlist, now);
            After(net, cfg, Machine(s, Resting), Calls(now, ok, 3)) ==
            (if Readable(net, s.db, now, ok) && ok(PROMOTE)
             then Gone(net, cfg, s.(clock := now), Permitted(now, s.db.events, entries), true)
             else Machine(s.(clock := now), Resting))
  {
    hide Promoted, Refreshed, Active;
    var m := Machine(s, Resting);
    assert After(net, cfg, m, Calls(now, ok, 0)) == m;
    hide After, Calls;
    OneCall(net, cfg, m, now, ok, 1);
    OneCall(net, cfg, m, now, ok, 2);
    OneCall(net, cfg, m, now, ok, 3);
  }

  lemma LastCalls(net: Net, cfg: Config, s: Sys, now: int, ok: World)
    requires Readable(net, s.db, now, ok) && ok(PROMOTE)
    ensures After(net, cfg, Machine(s, Resting), Calls(now, ok, 8))
         == Machine(Apply(net, cfg, s, Pass(now, ok)), Resting)
  {
    hide After, Calls, Promoted, Refreshed, Expired, Unlisted, Feed, Spelled, Active;
    var m := Machine(s, Resting);
    FirstCalls(net, cfg, s, now, ok);
    OneCall(net, cfg, m, now, ok, 4);
    if !ok(EXPIRE) {
      StaysResting(net, cfg, m, now, ok, 4, 8);
    } else {
      OneCall(net, cfg, m, now, ok, 5);
      if !ok(UNLIST) {
        StaysResting(net, cfg, m, now, ok, 5, 8);
      } else {
        OneCall(net, cfg, m, now, ok, 6);
        OneCall(net, cfg, m, now, ok, 7);
        if !ok(LIST) { StaysResting(net, cfg, m, now, ok, 7, 8); } else { OneCall(net, cfg, m, now, ok, 8); }
      }
    }
  }

  // ----- safety, with anything in between -----

  /** What the rest of the pass relies on. */
  ghost predicate Ready(net: Net, cfg: Config, s: Sys, at: Phase) {
    match at
    case Cleared(now, entries) => NoneExempt(net, s.db.blocklist, now, entries)
    case Swept(now, entries) => NoneExempt(net, s.db.blocklist, now, entries)
    case Chosen(now, entries, rows, _) =>
      && |rows| <= cfg.maxEntries
      && forall a :: a in rows
                     ==> net.parse(a) == Some(a) && AgreedOnce(net, cfg, s.rounds, a) && !Exempt(net, entries, a)
    case _ => true
  }

  /** No live row is covered by the entries this pass read. */
  ghost predicate NoneExempt(net: Net, b: Blocklist, now: int, entries: set<string>) {
    forall a :: a in b && Live(b, now, a) && net.parse(a) == Some(a) ==> !Exempt(net, entries, a)
  }

  ghost predicate Safe(net: Net, cfg: Config, m: Machine) { Inv(net, cfg, m.sys) && Ready(net, cfg, m.sys, m.at) }

  lemma UpsertKeepsInv(net: Net, cfg: Config, s: Sys, now: int, events: Events, entries: set<string>)
    requires Addresses(net) && Inv(net, cfg, s)
    ensures Inv(net, cfg, Gone(net, cfg, s, Permitted(now, events, entries), true).sys)
  {
    hide Promoted, Listing, Agreed;
    var s', r := Gone(net, cfg, s, Permitted(now, events, entries), true).sys, Round(now, events, entries);
    assert r in s'.rounds && forall q :: q in s.rounds ==> q in s'.rounds;
    forall a | a in s'.db.blocklist
      ensures net.parse(a) == Some(a) && Justified(net, cfg, s'.rounds, a, s'.db.blocklist[a]) {
      if a in Promoted(net, cfg, events, entries, now) {
        PromotedIffAgreed(net, cfg, events, entries, now, a);
        PromotedRow(net, cfg, events, entries, now, a);
        AgreedIsCanonical(net, cfg, events, entries, now, a);
        assert Justifies(net, cfg, r, a, s'.db.blocklist[a]);
      } else {
        var q :| q in s.rounds && Justifies(net, cfg, q, a, s.db.blocklist[a]);
      }
    }
    forall a | a in s'.snap.addrs ensures AgreedOnce(net, cfg, s'.rounds, a) {
      var q :| q in s.rounds && Agreed(net, cfg, q.events, q.entries, q.now, a);
    }
  }

  /** Taking rows away from the blocklist, or events from their table, keeps what is promised of the rest. */
  lemma FewerKeepsInv(net: Net, cfg: Config, s: Sys, s': Sys)
    requires Inv(net, cfg, s) && s'.rounds == s.rounds && s'.snap == s.snap
    requires forall a :: a in s'.db.blocklist ==> a in s.db.blocklist && s'.db.blocklist[a] == s.db.blocklist[a]
    ensures Inv(net, cfg, s')
  {
    hide Justified, AgreedOnce;
  }

  lemma ChoiceIsReady(net: Net, cfg: Config, s: Sys, now: int, entries: set<string>)
    requires Inv(net, cfg, s) && NoneExempt(net, s.db.blocklist, now, entries)
    ensures Ready(net, cfg, s, Gone(net, cfg, s, Swept(now, entries), true).at)
  {
    hide Inv, NoneExempt, AgreedOnce, Exempt, Feed, LiveSet;
    FeedFits(s.db.blocklist, now, cfg.maxEntries);
    forall a | a in Feed(s.db.blocklist, now, cfg.maxEntries)
      ensures net.parse(a) == Some(a) && AgreedOnce(net, cfg, s.rounds, a) && !Exempt(net, entries, a) {
      FedIsReady(net, cfg, s, now, entries, a);
    }
  }

  lemma FedIsReady(net: Net, cfg: Config, s: Sys, now: int, entries: set<string>, a: string)
    requires Inv(net, cfg, s) && NoneExempt(net, s.db.blocklist, now, entries)
    requires a in Feed(s.db.blocklist, now, cfg.maxEntries)
    ensures net.parse(a) == Some(a) && AgreedOnce(net, cfg, s.rounds, a) && !Exempt(net, entries, a)
  {
    hide Listing, Exempt, Agreed, Ahead;
    assert a in s.db.blocklist && Live(s.db.blocklist, now, a);
    var r :| r in s.rounds && Justifies(net, cfg, r, a, s.db.blocklist[a]);
  }

  lemma PublishKeepsInv(net: Net, cfg: Config, s: Sys, at: Phase)
    requires Inv(net, cfg, s) && at.Chosen? && Ready(net, cfg, s, at)
    ensures Inv(net, cfg, Gone(net, cfg, s, at, true).sys)
    ensures Gone(net, cfg, s, at, true).sys.snap.addrs == at.rows
  {
    hide AgreedOnce, Justified;
    SpelledCanonically(net, s.db.blocklist, at.rows);
  }

  lemma GoesKeepsSafe(net: Net, cfg: Config, s: Sys, at: Phase, ok: bool)
    requires Addresses(net) && Safe(net, cfg, Machine(s, at))
    ensures Safe(net, cfg, Gone(net, cfg, s, at, ok))
  {
    hide Inv, Promoted, Refreshed, Feed, Pruned;
    var m := Gone(net, cfg, s, at, ok);
    if at.Permitted? && ok { UpsertKeepsInv(net, cfg, s, at.now, at.events, at.entries); }
    if (at.Upserted? || at.Reaped?) && ok { FewerKeepsInv(net, cfg, s, m.sys); }
    if at.Cleared? { FewerKeepsInv(net, cfg, s, m.sys); }
    if at.Swept? && ok { ChoiceIsReady(net, cfg, s, at.now, at.entries); }
    if at.Chosen? && ok { PublishKeepsInv(net, cfg, s, at); }
    hide Exempt;
  }

  lemma RestartKeepsInv(net: Net, cfg: Config, s: Sys)
    requires Inv(net, cfg, s)
    ensures Inv(net, cfg, s.(snap := NOTHING))
  {
    hide Justified;
  }

  lemma TickKeepsSafe(net: Net, cfg: Config, m: Machine, t: Tick)
    requires Addresses(net) && Safe(net, cfg, m)
    ensures Safe(net, cfg, Ticked(net, cfg, m, t))
  {
    hide Gone, Justified, AgreedOnce, Exempt, NoneExempt;
    match t
    case Arrives(_) => FewerKeepsInv(net, cfg, m.sys, Ticked(net, cfg, m, t).sys);
    case Edits(_) => FewerKeepsInv(net, cfg, m.sys, Ticked(net, cfg, m, t).sys);
    case Begins(_, _) => FewerKeepsInv(net, cfg, m.sys, Ticked(net, cfg, m, t).sys);
    case Goes(ok) => GoesKeepsSafe(net, cfg, m.sys, m.at, ok);
    case Restarts => RestartKeepsInv(net, cfg, m.sys);
  }

  /** In every interleaving of the passes' calls with ingests, allowlist edits and restarts, whatever fails: at most
      maxEntries addresses are served, and each was agreed on in some pass. */
  lemma {:induction false} TicksKeepSafe(net: Net, cfg: Config, m: Machine, ts: seq<Tick>)
    requires Addresses(net) && Safe(net, cfg, m)
    ensures Safe(net, cfg, After(net, cfg, m, ts))
  {
    hide Safe, Ticked;
    if ts != [] {
      TicksKeepSafe(net, cfg, m, ts[..|ts| - 1]);
      TickKeepsSafe(net, cfg, After(net, cfg, m, ts[..|ts| - 1]), ts[|ts| - 1]);
    }
  }

  /** The served generation changes only by the last call of a pass, whole; what it then serves was listed, and no
      entry of the allowlist the pass read covers it. */
  lemma ServedWasPermitted(net: Net, cfg: Config, m: Machine, ts: seq<Tick>, t: Tick)
    requires Addresses(net) && Safe(net, cfg, m)
    ensures var before, after := After(net, cfg, m, ts), Ticked(net, cfg, After(net, cfg, m, ts), t);
            if before.at.Chosen? && t == Goes(true)
            then && after.sys.snap == Snapshot(true, before.at.rows, before.at.now, before.at.capped)
                 && forall a :: a in before.at.rows ==> !Exempt(net, before.at.entries, a)
            else after.sys.snap == if t.Restarts? then NOTHING else before.sys.snap
  {
    TicksKeepSafe(net, cfg, m, ts);
    var before := After(net, cfg, m, ts);
    if before.at.Chosen? && t == Goes(true) { PublishKeepsInv(net, cfg, before.sys, before.at); }
    hide After, Inv, Exempt;
  }

  // ----- refreshing never goes back, with anything in between -----

  /** As Anchors, in the events the pass has read. */
  ghost predicate AnchorsIn(net: Net, cfg: Config, s: Sys, events: Events, a: string, k: Sighting)
    requires a in s.db.blocklist
  {
    Anchors(net, cfg, s.(db := s.db.(events := events)), a, k)
  }

  /** The pass runs at the clock; until it promotes, every row has its sighting among the events it read, and those
      are still stored. */
  ghost predicate Reading(net: Net, cfg: Config, s: Sys, at: Phase) {
    && (!at.Resting? ==> at.now == s.clock)
    && (at.Gathered? || at.Permitted? ==>
          && at.events.Keys <= s.db.events.Keys
          && forall a :: a in s.db.blocklist ==> exists k :: AnchorsIn(net, cfg, s, at.events, a, k))
  }

  ghost predicate Recalls(net: Net, cfg: Config, m: Machine) {
    Remembers(net, cfg, m.sys) && Reading(net, cfg, m.sys, m.at)
  }

  predicate OnTime(m: Machine, t: Tick) { t.Begins? ==> m.sys.clock <= t.now }

  /** Rows and events that stay, or go as the pass lets them go, keep their anchors. */
  lemma AnchorKept(net: Net, cfg: Config, s: Sys, s': Sys, a: string)
    requires a in s.db.blocklist && Anchored(net, cfg, s, a) && s.clock <= s'.clock
    requires a in s'.db.blocklist && s'.db.blocklist[a] == s.db.blocklist[a]
    requires forall k :: k in s.db.events ==> k in s'.db.events || k.observedAt < s'.clock - cfg.retention
    ensures Anchored(net, cfg, s', a)
  {
    var k :| Anchors(net, cfg, s, a, k);
    assert Anchors(net, cfg, s', a, k);
  }

  lemma UpsertKeepsAnchors(net: Net, cfg: Config, s: Sys, now: int, events: Events, entries: set<string>, a: string)
    requires Remembers(net, cfg, s) && Reading(net, cfg, s, Permitted(now, events, entries))
    requires a in Gone(net, cfg, s, Permitted(now, events, entries), true).sys.db.blocklist
    ensures Anchored(net, cfg, Gone(net, cfg, s, Permitted(now, events, entries), true).sys, a)
  {
    hide Promoted, Agreed, Evidence, Remembers;
    var s' := Gone(net, cfg, s, Permitted(now, events, entries), true).sys;
    if a in Promoted(net, cfg, events, entries, now) {
      PromotedIffAgreed(net, cfg, events, entries, now, a);
      PromotedRow(net, cfg, events, entries, now, a);
      var k := LatestSighting(net, cfg, events, entries, now, a);
      InEvidence(net, events, now - cfg.window, a, k);
      assert Anchors(net, cfg, s', a, k);
    } else {
      assert Anchored(net, cfg, s, a) by { UseRemembers(net, cfg, s, a); }
      AnchorKept(net, cfg, s, s', a);
    }
  }

  lemma UseRemembers(net: Net, cfg: Config, s: Sys, a: string)
    requires Remembers(net, cfg, s) && a in s.db.blocklist
    ensures Anchored(net, cfg, s, a)
  {
  }

  lemma GoesKeepsRemembers(net: Net, cfg: Config, s: Sys, at: Phase, ok: bool)
    requires Remembers(net, cfg, s) && Reading(net, cfg, s, at)
    ensures Remembers(net, cfg, Gone(net, cfg, s, at, ok).sys)
  {
    hide Anchored, Promoted, Refreshed, Feed, Spelled, Remembers;
    var s' := Gone(net, cfg, s, at, ok).sys;
    forall a | a in s'.db.blocklist ensures Anchored(net, cfg, s', a) {
      if at.Permitted? && ok {
        UpsertKeepsAnchors(net, cfg, s, at.now, at.events, at.entries, a);
      } else {
        UseRemembers(net, cfg, s, a);
        AnchorKept(net, cfg, s, s', a);
      }
    }
    AllAnchored(net, cfg, s');
  }

  lemma AllAnchored(net: Net, cfg: Config, s: Sys)
    requires forall a :: a in s.db.blocklist ==> Anchored(net, cfg, s, a)
    ensures Remembers(net, cfg, s)
  {
  }

  lemma BeginsReading(net: Net, cfg: Config, s: Sys, now: int)
    requires Remembers(net, cfg, s) && s.clock <= now
    ensures var s' := s.(clock := now);
            Remembers(net, cfg, s') && Reading(net, cfg, s', Gathered(now, s.db.events))
  {
    var s' := s.(clock := now);
    forall a | a in s'.db.blocklist ensures Anchored(net, cfg, s', a) {
      UseRemembers(net, cfg, s, a);
      AnchorKept(net, cfg, s, s', a);
    }
    forall a | a in s'.db.blocklist ensures exists k :: AnchorsIn(net, cfg, s', s.db.events, a, k) {
      var k :| Anchors(net, cfg, s', a, k);
      assert AnchorsIn(net, cfg, s', s.db.events, a, k);
    }
  }

  /** More events and another allowlist disturb nothing the pass has read. */
  lemma BetweenKeepsReading(net: Net, cfg: Config, s: Sys, s': Sys, at: Phase)
    requires Remembers(net, cfg, s) && Reading(net, cfg, s, at)
    requires s'.db.blocklist == s.db.blocklist && s'.clock == s.clock && s.db.events.Keys <= s'.db.events.Keys
    ensures Remembers(net, cfg, s') && Reading(net, cfg, s', at)
  {
    forall a | a in s'.db.blocklist ensures Anchored(net, cfg, s', a) {
      UseRemembers(net, cfg, s, a);
      AnchorKept(net, cfg, s, s', a);
    }
    if at.Gathered? || at.Permitted? {
      forall a | a in s'.db.blocklist ensures exists k :: AnchorsIn(net, cfg, s', at.events, a, k) {
        var k :| AnchorsIn(net, cfg, s, at.events, a, k);
        assert AnchorsIn(net, cfg, s', at.events, a, k);
      }
    }
  }

  lemma TickRecalls(net: Net, cfg: Config, m: Machine, t: Tick)
    requires Recalls(net, cfg, m) && OnTime(m, t)
    ensures Recalls(net, cfg, Ticked(net, cfg, m, t))
  {
    hide Remembers, Promoted, Refreshed, Feed, Spelled, AnchorsIn;
    match t
    case Arrives(_) => BetweenKeepsReading(net, cfg, m.sys, Ticked(net, cfg, m, t).sys, m.at);
    case Edits(_) => BetweenKeepsReading(net, cfg, m.sys, Ticked(net, cfg, m, t).sys, m.at);
    case Begins(now, _) => BeginsReading(net, cfg, m.sys, now);
    case Goes(ok) => GoesKeepsRemembers(net, cfg, m.sys, m.at, ok);
    case Restarts => BetweenKeepsReading(net, cfg, m.sys, Ticked(net, cfg, m, t).sys, Resting);
  }

  ghost predicate InTime(net: Net, cfg: Config, m: Machine, ts: seq<Tick>) {
    ts != [] ==> InTime(net, cfg, m, ts[..|ts| - 1]) && OnTime(After(net, cfg, m, ts[..|ts| - 1]), ts[|ts| - 1])
  }

  lemma {:induction false} TicksRecall(net: Net, cfg: Config, m: Machine, ts: seq<Tick>)
    requires Recalls(net, cfg, m) && InTime(net, cfg, m, ts)
    ensures Recalls(net, cfg, After(net, cfg, m, ts))
  {
    hide Recalls, Ticked, OnTime;
    if ts != [] {
      TicksRecall(net, cfg, m, ts[..|ts| - 1]);
      TickRecalls(net, cfg, After(net, cfg, m, ts[..|ts| - 1]), ts[|ts| - 1]);
    }
  }

  lemma RelistedInSteps(net: Net, cfg: Config, s: Sys, now: int, events: Events, entries: set<string>, a: string)
    requires Reading(net, cfg, s, Permitted(now, events, entries)) && cfg.retention >= cfg.window
    requires a in s.db.blocklist && Anchored(net, cfg, s, a) && a in Promoted(net, cfg, events, entries, now)
    ensures Listing(net, cfg, events, now, a).lastSeenAt >= s.db.blocklist[a].lastSeenAt
    ensures Listing(net, cfg, events, now, a).expiresAt >= s.db.blocklist[a].expiresAt
  {
    hide Promoted, Agreed, Evidence;
    var k :| AnchorsIn(net, cfg, s, events, a, k);
    PromotedIffAgreed(net, cfg, events, entries, now, a);
    var latest := LatestSighting(net, cfg, events, entries, now, a);
    InEvidence(net, events, now - cfg.window, a, latest);
    InEvidence(net, events, now - cfg.window, a, k);
  }

  /** Whatever call comes next and whatever came between: a listed address keeps when it was first listed, and its
      last sighting and expiry never move back. */
  lemma TickNeverGoesBack(net: Net, cfg: Config, m: Machine, t: Tick, a: string)
    requires Recalls(net, cfg, m) && cfg.retention >= cfg.window
    requires a in m.sys.db.blocklist && a in Ticked(net, cfg, m, t).sys.db.blocklist
    ensures var row, row' := m.sys.db.blocklist[a], Ticked(net, cfg, m, t).sys.db.blocklist[a];
            && row'.firstListedAt == row.firstListedAt
            && row'.lastSeenAt >= row.lastSeenAt && row'.expiresAt >= row.expiresAt
  {
    UseRemembers(net, cfg, m.sys, a);
    hide Promoted, Feed, Spelled, Anchored, Remembers, Reading;
    if t.Goes? && t.ok && m.at.Permitted? && a in Promoted(net, cfg, m.at.events, m.at.entries, m.at.now) {
      PromotedRow(net, cfg, m.at.events, m.at.entries, m.at.now, a);
      RelistedInSteps(net, cfg, m.sys, m.at.now, m.at.events, m.at.entries, a);
    }
  }

  /** Over any interleaving, for as long as the address stays listed. */
  lemma {:induction false} ListingNeverGoesBackInSteps(net: Net, cfg: Config, m: Machine, ts: seq<Tick>, a: string)
    requires Recalls(net, cfg, m) && InTime(net, cfg, m, ts) && cfg.retention >= cfg.window
    requires forall n :: 0 <= n <= |ts| ==> a in After(net, cfg, m, ts[..n]).sys.db.blocklist
    ensures a in m.sys.db.blocklist && a in After(net, cfg, m, ts).sys.db.blocklist
    ensures var row, row' := m.sys.db.blocklist[a], After(net, cfg, m, ts).sys.db.blocklist[a];
            && row'.firstListedAt == row.firstListedAt
            && row'.lastSeenAt >= row.lastSeenAt && row'.expiresAt >= row.expiresAt
  {
    hide Recalls, Ticked, OnTime;
    assert ts[..|ts|] == ts && ts[..0] == [];
    assert a in After(net, cfg, m, ts[..0]).sys.db.blocklist && a in After(net, cfg, m, ts[..|ts|]).sys.db.blocklist;
    if ts != [] {
      var init := ts[..|ts| - 1];
      forall n | 0 <= n <= |init| ensures a in After(net, cfg, m, init[..n]).sys.db.blocklist {
        assert init[..n] == ts[..n];
      }
      ListingNeverGoesBackInSteps(net, cfg, m, init, a);
      TicksRecall(net, cfg, m, init);
      TickNeverGoesBack(net, cfg, After(net, cfg, m, init), ts[|ts| - 1], a);
    }
  }

  lemma StartIsSafe(net: Net, cfg: Config, clock: int)
    ensures Safe(net, cfg, Machine(Start(clock), Resting)) && Recalls(net, cfg, Machine(Start(clock), Resting))
  {
    StartHoldsInv(net, cfg, clock);
  }
}
