/** The life of a finding over whole runs: what its counters mean, when it reopens, what pruning spares. */
module FindingLife {
  import opened Model
  import opened Sorting
  import opened LogsDb
  import opened Sets
  import opened ReviewTrail

  lemma {:induction false} RefreshedRows(canon: Canon, db: Db, hits: seq<FindingKey>, ts: seq<Template>, now: int)
    requires Distinct(hits) && forall k :: k in hits ==> k in db.findings
    ensures var after := RefreshAll(canon, db, hits, ts, now);
            && after.findings.Keys == db.findings.Keys
            && forall k :: k in db.findings ==>
                 after.findings[k] ==
                   if k in hits then RefreshedFinding(canon, db.findings[k], ts, now) else db.findings[k]
  {
    if hits != [] {
      var init, last := hits[..|hits| - 1], hits[|hits| - 1];
      assert hits == init + [last] && last !in init;
      RefreshedRows(canon, db, init, ts, now);
      RefreshOneRows(canon, RefreshAll(canon, db, init, ts, now), last, ts, now);
    }
  }

  lemma RefreshOneRows(canon: Canon, db: Db, k: FindingKey, ts: seq<Template>, now: int)
    requires k in db.findings
    ensures var f := RefreshedFinding(canon, db.findings[k], ts, now);
            RefreshOne(canon, db, k, ts, now).findings == db.findings[k := f]
  {
  }

  /** Decisions never write a finding. */
  lemma {:induction false} DecidedAllFindings(db: Db, key: string, cs: seq<Change>, actor: string, now: int)
    ensures DecidedAll(db, key, cs, actor, now).findings == db.findings
  {
    if cs != [] { DecidedAllFindings(db, key, cs[..|cs| - 1], actor, now); }
  }

  lemma {:induction false} VisibleAllFindings(db: Db, keys: seq<string>, v: Visibility, action: Action, detail: string,
                                              actor: string, now: int)
    ensures VisibleAll(db, keys, v, action, detail, actor, now).findings == db.findings
  {
    if keys != [] { VisibleAllFindings(db, keys[..|keys| - 1], v, action, detail, actor, now); }
  }

  lemma UpdateFindings(db: Db, key: string, u: ClassUpdate, actor: string, now: int)
    ensures UpdateClass(db, key, u, actor, now).0.findings == db.findings
  {
    hide DecidedAll, Changes, LatestText;
    if key in db.classes {
      DecidedAllFindings(Seeded(db, key), key, Changes(db.classes[key], Seeded(db, key).texts[key], u), actor, now);
    }
  }

  predicate Timed(op: Op) { op.OpUpsert? || op.OpRefresh? }

  predicate Decides(op: Op) {
    op.OpVisibility? || op.OpSecurity? || op.OpSeverity? || op.OpDocRef? || op.OpUpdate? || op.OpVisibleAll?
  }

  /** The row of finding k after one write of any kind. */
  ghost function NextRow(canon: Canon, db: Db, op: Op, k: FindingKey): Option<Finding> {
    var row := if k in db.findings then Some(db.findings[k]) else None;
    match op
    case OpUpsert(r, now) => if r.key == k then Some(UpsertedFinding(db, r, now)) else row
    case OpRefresh(_, ts, hits, now) =>
      if row.Some? && k in hits then Some(RefreshedFinding(canon, row.value, ts, now)) else row
    case OpMarkStale(s, o) =>
      if row.Some? && k.systemId == s && row.value.status == Open && row.value.lastSeen < o
      then Some(row.value.(status := Stale)) else row
    case OpPruneFindings(victims, _) => if k in victims then None else row
    case _ => row
  }

  /** No decision of any kind writes a finding. */
  lemma DecisionsLeaveFindings(canon: Canon, db: Db, op: Op)
    requires Decides(op)
    ensures Apply(canon, db, op).findings == db.findings
  {
    hide UpdateClass, VisibleAll, UpsertFinding, RefreshAll, MarkStale;
    match op
    case OpUpdate(key, u, actor, now) => UpdateFindings(db, key, u, actor, now);
    case OpVisibleAll(keys, v, detail, actor, now) =>
      if VisibilityAction(v).Some? { VisibleAllFindings(db, keys, v, VisibilityAction(v).value, detail, actor, now); }
    case _ =>
  }

  lemma RefreshRow(canon: Canon, db: Db, op: Op, k: FindingKey)
    requires op.OpRefresh? && Enabled(canon, db, op)
    ensures var after := RefreshAll(canon, db, op.hits, op.ts, op.now);
            NextRow(canon, db, op, k) == if k in after.findings then Some(after.findings[k]) else None
  {
    hide RefreshedFinding, RefreshAll;
    assert forall j :: j in op.hits ==> j in Hits(canon, db, op.systemId, op.ts);
    RefreshedRows(canon, db, op.hits, op.ts, op.now);
  }

  lemma StepRow(canon: Canon, db: Db, op: Op, k: FindingKey)
    requires Enabled(canon, db, op)
    ensures var after := Apply(canon, db, op);
            NextRow(canon, db, op, k) == if k in after.findings then Some(after.findings[k]) else None
  {
    if Decides(op) {
      DecisionsLeaveFindings(canon, db, op);
    } else {
      if op.OpRefresh? { RefreshRow(canon, db, op, k); }
      hide Enabled, UpsertedFinding, RefreshedFinding, RefreshAll, UpdateClass, VisibleAll, DecideOne, SightedClass;
    }
  }

  // ----- occurrences -----

  /** The write upserts or refreshes finding k. */
  predicate Touches(op: Op, k: FindingKey) { (op.OpUpsert? && op.r.key == k) || (op.OpRefresh? && k in op.hits) }

  /** The instants at which k was upserted or refreshed since it was last inserted. */
  ghost function Instants(canon: Canon, ops: seq<Op>, k: FindingKey): set<int> {
    if ops == [] then {}
    else
      var init, op := ops[..|ops| - 1], ops[|ops| - 1];
      var before := Instants(canon, init, k);
      if !Touches(op, k) then before
      else if k in Run(canon, init).findings then before + {op.now}
      else if op.OpUpsert? then {op.now}
      else before
  }

  /** What the counters are for: occurrence_count is the number of those instants, first_seen and
      last_seen the first and last of them. */
  ghost predicate Counts(f: Finding, instants: set<int>) {
    && f.occurrences == |instants|
    && f.firstSeen in instants && f.lastSeen in instants
    && forall t :: t in instants ==> f.firstSeen <= t <= f.lastSeen
  }

  /** The write either leaves k alone, or inserts it, or is no older than its last_seen, or is a refresh
      at an instant already counted. */
  ghost predicate InOrder(canon: Canon, ops: seq<Op>, op: Op, k: FindingKey) {
    var db := Run(canon, ops);
    (Touches(op, k) && k in db.findings) ==>
      db.findings[k].lastSeen <= op.now || (op.OpRefresh? && op.now in Instants(canon, ops, k))
  }

  ghost predicate AlwaysInOrder(canon: Canon, ops: seq<Op>, k: FindingKey) {
    ops != [] ==>
      AlwaysInOrder(canon, ops[..|ops| - 1], k) && InOrder(canon, ops[..|ops| - 1], ops[|ops| - 1], k)
  }

  ghost predicate Counted(canon: Canon, ops: seq<Op>, k: FindingKey) {
    k in Run(canon, ops).findings ==> Counts(Run(canon, ops).findings[k], Instants(canon, ops, k))
  }

  ghost predicate AlwaysCounted(canon: Canon, ops: seq<Op>, k: FindingKey) {
    ops != [] ==> AlwaysCounted(canon, ops[..|ops| - 1], k) && Counted(canon, ops, k)
  }

  /** One upsert or refresh of a present row: the count grows exactly when last_seen is older. */
  lemma CountGrowsIffOlder(canon: Canon, db: Db, op: Op, k: FindingKey)
    requires Enabled(canon, db, op) && Touches(op, k) && k in db.findings
    ensures k in Apply(canon, db, op).findings
    ensures var f, g := db.findings[k], Apply(canon, db, op).findings[k];
            && g.firstSeen == f.firstSeen
            && g.occurrences == f.occurrences + (if f.lastSeen < op.now then 1 else 0)
            && g.lastSeen == (if op.OpUpsert? then op.now else MaxInt(f.lastSeen, op.now))
  {
    StepRow(canon, db, op, k);
    hide Apply, Enabled;
  }

  lemma OneMoreInstant(f: Finding, g: Finding, instants: set<int>, now: int, upsert: bool)
    requires Counts(f, instants) && g.firstSeen == f.firstSeen
    requires g.occurrences == f.occurrences + (if f.lastSeen < now then 1 else 0)
    requires g.lastSeen == (if upsert then now else MaxInt(f.lastSeen, now))
    ensures Counts(g, instants + {now}) <==> (f.lastSeen <= now || (!upsert && now in instants))
  {
    if now in instants {
      assert instants + {now} == instants;
    } else {
      assert |instants + {now}| == |instants| + 1;
    }
    assert f.lastSeen in instants + {now};
  }

  /** One write keeps the meaning of the counters exactly when it is in order. */
  lemma StepCountsIff(canon: Canon, ops: seq<Op>, op: Op, k: FindingKey)
    requires Enabled(canon, Run(canon, ops), op) && Counted(canon, ops, k)
    ensures Counted(canon, ops + [op], k) <==> InOrder(canon, ops, op, k)
  {
    var db := Run(canon, ops);
    assert (ops + [op])[..|ops|] == ops;
    if Touches(op, k) && k in db.findings {
      CountGrowsIffOlder(canon, db, op, k);
      OneMoreInstant(db.findings[k], Apply(canon, db, op).findings[k], Instants(canon, ops, k), op.now, op.OpUpsert?);
    } else {
      StepRow(canon, db, op, k);
      hide Apply, Enabled;
    }
  }

  /** Over any run: after every write the counters of a finding mean what they should, exactly when every
      write of that finding was in order. */
  lemma {:induction false} OccurrencesCountInstantsIff(canon: Canon, ops: seq<Op>, k: FindingKey)
    requires IsRun(canon, ops)
    ensures AlwaysCounted(canon, ops, k) <==> AlwaysInOrder(canon, ops, k)
    ensures AlwaysCounted(canon, ops, k) ==> Counted(canon, ops, k)
  {
    if ops != [] {
      var init, op := ops[..|ops| - 1], ops[|ops| - 1];
      assert ops == init + [op];
      OccurrencesCountInstantsIff(canon, init, k);
      if AlwaysInOrder(canon, init, k) { StepCountsIff(canon, init, op, k); }
    }
  }

  /** The instants handed to the upserts and refreshes of this one finding do not go back. */
  ghost predicate Monotone(ops: seq<Op>, k: FindingKey) {
    forall i, j :: 0 <= i < j < |ops| && Touches(ops[i], k) && Touches(ops[j], k) ==> ops[i].now <= ops[j].now
  }

  lemma {:induction false} InstantsArePast(canon: Canon, ops: seq<Op>, k: FindingKey, now: int)
    requires forall i :: 0 <= i < |ops| && Touches(ops[i], k) ==> ops[i].now <= now
    ensures forall t :: t in Instants(canon, ops, k) ==> t <= now
  {
    if ops != [] { InstantsArePast(canon, ops[..|ops| - 1], k, now); }
  }

  /** In particular when the instants that reach this finding do not go back, whatever other findings see. */
  lemma {:induction false} OccurrencesCountInstants(canon: Canon, ops: seq<Op>, k: FindingKey)
    requires IsRun(canon, ops) && Monotone(ops, k)
    ensures AlwaysInOrder(canon, ops, k) && Counted(canon, ops, k)
  {
    if ops != [] {
      var init, op := ops[..|ops| - 1], ops[|ops| - 1];
      assert ops == init + [op] && forall i :: 0 <= i < |init| ==> init[i] == ops[i];
      OccurrencesCountInstants(canon, init, k);
      if Touches(op, k) {
        assert forall i :: 0 <= i < |init| && Touches(init[i], k) ==> ops[i].now <= op.now;
        InstantsArePast(canon, init, k, op.now);
      }
      StepCountsIff(canon, init, op, k);
    }
  }

  // ----- two windows of one system on two workers -----

  const KEY := FindingKey("node1", "fp")
  const LINE := Template("query refused", 1, "unbound", 4, "", 0, 0, [])

  function Seen(now: int): Op { OpRefresh("node1", [LINE], [KEY], now) }

  function Reported(now: int): Op {
    OpUpsert(Report(KEY, "id", "low", NO_WORDING, ["unbound"], ["query refused"], [], "", false, "v1"), now)
  }

  /** Worker A refreshes at 10 and worker B at 12, each the now of its own window; A's model call ends first. */
  function TwoWorkers(): seq<Op> { [Reported(1), Seen(10), Seen(12), Reported(10), Reported(12)] }

  /** The finding of TwoWorkers as it stands with these counters. */
  ghost predicate Stands(canon: Canon, ops: seq<Op>, occurrences: int, lastSeen: int) {
    var db := Run(canon, ops);
    && IsRun(canon, ops) && KEY in db.findings
    && db.findings[KEY].occurrences == occurrences && db.findings[KEY].lastSeen == lastSeen
    && db.findings[KEY].firstSeen == 1
    && db.findings[KEY].modules == ["unbound"] && db.findings[KEY].evidence == ["query refused"]
  }

  lemma SeenStands(canon: Canon, ops: seq<Op>, occurrences: int, lastSeen: int, now: int)
    requires Stands(canon, ops, occurrences, lastSeen) && lastSeen < now
    requires Run(canon, ops).findings.Keys == {KEY}
    ensures Stands(canon, ops + [Seen(now)], occurrences + 1, now)
    ensures Run(canon, ops + [Seen(now)]).findings.Keys == {KEY}
  {
    var db := Run(canon, ops);
    assert (ops + [Seen(now)])[..|ops|] == ops;
    LineIsHit(canon, db);
    RefreshedRows(canon, db, [KEY], [LINE], now);
    hide RefreshAll, EvidenceKeys, NodesSeen, Hits;
  }

  /** The window's line is the finding's evidence, so the refresh reads exactly that finding. */
  lemma LineIsHit(canon: Canon, db: Db)
    requires db.findings.Keys == {KEY}
    requires db.findings[KEY].modules == ["unbound"] && db.findings[KEY].evidence == ["query refused"]
    ensures EnumeratesFindings([KEY], Hits(canon, db, "node1", [LINE]))
  {
    var f, key := db.findings[KEY], CanonicalKey(canon, "unbound", "query refused");
    assert f.modules[0] == "unbound" && f.evidence[0] == "query refused";
    assert key in EvidenceKeys(canon, f);
    assert LINE in [LINE] && KeyOf(canon, LINE) == key;
    assert SeenIn(canon, f, [LINE]);
    hide EvidenceKeys, CanonicalKey, SeenIn;
  }

  lemma ReportedStands(canon: Canon, ops: seq<Op>, occurrences: int, lastSeen: int, now: int)
    requires Stands(canon, ops, occurrences, lastSeen) && Run(canon, ops).findings.Keys == {KEY}
    ensures Stands(canon, ops + [Reported(now)], occurrences + (if lastSeen < now then 1 else 0), now)
    ensures Run(canon, ops + [Reported(now)]).findings.Keys == {KEY}
  {
    assert (ops + [Reported(now)])[..|ops|] == ops;
  }

  /** Worker A's report leaves the count and moves last_seen back, so worker B's window, counted once by its
      refresh, is counted again by its report: four occurrences at three instants. */
  lemma OneWindowCountedTwice(canon: Canon)
    ensures Stands(canon, TwoWorkers()[..3], 3, 12) && Stands(canon, TwoWorkers()[..4], 3, 10)
    ensures Stands(canon, TwoWorkers(), 4, 12) && Instants(canon, TwoWorkers(), KEY) == {1, 10, 12}
  {
    var ops := TwoWorkers();
    assert ops[..0] == [] && ops[..1] == [] + [Reported(1)];
    assert ops[..1][..0] == [];
    assert ops[..2] == ops[..1] + [Seen(10)] && ops[..3] == ops[..2] + [Seen(12)];
    assert ops[..4] == ops[..3] + [Reported(10)] && ops == ops[..4] + [Reported(12)];
    assert Stands(canon, ops[..1], 1, 1) && Run(canon, ops[..1]).findings.Keys == {KEY};
    SeenStands(canon, ops[..1], 1, 1, 10);
    SeenStands(canon, ops[..2], 2, 10, 12);
    ReportedStands(canon, ops[..3], 3, 12, 10);
    ReportedStands(canon, ops[..4], 3, 10, 12);
    InstantsOf(canon);
  }

  lemma InstantsOf(canon: Canon)
    requires KEY in Run(canon, TwoWorkers()[..1]).findings && KEY in Run(canon, TwoWorkers()[..2]).findings
    requires KEY in Run(canon, TwoWorkers()[..3]).findings && KEY in Run(canon, TwoWorkers()[..4]).findings
    ensures Instants(canon, TwoWorkers(), KEY) == {1, 10, 12}
  {
    hide Run;
    var ops := TwoWorkers();
    assert ops[..1][..0] == [] && ops[..2][..1] == ops[..1] && ops[..3][..2] == ops[..2] && ops[..4][..3] == ops[..3];
    assert Instants(canon, ops[..1], KEY) == {1};
    assert Instants(canon, ops[..2], KEY) == {1, 10};
    assert Instants(canon, ops[..3], KEY) == {1, 10, 12};
    assert Instants(canon, ops[..4], KEY) == {1, 10, 12};
  }

  // ----- reopening -----

  /** reopened_at is stamped exactly when a stale finding opens, with that moment, and never otherwise. */
  lemma ReopenedExactlyOnStaleToOpen(canon: Canon, db: Db, op: Op, k: FindingKey)
    requires Enabled(canon, db, op)
    requires k in db.findings && k in Apply(canon, db, op).findings
    ensures var f, g := db.findings[k], Apply(canon, db, op).findings[k];
            if f.status == Stale && g.status == Open then Timed(op) && g.reopenedAt == Some(op.now)
            else g.reopenedAt == f.reopenedAt
  {
    StepRow(canon, db, op, k);
  }

  /** Right after a refresh every finding of the system with an evidence line in the window is open and
      current, and every other finding is untouched. */
  lemma RefreshOpensWhatIsSeen(canon: Canon, db: Db, systemId: string, ts: seq<Template>, hits: seq<FindingKey>,
                               now: int, k: FindingKey)
    requires EnumeratesFindings(hits, Hits(canon, db, systemId, ts))
    requires k in Apply(canon, db, OpRefresh(systemId, ts, hits, now)).findings
    ensures var g := Apply(canon, db, OpRefresh(systemId, ts, hits, now)).findings[k];
            && k in db.findings
            && (k.systemId == systemId && SeenIn(canon, g, ts) ==> g.status == Open && g.lastSeen >= now)
            && (!(k.systemId == systemId && SeenIn(canon, g, ts)) ==> g == db.findings[k])
  {
    StepRow(canon, db, OpRefresh(systemId, ts, hits, now), k);
    var g := Apply(canon, db, OpRefresh(systemId, ts, hits, now)).findings[k];
    assert EvidenceKeys(canon, g) == EvidenceKeys(canon, db.findings[k]);
    assert k in hits <==> k in Hits(canon, db, systemId, ts);
  }

  // ----- what pruning may never remove -----

  /** No write removes an open finding, a decided class, or a class some finding names. */
  lemma PruningSpares(canon: Canon, db: Db, op: Op)
    requires Enabled(canon, db, op)
    ensures forall k :: k in db.findings && db.findings[k].status == Open ==> k in Apply(canon, db, op).findings
    ensures forall key :: key in db.classes && (ClassDecided(db, key) || ClassNamed(db, key))
                          ==> key in Apply(canon, db, op).classes
  {
    var after := Apply(canon, db, op);
    forall k | k in db.findings && db.findings[k].status == Open ensures k in after.findings {
      StepRow(canon, db, op, k);
    }
    forall key | key in db.classes && (ClassDecided(db, key) || ClassNamed(db, key)) ensures key in after.classes {
      StepClass(canon, db, op, key);
    }
  }

  lemma StepClass(canon: Canon, db: Db, op: Op, key: string)
    requires Enabled(canon, db, op) && key in db.classes
    ensures key in Apply(canon, db, op).classes || (op.OpPruneClasses? && ClassPrunable(db, key, op.olderThan))
  {
    hide Changes, UpsertedFinding, DecidedAll, VisibleAll, RefreshAll, ClassPrunable;
    match op
    case OpUpdate(k, u, actor, now) => UpdateClasses(db, k, u, actor, now);
    case OpVisibleAll(keys, v, detail, actor, now) =>
      VisibleAllClasses(db, keys, v, VisibilityAction(v).value, detail, actor, now);
    case OpRefresh(_, ts, hits, now) => RefreshClasses(canon, db, hits, ts, now);
    case _ =>
  }

  lemma UpdateClasses(db: Db, key: string, u: ClassUpdate, actor: string, now: int)
    ensures UpdateClass(db, key, u, actor, now).0.classes.Keys == db.classes.Keys
  {
    hide DecidedAll, Changes, LatestText;
    if key in db.classes {
      var seeded := Seeded(db, key);
      DecidedAllAppends(seeded, key, Changes(db.classes[key], seeded.texts[key], u), actor, now);
    }
  }

  lemma {:induction false} VisibleAllClasses(db: Db, keys: seq<string>, v: Visibility, action: Action, detail: string,
                                             actor: string, now: int)
    ensures VisibleAll(db, keys, v, action, detail, actor, now).classes.Keys == db.classes.Keys
  {
    if keys != [] { VisibleAllClasses(db, keys[..|keys| - 1], v, action, detail, actor, now); }
  }

  lemma {:induction false} RefreshClasses(canon: Canon, db: Db, hits: seq<FindingKey>, ts: seq<Template>, now: int)
    ensures RefreshAll(canon, db, hits, ts, now).classes.Keys == db.classes.Keys
  {
    if hits != [] { RefreshClasses(canon, db, hits[..|hits| - 1], ts, now); }
  }
}
