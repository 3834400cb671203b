/** The logs store: every method is one transaction under the write lock, proved against LogsDb. */
module LogsStore {
  import opened Model
  import opened Sets
  import opened Sorting
  import opened LogsDb
  import Nodes
  import ReviewForm

  datatype Outcome = Inserted | Bumped | Reopened

  /** id is the findings table's primary key. */
  ghost predicate UniqueIds(findings: map<FindingKey, Finding>) {
    forall j, k :: j in findings && k in findings && j != k ==> findings[j].id != findings[k].id
  }

  function SeverityRank(s: string): nat {
    if s == "critical" then 0 else if s == "high" then 1 else if s == "medium" then 2 else if s == "low" then 3 else 4
  }

  datatype Row = Row(key: FindingKey, f: Finding)

  /** Worst first, then most recently seen. */
  predicate RowLess(a: Row, b: Row) {
    var ra, rb := SeverityRank(a.f.severity), SeverityRank(b.f.severity);
    if ra != rb then ra < rb else a.f.lastSeen > b.f.lastSeen
  }

  function Shown(own: string, classText: string): string { if classText != "" then classText else own }

  /** What the customer reads for a finding: its class's severity and wording in place of its own. */
  function View(db: Db, k: FindingKey): Finding
    requires Listed(db, k)
  {
    var f := db.findings[k];
    var t := if f.classKey in db.texts then ReviewForm.CustomerText(db.texts[f.classKey]) else NO_WORDING;
    f.(severity := Shown(f.severity, db.classes[f.classKey].severity),
       text := Wording(Shown(f.text.title, t.title), Shown(f.text.summary, t.summary),
                       Shown(f.text.suggestedAction, t.suggestedAction)))
  }

  ghost predicate Selects(db: Db, systemId: string, since: int, status: Option<Status>, k: FindingKey) {
    && Listed(db, k) && k.systemId == systemId && db.findings[k].lastSeen >= since
    && (status.Some? ==> db.findings[k].status == status.value)
  }

  method SortedKeys(s: set<string>) returns (keys: seq<string>)
    ensures Enumerates(keys, s)
  {
    StringLessTotal();
    keys := InOrder(s, StringLess);
  }

  /** Up to n elements of s, all of them if there are no more. */
  method TakeSome<T(!new)>(s: set<T>, n: nat) returns (r: set<T>)
    ensures r <= s && |r| == if |s| < n then |s| else n
  {
    r := {};
    while |r| < n && r != s
      invariant r <= s && |r| <= n
      decreases n - |r|
    {
      assert s == r + (s - r);
      var x :| x in s && x !in r;
      r := r + {x};
    }
    SubsetSize(r, s);
    if |r| < n { assert r == s; }
  }

  class Store {
    var findings: map<FindingKey, Finding>
    var classes: map<string, ClassRow>
    var texts: map<string, TextRow>
    var decisions: seq<Decision>
    var groups: map<string, string>
    const pruneBatchSize: nat

    ghost predicate Valid()
      reads this
    {
      pruneBatchSize > 0 && UniqueIds(findings)
    }

    function Db(): Db
      reads this
    {
      LogsDb.Db(findings, classes, texts, decisions, groups)
    }

    constructor ()
      ensures Valid() && Db() == EMPTY
    {
      findings, classes, texts, decisions, groups := map[], map[], map[], [], map[];
      pruneBatchSize := 5000;
    }

    // ----- class review -----

    /** Refuse an unknown class, apply the change, append the audit row. */
    method ClassDecision(key: string, c: Change, actor: string, now: int) returns (r: Result)
      requires Valid() && !c.write.WriteTitle? && !c.write.WriteSummary? && !c.write.WriteSuggestedAction?
      modifies this
      ensures Valid() && (Db(), r) == DecideOne(old(Db()), key, c, actor, now)
    {
      if key !in classes { return Err(UnknownClass); }
      var pv := classes[key].promptVersion;
      WriteColumn(key, c.write);
      decisions := decisions + [Decision(key, actor, c.action, c.detail, pv, now)];
      return Ok(1);
    }

    /** UPDATE of one column of one class. */
    method WriteColumn(key: string, w: Write)
      modifies this`classes, this`texts
      ensures Db() == Written(old(Db()), key, w)
    {
      match w
      case WriteVisibility(v) => if key in classes { classes := classes[key := classes[key].(visibility := v)]; }
      case WriteSecurity(on) => if key in classes { classes := classes[key := classes[key].(security := on)]; }
      case WriteSeverity(s) => if key in classes { classes := classes[key := classes[key].(severity := s)]; }
      case WriteDocRef(s) => if key in classes { classes := classes[key := classes[key].(docRef := s)]; }
      case WriteTitle(s) =>
        if key in texts { texts := texts[key := texts[key].(override := texts[key].override.(title := s))]; }
      case WriteSummary(s) =>
        if key in texts { texts := texts[key := texts[key].(override := texts[key].override.(summary := s))]; }
      case WriteSuggestedAction(s) =>
        if key in texts { texts := texts[key := texts[key].(override := texts[key].override.(suggestedAction := s))]; }
    }

    method SetClassVisibility(key: string, v: Visibility, actor: string, now: int) returns (r: Result)
      requires Valid()
      modifies this
      ensures Valid() && (Db(), r) == LogsDb.SetClassVisibility(old(Db()), key, v, actor, now)
    {
      var action := VisibilityAction(v);
      if action.None? { return Err(InvalidVisibility); }
      r := ClassDecision(key, Change(WriteVisibility(v), action.value, ""), actor, now);
    }

    method SetClassSecurity(key: string, on: bool, actor: string, now: int) returns (r: Result)
      requires Valid()
      modifies this
      ensures Valid() && (Db(), r) == LogsDb.SetClassSecurity(old(Db()), key, on, actor, now)
    {
      r := ClassDecision(key, Change(WriteSecurity(on), Security, if on then "on" else "off"), actor, now);
    }

    method SetClassSeverity(key: string, severity: string, actor: string, now: int) returns (r: Result)
      requires Valid()
      modifies this
      ensures Valid() && (Db(), r) == LogsDb.SetClassSeverity(old(Db()), key, severity, actor, now)
    {
      if severity != "" && !ValidSeverity(severity) { return Err(InvalidSeverity); }
      r := ClassDecision(key, Change(WriteSeverity(severity), Severity, severity), actor, now);
    }

    method SetClassDocRef(key: string, docRef: string, actor: string, now: int) returns (r: Result)
      requires Valid()
      modifies this
      ensures Valid() && (Db(), r) == LogsDb.SetClassDocRef(old(Db()), key, docRef, actor, now)
    {
      r := ClassDecision(key, Change(WriteDocRef(docRef), DocRef, docRef), actor, now);
    }

    /** The class's latest retained finding, if any: ORDER BY last_seen DESC, id LIMIT 1. */
    method LatestFinding(key: string) returns (latest: Option<FindingKey>)
      requires Valid()
      ensures latest.Some? ==> IsLatest(Db(), key, latest.value)
      ensures latest.None? ==> forall k :: k in findings ==> findings[k].classKey != key
    {
      latest := None;
      var todo := findings.Keys;
      StringLessTotal();
      while todo != {}
        invariant todo <= findings.Keys
        invariant latest.Some? ==> latest.value in findings - todo && findings[latest.value].classKey == key
        invariant forall j :: j in findings - todo && findings[j].classKey == key ==>
                    latest.Some? && !Later(findings[j], findings[latest.value])
      {
        var k :| k in todo;
        todo := todo - {k};
        if findings[k].classKey == key && (latest.None? || Later(findings[k], findings[latest.value])) {
          LaterIsTransitive();
          latest := Some(k);
        }
      }
    }

    /** seedClassText, without writing: the row the class has or would be given. */
    method ClassText(key: string) returns (row: TextRow)
      requires Valid()
      ensures row == Seeded(Db(), key).texts[key]
    {
      if key in texts { return texts[key]; }
      var latest := LatestFinding(key);
      match latest
      case None => row := TextRow(NO_WORDING, NO_WORDING);
      case Some(k) =>
        OnlyLatest(Db(), key, k);
        row := TextRow(findings[k].text, NO_WORDING);
    }

    /** The review form, compared against the stored row; nothing changed writes nothing. */
    method UpdateClass(key: string, u: ClassUpdate, actor: string, now: int) returns (r: Result)
      requires Valid()
      modifies this
      ensures Valid() && (Db(), r) == LogsDb.UpdateClass(old(Db()), key, u, actor, now)
    {
      if u.visibility.Some? && VisibilityAction(u.visibility.value).None? { return Err(InvalidVisibility); }
      if u.severity != "" && !ValidSeverity(u.severity) { return Err(InvalidSeverity); }
      if key !in classes { return Err(UnknownClass); }
      hide Changes, Written, Decided, DecidedAll;
      var text := ClassText(key);
      var cs := Changes(classes[key], text, u);
      if |cs| == 0 { return Ok(0); }
      texts := texts[key := text];
      assert Db() == Seeded(old(Db()), key);
      DecideEach(key, cs, actor, now);
      return Ok(|cs|);
    }

    method DecideEach(key: string, cs: seq<Change>, actor: string, now: int)
      requires Valid() && key in classes
      modifies this`classes, this`texts, this`decisions
      ensures Valid() && Db() == DecidedAll(old(Db()), key, cs, actor, now)
    {
      hide Decided;
      for i := 0 to |cs|
        invariant Db() == DecidedAll(old(Db()), key, cs[..i], actor, now) && findings == old(findings)
        invariant key in classes
      {
        assert cs[..i + 1][..i] == cs[..i];
        Decide(key, cs[i], actor, now);
      }
      assert cs[..|cs|] == cs;
    }

    /** One change with its audit row, inside a larger transaction. */
    method Decide(key: string, c: Change, actor: string, now: int)
      requires key in classes
      modifies this`classes, this`texts, this`decisions
      ensures Db() == Decided(old(Db()), key, c, actor, now)
      ensures classes.Keys == old(classes.Keys)
    {
      var pv := classes[key].promptVersion;
      WriteColumn(key, c.write);
      decisions := decisions + [Decision(key, actor, c.action, c.detail, pv, now)];
    }

    /** applyVisibility over the classes found, in key order. */
    method ApplyVisibility(keys: seq<string>, v: Visibility, action: Action, detail: string, actor: string, now: int)
      requires Valid() && forall k :: k in keys ==> k in classes
      modifies this
      ensures Valid() && Db() == VisibleAll(old(Db()), keys, v, action, detail, actor, now)
    {
      hide Written;
      for i := 0 to |keys|
        invariant Db() == VisibleAll(old(Db()), keys[..i], v, action, detail, actor, now)
        invariant classes.Keys == old(classes.Keys) && findings == old(findings)
      {
        assert keys[..i + 1][..i] == keys[..i] && keys[i] in keys;
        Decide(keys[i], Change(WriteVisibility(v), action, detail), actor, now);
      }
      assert keys[..|keys|] == keys;
    }

    /** Decides the listed members of the group that are still pending; anything else is skipped. */
    method SetGroupVisibility(anchor: string, members: seq<string>, v: Visibility, actor: string, now: int)
      returns (r: Result, ghost todo: seq<string>)
      requires Valid()
      modifies this
      ensures Valid()
      ensures VisibilityAction(v).None? ==> r == Err(InvalidVisibility) && Db() == old(Db())
      ensures VisibilityAction(v).Some? && !HasGroup(old(Db()), anchor) ==> r == Err(UnknownClass) && Db() == old(Db())
      ensures VisibilityAction(v).Some? && HasGroup(old(Db()), anchor) ==>
                && Enumerates(todo, PendingGroupClasses(old(Db()), anchor, members))
                && r == Ok(|todo|)
                && Db() == VisibleAll(old(Db()), todo, v, VisibilityAction(v).value, "group " + anchor, actor, now)
    {
      todo := [];
      var action := VisibilityAction(v);
      if action.None? { return Err(InvalidVisibility), todo; }
      if !exists k :: k in groups && groups[k] == anchor { return Err(UnknownClass), todo; }
      var keys := SortedKeys(set k | k in members && k in groups && groups[k] == anchor
                                     && k in classes && classes[k].visibility == Pending);
      todo := keys;
      ApplyVisibility(keys, v, action.value, "group " + anchor, actor, now);
      return Ok(|keys|), todo;
    }

    /** Decides each listed class not already at v, decided or not; unknown keys are skipped. */
    method SetClassesVisibility(keys: seq<string>, v: Visibility, actor: string, now: int)
      returns (r: Result, ghost todo: seq<string>)
      requires Valid()
      modifies this
      ensures Valid()
      ensures VisibilityAction(v).None? ==> r == Err(InvalidVisibility) && Db() == old(Db())
      ensures VisibilityAction(v).Some? ==>
                && Enumerates(todo, ChangingClasses(old(Db()), keys, v))
                && r == Ok(|todo|)
                && Db() == VisibleAll(old(Db()), todo, v, VisibilityAction(v).value, "bulk", actor, now)
    {
      todo := [];
      var action := VisibilityAction(v);
      if action.None? { return Err(InvalidVisibility), todo; }
      if |keys| == 0 { return Ok(0), todo; }
      var changing := SortedKeys(set k | k in keys && k in classes && classes[k].visibility != v);
      todo := changing;
      ApplyVisibility(changing, v, action.value, "bulk", actor, now);
      return Ok(|changing|), todo;
    }

    // ----- findings -----

    /** Insert, bump or reopen one finding, and sight its class. The id of a new row is unused. */
    method UpsertFinding(r: Report, now: int) returns (outcome: Outcome)
      requires Valid()
      requires r.key !in findings ==> forall k :: k in findings ==> findings[k].id != r.id
      modifies this`findings, this`classes, this`texts
      ensures Valid() && Db() == LogsDb.UpsertFinding(old(Db()), r, now)
      ensures outcome == if r.key !in old(findings) then Inserted
                         else if old(findings)[r.key].status == Open then Bumped else Reopened
    {
      hide UpsertedFinding, SightedClass, Nodes.Capped;
      outcome := UpsertRow(r, now);
      if r.classKey != "" {
        SightClass(r.classKey, r.security, r.promptVersion, now);
        if r.classKey !in texts { texts := texts[r.classKey := TextRow(r.text, NO_WORDING)]; }
      }
    }

    method UpsertRow(r: Report, now: int) returns (outcome: Outcome)
      requires Valid()
      requires r.key !in findings ==> forall k :: k in findings ==> findings[k].id != r.id
      modifies this`findings
      ensures Valid() && findings == old(findings)[r.key := UpsertedFinding(old(Db()), r, now)]
      ensures outcome == if r.key !in old(findings) then Inserted
                         else if old(findings)[r.key].status == Open then Bumped else Reopened
    {
      outcome := if r.key !in findings then Inserted else if findings[r.key].status == Open then Bumped else Reopened;
      var nodes := Nodes.SanitizeNodeIDs(r.nodes);
      if outcome == Inserted {
        findings := findings[r.key := Finding(r.id, r.severity, r.text, r.modules, r.evidence, Open, 1, now, now,
                                              None, nodes, r.classKey)];
      } else {
        var f := findings[r.key];
        var count := f.occurrences + (if f.lastSeen >= now then 0 else 1);
        f := f.(severity := r.severity, text := r.text, modules := r.modules, evidence := r.evidence, status := Open,
                occurrences := count, lastSeen := now, nodes := nodes, classKey := r.classKey);
        if outcome == Reopened { f := f.(reopenedAt := Some(now)); }
        findings := findings[r.key := f];
      }
    }

    /** Create the class pending, or move its last_seen forward. */
    method SightClass(key: string, security: bool, promptVersion: string, now: int)
      modifies this`classes
      ensures classes == old(classes)[key := SightedClass(old(classes), key, security, promptVersion, now)]
    {
      if key in classes {
        if classes[key].lastSeen < now { classes := classes[key := classes[key].(lastSeen := now)]; }
        assert key in classes && classes == classes[key := classes[key]];
      } else {
        classes := classes[key := ClassRow(Pending, security, "", "", promptVersion, now, now)];
      }
    }

    /** Keeps a system's findings alive from the lines of one window. */
    method RefreshFindings(canon: Canon, systemId: string, ts: seq<Template>, now: int)
      returns (n: nat, ghost hits: seq<FindingKey>)
      requires Valid()
      modifies this`findings, this`classes, this`texts
      ensures Valid() && EnumeratesFindings(hits, Hits(canon, old(Db()), systemId, ts)) && n == |hits|
      ensures Db() == RefreshAll(canon, old(Db()), hits, ts, now)
    {
      if |ts| == 0 { return 0, []; }
      var found := SetToSeq(set k: FindingKey |
        k in findings && k.systemId == systemId && SeenIn(canon, findings[k], ts));
      hits := found;
      for i := 0 to |found|
        invariant Db() == RefreshAll(canon, old(Db()), found[..i], ts, now)
        invariant findings.Keys == old(findings.Keys) && decisions == old(decisions) && groups == old(groups)
        invariant forall k :: k in findings ==> findings[k].id == old(findings)[k].id
      {
        assert found[..i + 1][..i] == found[..i] && found[i] in found;
        RefreshHit(canon, found[i], ts, now);
      }
      assert found[..|found|] == found;
      n := |found|;
    }

    /** One row of a refresh: the finding, then its class and the class's wording. */
    method RefreshHit(canon: Canon, k: FindingKey, ts: seq<Template>, now: int)
      requires k in findings
      modifies this`findings, this`classes, this`texts
      ensures Db() == RefreshOne(canon, old(Db()), k, ts, now)
      ensures findings.Keys == old(findings.Keys)
      ensures forall j :: j in findings ==> findings[j].id == old(findings)[j].id
    {
      hide RefreshedFinding, Nodes.Capped;
      var f := findings[k];
      var g := Refreshed(canon, f, ts, now);
      findings := findings[k := g];
      if f.classKey != "" {
        if f.classKey in classes && classes[f.classKey].lastSeen < now {
          classes := classes[f.classKey := classes[f.classKey].(lastSeen := now)];
        }
        if f.classKey !in texts { texts := texts[f.classKey := TextRow(f.text, NO_WORDING)]; }
      }
    }

    method Refreshed(canon: Canon, f: Finding, ts: seq<Template>, now: int) returns (g: Finding)
      ensures g == RefreshedFinding(canon, f, ts, now) && g.id == f.id
    {
      var nodes := NodesOf(canon, f, ts);
      g := f.(occurrences := f.occurrences + (if f.lastSeen >= now then 0 else 1),
              lastSeen := if f.lastSeen > now then f.lastSeen else now,
              reopenedAt := if f.status != Open then Some(now) else f.reopenedAt,
              status := Open);
      if |nodes| > 0 { g := g.(nodes := nodes); }
    }

    /** The nodes of the window's lines that match the finding, merged as they are met. */
    method NodesOf(canon: Canon, f: Finding, ts: seq<Template>) returns (nodes: seq<int>)
      ensures nodes == Nodes.Capped(NodesSeen(canon, f, ts))
      ensures |nodes| > 0 <==> NodesSeen(canon, f, ts) != {}
    {
      nodes := [];
      for i := 0 to |ts|
        invariant nodes == Nodes.Capped(NodesSeen(canon, f, ts[..i]))
      {
        SeenStep(canon, f, ts, i);
        if exists m, e | m in f.modules && e in f.evidence :: CanonicalKey(canon, m, e) == KeyOf(canon, ts[i]) {
          Nodes.CappedMerge(NodesSeen(canon, f, ts[..i]), Nodes.Valid(ts[i].nodes), Nodes.MAX_NODES_PER_TEMPLATE);
          nodes := Nodes.MergeNodeIDs(nodes, ts[i].nodes);
        }
      }
      assert ts[..|ts|] == ts;
      Nodes.EmptyIffNone(NodesSeen(canon, f, ts), Nodes.MAX_NODES_PER_TEMPLATE);
    }

    method MarkStale(systemId: string, olderThan: int)
      requires Valid()
      modifies this`findings
      ensures Valid() && Db() == LogsDb.MarkStale(old(Db()), systemId, olderThan)
    {
      findings := map k | k in findings ::
        if k.systemId == systemId && findings[k].status == Open && findings[k].lastSeen < olderThan
        then findings[k].(status := Stale) else findings[k];
    }

    /** The customer read: delivered findings only, with the class's severity and wording, worst first. */
    method ListFindings(systemId: string, since: int, status: Option<Status>) returns (rows: seq<Row>)
      requires Valid()
      ensures Distinct(rows) && SortedBy(rows, RowLess)
      ensures forall r :: r in rows <==> Selects(Db(), systemId, since, status, r.key) && r.f == View(Db(), r.key)
    {
      var keys := SetToSeq(set k: FindingKey |
        k in findings && k.systemId == systemId && findings[k].lastSeen >= since
        && findings[k].classKey in classes && classes[findings[k].classKey].visibility == Customer
        && (status.Some? ==> findings[k].status == status.value));
      var out: seq<Row> := [];
      for i := 0 to |keys|
        invariant |out| == i
        invariant forall j :: 0 <= j < i ==> Listed(Db(), keys[j]) && out[j] == Row(keys[j], View(Db(), keys[j]))
      {
        assert keys[i] in keys;
        var f := findings[keys[i]];
        var c := classes[f.classKey];
        var t := if f.classKey in texts then ReviewForm.CustomerText(texts[f.classKey]) else NO_WORDING;
        if c.severity != "" { f := f.(severity := c.severity); }
        if t.title != "" { f := f.(text := f.text.(title := t.title)); }
        if t.summary != "" { f := f.(text := f.text.(summary := t.summary)); }
        if t.suggestedAction != "" { f := f.(text := f.text.(suggestedAction := t.suggestedAction)); }
        out := out + [Row(keys[i], f)];
      }
      RowLessWeak();
      rows := Sort(out, RowLess);
      MembersOfPermutation(out, rows);
      DistinctPermutation(out, rows);
      forall r | r in out ensures Selects(Db(), systemId, since, status, r.key) && r.f == View(Db(), r.key) {
        var j :| 0 <= j < |out| && out[j] == r;
        assert keys[j] in keys;
      }
      forall r: Row | Selects(Db(), systemId, since, status, r.key) && r.f == View(Db(), r.key) ensures r in out {
        assert r.key in keys;
        var j :| 0 <= j < |keys| && keys[j] == r.key;
        assert out[j] == r;
      }
    }

    // ----- pruning -----

    /** Batches of at most pruneBatchSize until one comes up short; afterwards no candidate is left. */
    method PruneFindings(olderThan: int) returns (total: nat)
      requires Valid()
      modifies this`findings
      ensures Valid()
      ensures Db() == old(Db()).(findings := old(findings) - PrunableFindings(old(Db()), olderThan))
      ensures total == |PrunableFindings(old(Db()), olderThan)|
    {
      hide PrunableFindings, UniqueIds;
      ghost var all := PrunableFindings(Db(), olderThan);
      ghost var gone: set<FindingKey> := {};
      total := 0;
      SomeUnique(findings, all);
      while true
        invariant gone <= all && total == |gone| && findings == old(findings) - gone
        decreases |all - gone|
      {
        StillPrunable(old(Db()), gone, olderThan);
        assert Db() == old(Db()).(findings := old(findings) - gone);
        var batch := PruneBatch(olderThan);
        total := total + |batch|;
        DropTwice(old(findings), gone, batch);
        BatchShrinks(all, gone, batch, pruneBatchSize);
        gone := gone + batch;
        if |batch| < pruneBatchSize { return; }
      }
    }

    /** One DELETE with a LIMIT. */
    method PruneBatch(olderThan: int) returns (batch: set<FindingKey>)
      requires pruneBatchSize > 0
      modifies this`findings
      ensures batch <= PrunableFindings(old(Db()), olderThan) && findings == old(findings) - batch
      ensures var n := |PrunableFindings(old(Db()), olderThan)|;
              |batch| == if n < pruneBatchSize then n else pruneBatchSize
    {
      hide PrunableFindings;
      batch := TakeSome(PrunableFindings(Db(), olderThan), pruneBatchSize);
      findings := findings - batch;
    }

    /** Undecided classes no finding names, not seen since olderThan; then what only they owned. */
    method PruneClasses(olderThan: int) returns (total: nat)
      requires Valid()
      modifies this`classes, this`texts, this`groups
      ensures var dead := PrunableClasses(old(Db()), olderThan);
              && total == |dead| && classes == old(classes) - dead
              && texts == (map k | k in old(texts) && k in classes :: old(texts)[k])
              && groups == (map k | k in old(groups) && k in classes :: old(groups)[k])
      ensures findings == old(findings) && decisions == old(decisions)
    {
      total := PruneClassRows(olderThan);
      groups := map k | k in groups && k in classes :: groups[k];
      texts := map k | k in texts && k in classes :: texts[k];
    }

    method PruneClassRows(olderThan: int) returns (total: nat)
      requires Valid()
      modifies this`classes
      ensures var dead := PrunableClasses(old(Db()), olderThan);
              total == |dead| && classes == old(classes) - dead
    {
      hide PrunableClasses;
      ghost var all := PrunableClasses(Db(), olderThan);
      ghost var gone: set<string> := {};
      total := 0;
      while true
        invariant gone <= all && total == |gone| && classes == old(classes) - gone
        decreases |all - gone|
      {
        var candidates := PrunableClasses(Db(), olderThan);
        StillPrunableClasses(old(Db()), gone, olderThan);
        var batch := TakeSome(candidates, pruneBatchSize);
        DropTwice(old(classes), gone, batch);
        classes := classes - batch;
        total := total + |batch|;
        BatchShrinks(all, gone, batch, pruneBatchSize);
        gone := gone + batch;
        if |batch| < pruneBatchSize { return; }
      }
    }

    method SetClassGroup(key: string, anchor: string)
      requires Valid()
      modifies this`groups
      ensures Db() == old(Db()).(groups := old(groups)[key := anchor])
    {
      groups := groups[key := anchor];
    }
  }

  lemma DropTwice<K, V>(m: map<K, V>, a: set<K>, b: set<K>)
    ensures m - a - b == m - (a + b)
  {
  }

  lemma SomeUnique(findings: map<FindingKey, Finding>, gone: set<FindingKey>)
    requires UniqueIds(findings)
    ensures UniqueIds(findings - gone)
  {
  }

  lemma BatchShrinks<T>(all: set<T>, gone: set<T>, batch: set<T>, size: nat)
    requires gone <= all && batch <= all - gone && size > 0
    requires |batch| == if |all - gone| < size then |all - gone| else size
    ensures gone + batch <= all && |gone + batch| == |gone| + |batch|
    ensures |batch| > 0 ==> |all - (gone + batch)| < |all - gone|
    ensures |batch| < size ==> gone + batch == all
  {
    assert all - gone == (all - (gone + batch)) + batch;
    if |batch| < size && batch != all - gone { ProperSubsetSize(batch, all - gone); }
  }

  lemma StillPrunable(db: Db, gone: set<FindingKey>, olderThan: int)
    ensures PrunableFindings(db.(findings := db.findings - gone), olderThan) == PrunableFindings(db, olderThan) - gone
  {
  }

  lemma StillPrunableClasses(db: Db, gone: set<string>, olderThan: int)
    ensures PrunableClasses(db.(classes := db.classes - gone), olderThan) == PrunableClasses(db, olderThan) - gone
  {
    var after := db.(classes := db.classes - gone);
    forall k | k in after.classes ensures ClassPrunable(after, k, olderThan) <==> ClassPrunable(db, k, olderThan) {
      assert ClassDecided(after, k) <==> ClassDecided(db, k);
      assert ClassNamed(after, k) <==> ClassNamed(db, k);
    }
  }

  lemma RowLessWeak()
    ensures WeakOrder(RowLess)
  {
  }

  lemma SeenStep(canon: Canon, f: Finding, ts: seq<Template>, i: nat)
    requires i < |ts|
    ensures NodesSeen(canon, f, ts[..i + 1])
         == NodesSeen(canon, f, ts[..i])
            + (if KeyOf(canon, ts[i]) in EvidenceKeys(canon, f) then Nodes.Valid(ts[i].nodes) else {})
    ensures KeyOf(canon, ts[i]) in EvidenceKeys(canon, f)
       <==> exists m, e | m in f.modules && e in f.evidence :: CanonicalKey(canon, m, e) == KeyOf(canon, ts[i])
  {
    assert ts[..i + 1] == ts[..i] + [ts[i]];
  }

  /** The order that picks a class's latest finding. */
  predicate Later(a: Finding, b: Finding) {
    a.lastSeen > b.lastSeen || (a.lastSeen == b.lastSeen && StringLess(a.id, b.id))
  }

  lemma LaterIsTransitive()
    ensures forall a, b, c :: Later(b, a) && !Later(c, a) ==> !Later(c, b)
  {
    StringLessTotal();
    TotalIsWeak(StringLess);
    forall a, b, c | Later(b, a) && !Later(c, a) ensures !Later(c, b) {
      assert StringLess(c.id, b.id) && StringLess(b.id, a.id) ==> StringLess(c.id, a.id);
    }
  }

  lemma OnlyLatest(db: Db, key: string, k: FindingKey)
    requires UniqueIds(db.findings) && IsLatest(db, key, k)
    ensures LatestText(db, key) == db.findings[k].text
  {
    StringLessTotal();
    forall j | IsLatest(db, key, j) ensures j == k {
      assert !StringLess(db.findings[j].id, db.findings[k].id) && !StringLess(db.findings[k].id, db.findings[j].id);
    }
  }
}
