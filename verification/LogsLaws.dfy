/** What the operations of the logs store leave in the rows and show to a reader, column by column. */
module LogsLaws {
  import opened Model
  import opened Sets
  import opened Sorting
  import opened LogsDb
  import opened LogsStore
  import Nodes
  import ReviewForm
  import ReviewTrail

  // ----- the customer read -----

  /** One wording field as the customer reads it: the override, else the seed, else the finding's own. */
  predicate FirstOf(shown: string, override: string, seed: string, own: string) {
    if override != "" then shown == override else if seed != "" then shown == seed else shown == own
  }

  /** The class's severity goes before the finding's, and its wording field by field; nothing else is touched. */
  lemma CustomerSees(db: Db, k: FindingKey)
    requires Listed(db, k)
    ensures var own, class_, shown := db.findings[k], db.classes[db.findings[k].classKey], View(db, k);
            && shown.severity == (if class_.severity != "" then class_.severity else own.severity)
            && (own.classKey !in db.texts ==> shown.text == own.text)
            && (own.classKey in db.texts ==>
                  var t := db.texts[own.classKey];
                  && FirstOf(shown.text.title, t.override.title, t.seed.title, own.text.title)
                  && FirstOf(shown.text.summary, t.override.summary, t.seed.summary, own.text.summary)
                  && FirstOf(shown.text.suggestedAction, t.override.suggestedAction, t.seed.suggestedAction,
                             own.text.suggestedAction))
            && shown == own.(severity := shown.severity, text := shown.text)
  {
  }

  /** A finding is read exactly if it is the system's, recent enough, of the status asked for, and its class was
      delivered. */
  lemma ReadIff(db: Db, systemId: string, since: int, status: Option<Status>, k: FindingKey)
    ensures Selects(db, systemId, since, status, k)
       <==> && k in db.findings && k.systemId == systemId && db.findings[k].lastSeen >= since
            && (status == None || status == Some(db.findings[k].status))
            && db.findings[k].classKey in db.classes && db.classes[db.findings[k].classKey].visibility == Customer
  {
  }

  /** Critical before high before medium before low before anything else, and the latest seen first among equals. */
  lemma WorstFirst(rows: seq<Row>, i: nat, j: nat)
    requires SortedBy(rows, RowLess) && i < j < |rows|
    ensures var a, b := rows[i].f, rows[j].f;
            && (b.severity == "critical" ==> a.severity == "critical")
            && (b.severity == "high" ==> a.severity == "critical" || a.severity == "high")
            && (b.severity == "medium" ==> a.severity == "critical" || a.severity == "high" || a.severity == "medium")
            && (b.severity == "low" ==> a.severity == "critical" || a.severity == "high" || a.severity == "medium"
                                        || a.severity == "low")
            && (a.severity == b.severity ==> a.lastSeen >= b.lastSeen)
  {
    assert !RowLess(rows[j], rows[i]);
    SeveritiesDiffer();
  }

  lemma SeveritiesDiffer()
    ensures "critical" != "high" && "critical" != "medium" && "critical" != "low"
    ensures "high" != "medium" && "high" != "low" && "medium" != "low"
  {
    assert "critical"[0] == 'c' && "high"[0] == 'h' && "medium"[0] == 'm' && "low"[0] == 'l';
  }

  // ----- findings -----

  /** The report replaces what the finding says and where it is; id and first_seen are the row's own, if it has one. */
  lemma ReportReplaces(db: Db, r: Report, now: int)
    ensures var f := UpsertedFinding(db, r, now);
            && f.severity == r.severity && f.text == r.text && f.modules == r.modules && f.evidence == r.evidence
            && f.classKey == r.classKey && f.status == Open && f.lastSeen == now
            && Nodes.IsSmallest(f.nodes, (set id | id in r.nodes && id >= 1), 64)
            && f.id == (if r.key in db.findings then db.findings[r.key].id else r.id)
            && f.firstSeen == (if r.key in db.findings then db.findings[r.key].firstSeen else now)
            && (r.key !in db.findings ==> f.occurrences == 1 && f.reopenedAt == None)
  {
    Nodes.CappedIsSmallest(Nodes.Valid(r.nodes));
    assert Nodes.Valid(r.nodes) == set id | id in r.nodes && id >= 1;
    hide Nodes.Capped;
  }

  lemma ReportTouchesOneRow(db: Db, r: Report, now: int)
    ensures UpsertFinding(db, r, now).findings == db.findings[r.key := UpsertedFinding(db, r, now)]
  {
    hide UpsertedFinding, SightedClass, SeededWith;
  }

  /** A class is created pending, with the edge's tag; a class that exists keeps every decision and moves only its
      last_seen, forward. Wording is seeded once. A report that names no class touches none. */
  lemma SightingKeepsReview(db: Db, r: Report, now: int)
    ensures var after := UpsertFinding(db, r, now);
            && (r.classKey == "" ==> after.classes == db.classes && after.texts == db.texts)
            && (forall k :: k != r.classKey && k in db.classes
                            ==> k in after.classes && after.classes[k] == db.classes[k])
            && (forall k :: k in db.texts ==> k in after.texts && after.texts[k] == db.texts[k])
            && after.decisions == db.decisions && after.groups == db.groups
            && (r.classKey != "" ==>
                  && r.classKey in after.classes && r.classKey in after.texts
                  && (r.classKey !in db.texts ==> after.texts[r.classKey].seed == r.text
                                                  && after.texts[r.classKey].override == Wording("", "", ""))
                  && if r.classKey in db.classes
                     then && after.classes[r.classKey].(lastSeen := 0) == db.classes[r.classKey].(lastSeen := 0)
                          && after.classes[r.classKey].lastSeen >= db.classes[r.classKey].lastSeen
                          && after.classes[r.classKey].lastSeen >= now
                          && (after.classes[r.classKey].lastSeen == db.classes[r.classKey].lastSeen
                              || after.classes[r.classKey].lastSeen == now)
                     else after.classes[r.classKey] == ClassRow(Pending, r.security, "", "", r.promptVersion, now, now))
  {
    hide UpsertedFinding;
  }

  /** A window's lines match a finding through any of its modules and any of its evidence lines. */
  lemma HitsAre(canon: Canon, db: Db, systemId: string, ts: seq<Template>, k: FindingKey)
    ensures k in Hits(canon, db, systemId, ts)
       <==> && k in db.findings && k.systemId == systemId
            && exists t, m, e :: t in ts && m in db.findings[k].modules && e in db.findings[k].evidence
                                 && CanonicalKey(canon, m, e) == KeyOf(canon, t)
  {
    hide CanonicalKey;
    if k in db.findings {
      var f := db.findings[k];
      if SeenIn(canon, f, ts) {
        var t :| t in ts && KeyOf(canon, t) in EvidenceKeys(canon, f);
        var m, e :| m in f.modules && e in f.evidence && CanonicalKey(canon, m, e) == KeyOf(canon, t);
      }
      if t, m, e :| t in ts && m in f.modules && e in f.evidence && CanonicalKey(canon, m, e) == KeyOf(canon, t) {
        assert KeyOf(canon, t) in EvidenceKeys(canon, f);
      }
    }
  }

  /** A refresh replaces the nodes by those of the matching lines, unless they carry none, and touches no wording. */
  lemma RefreshMovesNodes(canon: Canon, f: Finding, ts: seq<Template>, now: int)
    ensures var g := RefreshedFinding(canon, f, ts, now);
            var ids := set t, id |
              t in ts && KeyOf(canon, t) in EvidenceKeys(canon, f) && id in t.nodes && id >= 1 :: id;
            && (if ids == {} then g.nodes == f.nodes else Nodes.IsSmallest(g.nodes, ids, 64))
            && g == f.(occurrences := g.occurrences, lastSeen := g.lastSeen, reopenedAt := g.reopenedAt,
                       status := g.status, nodes := g.nodes)
            && g.lastSeen >= f.lastSeen && g.lastSeen >= now && (g.lastSeen == f.lastSeen || g.lastSeen == now)
  {
    Nodes.CappedIsSmallest(NodesSeen(canon, f, ts));
    hide Nodes.Capped, EvidenceKeys;
  }

  /** A refreshed finding's class is seen now and keeps every decision, and is given the finding's wording if it had
      none; nothing else changes but the finding. */
  lemma RefreshSightsTheClass(canon: Canon, db: Db, k: FindingKey, ts: seq<Template>, now: int)
    requires k in db.findings
    ensures var key, after := db.findings[k].classKey, RefreshOne(canon, db, k, ts, now);
            && after.findings == db.findings[k := RefreshedFinding(canon, db.findings[k], ts, now)]
            && after.decisions == db.decisions && after.groups == db.groups && after.classes.Keys == db.classes.Keys
            && (forall j :: j in db.classes && (j != key || j == "") ==> after.classes[j] == db.classes[j])
            && (key != "" && key in db.classes ==>
                  && after.classes[key] == db.classes[key].(lastSeen := after.classes[key].lastSeen)
                  && after.classes[key].lastSeen
                     == if db.classes[key].lastSeen < now then now else db.classes[key].lastSeen)
            && after.texts == if key == "" || key in db.texts then db.texts
                              else db.texts[key := TextRow(db.findings[k].text, Wording("", "", ""))]
  {
    hide RefreshedFinding;
  }

  /** A finding goes stale exactly if it is the system's, open, and was last seen before the cutoff. */
  lemma StaleMeans(db: Db, systemId: string, olderThan: int, k: FindingKey)
    requires k in db.findings
    ensures var f, after := db.findings[k], MarkStale(db, systemId, olderThan);
            var goes := k.systemId == systemId && f.status == Open && f.lastSeen < olderThan;
            && after.findings.Keys == db.findings.Keys && after.(findings := db.findings) == db
            && after.findings[k] == if goes then f.(status := Stale) else f
  {
  }

  /** Pruning takes exactly the findings that are not open and were last seen before the cutoff, and exactly the
      classes last seen before it that nobody decided and no finding names. */
  lemma PruningMeans(db: Db, olderThan: int)
    ensures forall k :: k in PrunableFindings(db, olderThan)
                   <==> k in db.findings && db.findings[k].status != Open && db.findings[k].lastSeen < olderThan
    ensures forall key :: key in PrunableClasses(db, olderThan)
                     <==> && key in db.classes && db.classes[key].lastSeen < olderThan
                          && (forall i :: 0 <= i < |db.decisions| ==> db.decisions[i].key != key)
                          && (forall k :: k in db.findings ==> db.findings[k].classKey != key)
  {
  }

  // ----- decisions -----

  predicate Named(severity: string) {
    severity == "critical" || severity == "high" || severity == "medium" || severity == "low"
  }

  /** One column and one audit row; an unknown class, a severity by another name and a return to pending are refused
      and change nothing. */
  lemma DecisionsMean(db: Db, key: string, v: Visibility, on: bool, severity: string, docRef: string, actor: string,
                      now: int)
    ensures key !in db.classes ==>
              && SetClassVisibility(db, key, v, actor, now).0 == SetClassSecurity(db, key, on, actor, now).0 == db
              && SetClassSeverity(db, key, severity, actor, now).0 == db
              && SetClassDocRef(db, key, docRef, actor, now).0 == db
              && SetClassSecurity(db, key, on, actor, now).1.Err? && SetClassDocRef(db, key, docRef, actor, now).1.Err?
    ensures SetClassVisibility(db, key, v, actor, now).1 == Ok(1) <==> key in db.classes && v != Pending
    ensures SetClassSeverity(db, key, severity, actor, now).1 == Ok(1)
       <==> key in db.classes && (severity == "" || Named(severity))
    ensures key in db.classes ==>
              var row := db.classes[key];
              && SetClassVisibility(db, key, v, actor, now).0.classes
                 == db.classes[key := if v == Pending then row else row.(visibility := v)]
              && SetClassSecurity(db, key, on, actor, now).0.classes == db.classes[key := row.(security := on)]
              && SetClassSeverity(db, key, severity, actor, now).0.classes
                 == db.classes[key := if severity == "" || Named(severity) then row.(severity := severity) else row]
              && SetClassDocRef(db, key, docRef, actor, now).0.classes == db.classes[key := row.(docRef := docRef)]
              && SetClassDocRef(db, key, docRef, actor, now).0.decisions
                 == db.decisions + [Decision(key, actor, DocRef, docRef, row.promptVersion, now)]
  {
    if key in db.classes { assert db.classes[key := db.classes[key]] == db.classes; }
  }

  /** Every decision leaves one audit row, which says who decided what, and under which prompt. */
  lemma AuditMeans(db: Db, key: string, on: bool, severity: string, actor: string, now: int)
    requires key in db.classes
    ensures var row := (action, detail) => [Decision(key, actor, action, detail, db.classes[key].promptVersion, now)];
            && SetClassVisibility(db, key, Customer, actor, now).0.decisions == db.decisions + row(Deliver, "")
            && SetClassVisibility(db, key, Operator, actor, now).0.decisions == db.decisions + row(Internal, "")
            && SetClassVisibility(db, key, Dismissed, actor, now).0.decisions == db.decisions + row(Dismiss, "")
            && SetClassSecurity(db, key, true, actor, now).0.decisions == db.decisions + row(Security, "on")
            && SetClassSecurity(db, key, false, actor, now).0.decisions == db.decisions + row(Security, "off")
            && (severity == "" || Named(severity) ==>
                  SetClassSeverity(db, key, severity, actor, now).0.decisions == db.decisions + row(Severity, severity))
  {
  }

  /** What a reader of the class sees in one field after a form posted something: the posted text, or if that is
      blank the seed, either without surrounding blanks. */
  predicate PostedField(shown: string, posted: string, seed: string) {
    TrimSpace(shown) == if TrimSpace(posted) != "" then TrimSpace(posted) else TrimSpace(seed)
  }

  lemma OneFieldPosted(posted: string, seed: string)
    ensures var o := WordingOverride(posted, seed); PostedField(if o != "" then o else seed, posted, seed)
  {
    ReviewForm.TrimTwice(posted);
    assert TrimSpace("") == "";
  }

  /** An accepted form leaves the class as posted, in its columns and in what its customers read. */
  lemma FormMeans(db: Db, key: string, u: ClassUpdate, actor: string, now: int)
    requires UpdateClass(db, key, u, actor, now).1.Ok?
    ensures key in db.classes && key in UpdateClass(db, key, u, actor, now).0.classes
    ensures var after := UpdateClass(db, key, u, actor, now).0;
            var row, text := after.classes[key], ReviewForm.CustomerText(Seeded(after, key).texts[key]);
            var seed := Seeded(db, key).texts[key].seed;
            && row.visibility == (if u.visibility.Some? then u.visibility.value else db.classes[key].visibility)
            && row.security == u.security && row.severity == u.severity && row.docRef == u.docRef
            && PostedField(text.title, u.wording.title, seed.title)
            && PostedField(text.summary, u.wording.summary, seed.summary)
            && PostedField(text.suggestedAction, u.wording.suggestedAction, seed.suggestedAction)
  {
    var after := UpdateClass(db, key, u, actor, now).0;
    ReviewForm.FormIsApplied(db, key, u, actor, now);
    FormKeepsSeed(db, key, u, actor, now);
    var seed := Seeded(db, key).texts[key].seed;
    OneFieldPosted(u.wording.title, seed.title);
    OneFieldPosted(u.wording.summary, seed.summary);
    OneFieldPosted(u.wording.suggestedAction, seed.suggestedAction);
    hide UpdateClass, WordingOverride, LatestText, TrimSpace;
  }

  lemma FormKeepsSeed(db: Db, key: string, u: ClassUpdate, actor: string, now: int)
    requires UpdateClass(db, key, u, actor, now).1.Ok?
    ensures var after := UpdateClass(db, key, u, actor, now).0;
            && Seeded(after, key).texts[key].seed == Seeded(db, key).texts[key].seed
            && Seeded(after, key).texts[key].override == Override(after, key)
  {
    var seeded := Seeded(db, key);
    var cs := Changes(db.classes[key], seeded.texts[key], u);
    if cs != [] {
      ReviewForm.ChangesReplay(seeded, key, u, actor, now);
    }
    hide Changes, DecidedAll, LatestText;
  }

  /** A form is refused exactly for an unknown class, a return to pending, or a severity by another name. */
  lemma FormRefused(db: Db, key: string, u: ClassUpdate, actor: string, now: int)
    ensures UpdateClass(db, key, u, actor, now).1.Err?
       <==> u.visibility == Some(Pending) || (u.severity != "" && !Named(u.severity)) || key !in db.classes
    ensures UpdateClass(db, key, u, actor, now).1.Err? ==> UpdateClass(db, key, u, actor, now).0 == db
  {
    hide Changes, DecidedAll, LatestText;
  }

  predicate Outlasts(f: Finding, g: Finding) {
    g.lastSeen < f.lastSeen || (g.lastSeen == f.lastSeen && StringLess(f.id, g.id))
  }

  /** A class with no wording yet is given that of its finding seen last, the first by id among equals, or none if it
      has no finding. */
  lemma SeedIsTheLatest(db: Db, key: string)
    requires key !in db.texts && UniqueIds(db.findings)
    ensures var row := Seeded(db, key).texts[key];
            && row.override == Wording("", "", "")
            && ((forall k :: k in db.findings ==> db.findings[k].classKey != key) ==> row.seed == Wording("", "", ""))
            && (forall k :: k in db.findings && db.findings[k].classKey == key
                            && (forall j :: j in db.findings && j != k && db.findings[j].classKey == key
                                            ==> Outlasts(db.findings[k], db.findings[j]))
                            ==> row.seed == db.findings[k].text)
  {
    forall k | k in db.findings && db.findings[k].classKey == key
               && (forall j :: j in db.findings && j != k && db.findings[j].classKey == key
                               ==> Outlasts(db.findings[k], db.findings[j]))
      ensures LatestText(db, key) == db.findings[k].text {
      StringLessTotal();
      assert !StringLess(db.findings[k].id, db.findings[k].id);
      assert IsLatest(db, key, k);
      OnlyLatest(db, key, k);
    }
  }

  /** Deciding a sorted list of classes: each listed one is at v, every other row is as it was. */
  lemma {:induction false} VisibleAllMeans(db: Db, keys: seq<string>, v: Visibility, action: Action, detail: string,
                                           actor: string, now: int)
    requires forall k :: k in keys ==> k in db.classes
    ensures var after := VisibleAll(db, keys, v, action, detail, actor, now);
            && after.classes.Keys == db.classes.Keys && after.texts == db.texts && after.findings == db.findings
            && forall k :: k in db.classes ==>
                 after.classes[k] == if k in keys then db.classes[k].(visibility := v) else db.classes[k]
  {
    if keys != [] {
      var init, last := keys[..|keys| - 1], keys[|keys| - 1];
      assert keys == init + [last] && last in keys && forall k :: k in init ==> k in keys;
      VisibleAllMeans(db, init, v, action, detail, actor, now);
    }
  }

  /** A group decision moves exactly the listed members of the group that are still pending. */
  lemma GroupDecides(db: Db, anchor: string, members: seq<string>, todo: seq<string>, v: Visibility, action: Action,
                     detail: string, actor: string, now: int, k: string)
    requires Enumerates(todo, PendingGroupClasses(db, anchor, members)) && k in db.classes
    ensures var after := VisibleAll(db, todo, v, action, detail, actor, now).classes;
            var listed := k in members && k in db.groups && db.groups[k] == anchor;
            var moves := listed && db.classes[k].visibility == Pending;
            k in after && after[k] == if moves then db.classes[k].(visibility := v) else db.classes[k]
  {
    VisibleAllMeans(db, todo, v, action, detail, actor, now);
  }

  /** A bulk decision moves exactly the listed classes, whatever they were. */
  lemma BulkDecides(db: Db, keys: seq<string>, todo: seq<string>, v: Visibility, action: Action, detail: string,
                    actor: string, now: int, k: string)
    requires Enumerates(todo, ChangingClasses(db, keys, v)) && k in db.classes
    ensures var after := VisibleAll(db, todo, v, action, detail, actor, now).classes;
            k in after && after[k] == if k in keys then db.classes[k].(visibility := v) else db.classes[k]
    ensures k in todo <==> k in keys && db.classes[k].visibility != v
  {
    VisibleAllMeans(db, todo, v, action, detail, actor, now);
  }
}
