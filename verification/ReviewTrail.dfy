/** The review as an audited state machine: the append-only trail replays to the current state. */
module ReviewTrail {
  import opened Model
  import opened Sorting
  import opened LogsDb

  /** Everything an operator can decide about a class. */
  datatype Decidable = Decidable(visibility: Visibility, security: bool, severity: string, docRef: string,
                                 override: Wording)

  function Current(db: Db, key: string): Decidable
    requires key in db.classes
  {
    var c := db.classes[key];
    Decidable(c.visibility, c.security, c.severity, c.docRef, Override(db, key))
  }

  /** A class starts pending, with the edge's security tag and no overrides. */
  function FirstState(security: bool): Decidable { Decidable(Pending, security, "", "", NO_WORDING) }

  /** The effect an audit row claims. */
  function Replayed(d: Decidable, action: Action, detail: string): Decidable {
    match action
    case Deliver => d.(visibility := Customer)
    case Internal => d.(visibility := Operator)
    case Dismiss => d.(visibility := Dismissed)
    case Security => d.(security := detail == "on")
    case Severity => d.(severity := detail)
    case DocRef => d.(docRef := detail)
    case Title => d.(override := d.override.(title := detail))
    case Summary => d.(override := d.override.(summary := detail))
    case SuggestedAction => d.(override := d.override.(suggestedAction := detail))
  }

  function Replay(d: Decidable, ds: seq<Decision>, key: string): Decidable {
    if ds == [] then d
    else
      var before, last := Replay(d, ds[..|ds| - 1], key), ds[|ds| - 1];
      if last.key == key then Replayed(before, last.action, last.detail) else before
  }

  /** The edge's tag at the time each class was created. */
  ghost function Tags(canon: Canon, ops: seq<Op>): map<string, bool> {
    if ops == [] then map[]
    else
      var init, op := ops[..|ops| - 1], ops[|ops| - 1];
      if op.OpUpsert? && op.r.classKey != "" && op.r.classKey !in Run(canon, init).classes
      then Tags(canon, init)[op.r.classKey := op.r.security] else Tags(canon, init)
  }

  ghost predicate AuditedAt(db: Db, tags: map<string, bool>, key: string)
    requires key in db.classes
  {
    key in tags && Current(db, key) == Replay(FirstState(tags[key]), db.decisions, key)
  }

  ghost predicate Audited(db: Db, tags: map<string, bool>) {
    && (forall key :: key in db.classes ==> AuditedAt(db, tags, key))
    && (forall i :: 0 <= i < |db.decisions| ==> db.decisions[i].key in db.classes)
    && (forall key :: key in db.texts && key !in db.classes ==> db.texts[key].override == NO_WORDING)
  }

  /** A write and the audit row beside it say the same. */
  predicate Consistent(c: Change) {
    match c.write
    case WriteVisibility(v) => VisibilityAction(v) == Some(c.action)
    case WriteSecurity(on) => c.action == Security && c.detail == OnOff(on)
    case WriteSeverity(s) => c.action == Severity && c.detail == s
    case WriteDocRef(s) => c.action == DocRef && c.detail == s
    case WriteTitle(s) => c.action == Title && c.detail == s
    case WriteSummary(s) => c.action == Summary && c.detail == s
    case WriteSuggestedAction(s) => c.action == SuggestedAction && c.detail == s
  }

  predicate WritesText(w: Write) { w.WriteTitle? || w.WriteSummary? || w.WriteSuggestedAction? }

  lemma OnOffReads(on: bool)
    ensures (OnOff(on) == "on") == on
  {
    assert OnOff(false)[1] == 'f' && "on"[1] == 'n';
  }

  /** Only rows of the class moved, and no row came or went. */
  predicate OnlyClass(db: Db, after: Db, key: string) {
    && after.classes.Keys == db.classes.Keys && after.texts.Keys == db.texts.Keys
    && (forall k :: k in db.classes && k != key ==> after.classes[k] == db.classes[k])
    && (forall k :: k in db.texts && k != key ==> after.texts[k] == db.texts[k])
    && after.findings == db.findings && after.groups == db.groups && after.decisions == db.decisions
  }

  lemma OverriddenFrame(db: Db, key: string, o: Wording)
    ensures OnlyClass(db, Overridden(db, key, o), key)
  {
  }

  lemma ClassFrame(db: Db, key: string, row: ClassRow)
    requires key in db.classes
    ensures OnlyClass(db, db.(classes := db.classes[key := row]), key)
  {
  }

  lemma WrittenFrame(db: Db, key: string, w: Write)
    ensures OnlyClass(db, Written(db, key, w), key)
  {
    hide Overridden, Override;
    if key !in db.classes { assert OnlyClass(db, db, key); }
    hide OnlyClass;
    match w
    case WriteTitle(s) => OverriddenFrame(db, key, Override(db, key).(title := s));
    case WriteSummary(s) => OverriddenFrame(db, key, Override(db, key).(summary := s));
    case WriteSuggestedAction(s) => OverriddenFrame(db, key, Override(db, key).(suggestedAction := s));
    case WriteVisibility(v) => if key in db.classes { ClassFrame(db, key, db.classes[key].(visibility := v)); }
    case WriteSecurity(on) => if key in db.classes { ClassFrame(db, key, db.classes[key].(security := on)); }
    case WriteSeverity(s) => if key in db.classes { ClassFrame(db, key, db.classes[key].(severity := s)); }
    case WriteDocRef(s) => if key in db.classes { ClassFrame(db, key, db.classes[key].(docRef := s)); }
  }

  lemma WrittenIsReplayed(db: Db, key: string, c: Change)
    requires key in db.classes && Consistent(c) && (WritesText(c.write) ==> key in db.texts)
    ensures key in Written(db, key, c.write).classes
    ensures Current(Written(db, key, c.write), key) == Replayed(Current(db, key), c.action, c.detail)
  {
    if c.write.WriteSecurity? { OnOffReads(c.write.on); }
    hide OnOff;
  }

  lemma DecidedIsReplayed(db: Db, key: string, c: Change, actor: string, now: int)
    requires key in db.classes && Consistent(c) && (WritesText(c.write) ==> key in db.texts)
    ensures var after := Decided(db, key, c, actor, now);
            && after.classes.Keys == db.classes.Keys && after.texts.Keys == db.texts.Keys
            && Current(after, key) == Replayed(Current(db, key), c.action, c.detail)
            && (forall k :: k in db.classes && k != key ==> after.classes[k] == db.classes[k])
            && (forall k :: k in db.texts && k != key ==> after.texts[k] == db.texts[k])
            && after.findings == db.findings && after.groups == db.groups
            && after.decisions
               == db.decisions + [Decision(key, actor, c.action, c.detail, db.classes[key].promptVersion, now)]
  {
    WrittenFrame(db, key, c.write);
    WrittenIsReplayed(db, key, c);
    hide Written, Consistent, WritesText, Replayed;
  }

  lemma DecidedKeepsAudit(db: Db, tags: map<string, bool>, key: string, c: Change, actor: string, now: int)
    requires Audited(db, tags) && key in db.classes && Consistent(c) && (WritesText(c.write) ==> key in db.texts)
    ensures Audited(Decided(db, key, c, actor, now), tags)
  {
    DecidedIsReplayed(db, key, c, actor, now);
    hide Decided, Consistent, WritesText, Audited, Replayed;
    AuditGrows(db, Decided(db, key, c, actor, now), tags,
               Decision(key, actor, c.action, c.detail, db.classes[key].promptVersion, now));
  }

  /** One class changes as its new audit row says. */
  lemma AuditGrows(db: Db, after: Db, tags: map<string, bool>, d: Decision)
    requires Audited(db, tags) && d.key in db.classes && after.decisions == db.decisions + [d]
    requires after.classes.Keys == db.classes.Keys && after.texts.Keys == db.texts.Keys
    requires Current(after, d.key) == Replayed(Current(db, d.key), d.action, d.detail)
    requires forall k :: k in db.classes && k != d.key ==> after.classes[k] == db.classes[k]
    requires forall k :: k in db.texts && k != d.key ==> after.texts[k] == db.texts[k]
    ensures Audited(after, tags)
  {
    forall k | k in after.classes ensures AuditedAt(after, tags, k) {
      assert AuditedAt(db, tags, k);
      ReplayMore(FirstState(tags[k]), db.decisions, d, k);
      assert k != d.key ==> Override(after, k) == Override(db, k);
    }
    hide AuditedAt, Replay, Replayed, Current, FirstState;
  }

  lemma ReplayMore(d: Decidable, ds: seq<Decision>, last: Decision, key: string)
    ensures Replay(d, ds + [last], key)
         == if last.key == key then Replayed(Replay(d, ds, key), last.action, last.detail) else Replay(d, ds, key)
  {
    assert (ds + [last])[..|ds|] == ds;
  }

  lemma {:induction false} DecidedAllKeepsAudit(db: Db, tags: map<string, bool>, key: string, cs: seq<Change>,
                                                actor: string, now: int)
    requires Audited(db, tags) && key in db.classes && key in db.texts
    requires forall i :: 0 <= i < |cs| ==> Consistent(cs[i])
    ensures var after := DecidedAll(db, key, cs, actor, now);
            && Audited(after, tags) && key in after.classes && key in after.texts
  {
    if cs != [] {
      var init, c := cs[..|cs| - 1], cs[|cs| - 1];
      DecidedAllKeepsAudit(db, tags, key, init, actor, now);
      var mid := DecidedAll(db, key, init, actor, now);
      DecidedIsReplayed(mid, key, c, actor, now);
      DecidedKeepsAudit(mid, tags, key, c, actor, now);
    }
  }

  lemma {:induction false} VisibleAllKeepsAudit(db: Db, tags: map<string, bool>, keys: seq<string>, v: Visibility,
                                                action: Action, detail: string, actor: string, now: int)
    requires Audited(db, tags) && VisibilityAction(v) == Some(action)
    requires forall k :: k in keys ==> k in db.classes
    ensures var after := VisibleAll(db, keys, v, action, detail, actor, now);
            Audited(after, tags) && after.classes.Keys == db.classes.Keys
  {
    if keys != [] {
      var init, key := keys[..|keys| - 1], keys[|keys| - 1];
      assert key in keys;
      VisibleAllKeepsAudit(db, tags, init, v, action, detail, actor, now);
      var mid := VisibleAll(db, init, v, action, detail, actor, now);
      var c := Change(WriteVisibility(v), action, detail);
      DecidedIsReplayed(mid, key, c, actor, now);
      DecidedKeepsAudit(mid, tags, key, c, actor, now);
    }
  }

  lemma ChangesAreConsistent(cls: ClassRow, text: TextRow, u: ClassUpdate)
    ensures forall i :: 0 <= i < |Changes(cls, text, u)| ==> Consistent(Changes(cls, text, u)[i])
  {
    hide Consistent, RowChanges, TextChanges;
    var rows, texts := RowChanges(cls, u), TextChanges(text.override, PostedOverride(text.seed, u.wording));
    RowChangesConsistent(cls, u);
    TextChangesConsistent(text.override, PostedOverride(text.seed, u.wording));
    forall i | 0 <= i < |rows + texts| ensures Consistent((rows + texts)[i]) {
      assert (rows + texts)[i] in rows || (rows + texts)[i] in texts;
    }
  }

  lemma TextChangesConsistent(stored: Wording, posted: Wording)
    ensures forall c :: c in TextChanges(stored, posted) ==> Consistent(c)
  {
  }

  lemma RowChangesConsistent(cls: ClassRow, u: ClassUpdate)
    ensures forall c :: c in RowChanges(cls, u) ==> Consistent(c)
  {
    assert Consistent(Change(WriteSecurity(u.security), Security, OnOff(u.security)));
    assert Consistent(Change(WriteSeverity(u.severity), Severity, u.severity));
    assert Consistent(Change(WriteDocRef(u.docRef), DocRef, u.docRef));
    assert forall c :: c in VisibilityChange(cls.visibility, u.visibility) ==> Consistent(c);
    hide Consistent, VisibilityChange, OnOff;
  }

  /** Writes that are no decision: rows may be sighted or seeded, but nothing decidable moves. */
  ghost predicate Undecided(db: Db, after: Db) {
    && after.decisions == db.decisions
    && (forall k :: k in db.classes ==> k in after.classes && Current(after, k) == Current(db, k))
    && (forall k :: k in after.classes ==> k in db.classes)
    && (forall k :: k in after.texts && k !in db.classes ==> after.texts[k].override == NO_WORDING)
  }

  lemma UndecidedKeepsAudit(db: Db, tags: map<string, bool>, after: Db)
    requires Audited(db, tags) && Undecided(db, after)
    ensures Audited(after, tags)
  {
  }

  lemma {:induction false} RefreshIsUndecided(canon: Canon, db: Db, hits: seq<FindingKey>, ts: seq<Template>, now: int)
    requires forall k :: k in db.texts && k !in db.classes ==> db.texts[k].override == NO_WORDING
    ensures Undecided(db, RefreshAll(canon, db, hits, ts, now))
  {
    if hits != [] {
      var mid := RefreshAll(canon, db, hits[..|hits| - 1], ts, now);
      RefreshIsUndecided(canon, db, hits[..|hits| - 1], ts, now);
      RefreshOneIsUndecided(canon, mid, hits[|hits| - 1], ts, now);
    }
  }

  lemma SeededKeepsOverride(db: Db, after: Db, key: string, seed: Wording, j: string)
    requires after.texts == SeededWith(db.texts, key, seed)
    ensures Override(after, j) == Override(db, j)
    ensures j in after.texts && j !in db.texts ==> after.texts[j].override == NO_WORDING
    ensures j in db.texts ==> j in after.texts && after.texts[j] == db.texts[j]
  {
  }

  lemma ResightingDecidesNothing(classes: map<string, ClassRow>, key: string, now: int)
    ensures Resighted(classes, key, now).Keys == classes.Keys
    ensures forall j :: j in classes ==> Resighted(classes, key, now)[j].(lastSeen := 0) == classes[j].(lastSeen := 0)
  {
  }

  lemma RefreshOneIsUndecided(canon: Canon, db: Db, k: FindingKey, ts: seq<Template>, now: int)
    requires forall j :: j in db.texts && j !in db.classes ==> db.texts[j].override == NO_WORDING
    ensures Undecided(db, RefreshOne(canon, db, k, ts, now))
  {
    hide RefreshedFinding, Resighted, SeededWith;
    var after := RefreshOne(canon, db, k, ts, now);
    if k in db.findings && db.findings[k].classKey != "" {
      var f := db.findings[k];
      ResightingDecidesNothing(db.classes, f.classKey, now);
      forall j ensures Override(after, j) == Override(db, j)
               ensures j in after.texts && j !in db.classes ==> after.texts[j].override == NO_WORDING {
        SeededKeepsOverride(db, after, f.classKey, f.text, j);
      }
    }
  }

  lemma {:induction false} NoTrail(d: Decidable, ds: seq<Decision>, key: string)
    requires forall i :: 0 <= i < |ds| ==> ds[i].key != key
    ensures Replay(d, ds, key) == d
  {
    if ds != [] { NoTrail(d, ds[..|ds| - 1], key); }
  }

  lemma UpsertKeepsAudit(db: Db, tags: map<string, bool>, r: Report, now: int)
    requires Audited(db, tags)
    ensures Audited(UpsertFinding(db, r, now),
                    if r.classKey != "" && r.classKey !in db.classes then tags[r.classKey := r.security] else tags)
  {
    hide UpsertedFinding, AuditedAt;
    var after := UpsertFinding(db, r, now);
    if r.classKey != "" && r.classKey !in db.classes {
      CreationKeepsAudit(db, tags, r, after);
    } else {
      assert Undecided(db, after);
      UndecidedKeepsAudit(db, tags, after);
    }
  }

  lemma CreationKeepsAudit(db: Db, tags: map<string, bool>, r: Report, after: Db)
    requires Audited(db, tags) && r.classKey !in db.classes && after.decisions == db.decisions
    requires after.classes.Keys == db.classes.Keys + {r.classKey}
    requires Current(after, r.classKey) == FirstState(r.security)
    requires forall k :: k in db.classes ==> Current(after, k) == Current(db, k)
    requires forall k :: k in after.texts && k != r.classKey ==> k in db.texts && after.texts[k] == db.texts[k]
    ensures Audited(after, tags[r.classKey := r.security])
  {
    NoTrail(FirstState(r.security), db.decisions, r.classKey);
    hide Replay, FirstState;
  }

  lemma PruneClassesKeepsAudit(db: Db, tags: map<string, bool>, dead: set<string>, olderThan: int)
    requires Audited(db, tags) && forall k :: k in dead ==> ClassPrunable(db, k, olderThan)
    ensures Audited(db.(classes := db.classes - dead), tags)
  {
    forall k | k in dead && k in db.texts ensures db.texts[k].override == NO_WORDING {
      NoTrail(FirstState(tags[k]), db.decisions, k);
      assert Current(db, k).override == NO_WORDING;
    }
  }

  lemma StepKeepsAudit(canon: Canon, db: Db, tags: map<string, bool>, op: Op)
    requires Audited(db, tags) && Enabled(canon, db, op)
    ensures Audited(Apply(canon, db, op),
                    if op.OpUpsert? && op.r.classKey != "" && op.r.classKey !in db.classes
                    then tags[op.r.classKey := op.r.security] else tags)
  {
    hide Audited;
    match op
    case OpVisibility(key, v, actor, now) =>
      if VisibilityAction(v).Some? && key in db.classes {
        DecidedKeepsAudit(db, tags, key, Change(WriteVisibility(v), VisibilityAction(v).value, ""), actor, now);
      }
    case OpSecurity(key, on, actor, now) =>
      if key in db.classes {
        DecidedKeepsAudit(db, tags, key, Change(WriteSecurity(on), Security, OnOff(on)), actor, now);
      }
    case OpSeverity(key, s, actor, now) =>
      if key in db.classes { DecidedKeepsAudit(db, tags, key, Change(WriteSeverity(s), Severity, s), actor, now); }
    case OpDocRef(key, d, actor, now) =>
      if key in db.classes { DecidedKeepsAudit(db, tags, key, Change(WriteDocRef(d), DocRef, d), actor, now); }
    case OpUpdate(key, u, actor, now) => UpdateKeepsAudit(db, tags, key, u, actor, now);
    case OpVisibleAll(keys, v, detail, actor, now) =>
      VisibleAllKeepsAudit(db, tags, keys, v, VisibilityAction(v).value, detail, actor, now);
    case OpUpsert(r, now) => UpsertKeepsAudit(db, tags, r, now);
    case OpPruneClasses(dead, o) => PruneClassesKeepsAudit(db, tags, dead, o);
    case _ => OtherKeepsAudit(canon, db, tags, op);
  }

  lemma OtherKeepsAudit(canon: Canon, db: Db, tags: map<string, bool>, op: Op)
    requires Audited(db, tags) && Enabled(canon, db, op)
    requires || op.OpRefresh? || op.OpMarkStale? || op.OpPruneFindings?
             || op.OpPruneTexts? || op.OpSetGroup? || op.OpPruneGroups?
    ensures Audited(Apply(canon, db, op), tags)
  {
    if op.OpRefresh? { RefreshIsUndecided(canon, db, op.hits, op.ts, op.now); }
    hide RefreshAll, AuditedAt;
    assert Undecided(db, Apply(canon, db, op));
    UndecidedKeepsAudit(db, tags, Apply(canon, db, op));
    hide Audited, Undecided;
  }

  lemma UpdateKeepsAudit(db: Db, tags: map<string, bool>, key: string, u: ClassUpdate, actor: string, now: int)
    requires Audited(db, tags)
    ensures Audited(UpdateClass(db, key, u, actor, now).0, tags)
  {
    if key in db.classes {
      var seeded := Seeded(db, key);
      assert Undecided(db, seeded);
      UndecidedKeepsAudit(db, tags, seeded);
      var cs := Changes(db.classes[key], seeded.texts[key], u);
      ChangesAreConsistent(db.classes[key], seeded.texts[key], u);
      DecidedAllKeepsAudit(seeded, tags, key, cs, actor, now);
    }
  }

  /** Through single, form, group and bulk decisions, upserts, refreshes and prunes in any order, a
      class's trail replayed from its first state is its current state, and no audit row is orphaned. */
  lemma {:induction false} TrailReplays(canon: Canon, ops: seq<Op>)
    requires IsRun(canon, ops)
    ensures Audited(Run(canon, ops), Tags(canon, ops))
  {
    if ops != [] {
      TrailReplays(canon, ops[..|ops| - 1]);
      StepKeepsAudit(canon, Run(canon, ops[..|ops| - 1]), Tags(canon, ops[..|ops| - 1]), ops[|ops| - 1]);
    }
  }

  // ----- what follows from the trail -----

  function LatestVisibility(ds: seq<Decision>, key: string): Option<Action> {
    if ds == [] then None
    else
      var last := ds[|ds| - 1];
      if last.key == key && (last.action == Deliver || last.action == Internal || last.action == Dismiss)
      then Some(last.action) else LatestVisibility(ds[..|ds| - 1], key)
  }

  lemma {:induction false} VisibilityFromTrail(d: Decidable, ds: seq<Decision>, key: string)
    requires d.visibility == Pending
    ensures LatestVisibility(ds, key) == VisibilityAction(Replay(d, ds, key).visibility)
  {
    if ds != [] { VisibilityFromTrail(d, ds[..|ds| - 1], key); }
  }

  /** A class's visibility is what its latest visibility decision left, pending if there is none; and no class
      that is gone has any. */
  lemma VisibilityIsLatest(db: Db, tags: map<string, bool>, key: string)
    requires Audited(db, tags)
    ensures LatestVisibility(db.decisions, key)
         == if key in db.classes then VisibilityAction(db.classes[key].visibility) else None
  {
    if key in db.classes {
      assert AuditedAt(db, tags, key);
      VisibilityFromTrail(FirstState(tags[key]), db.decisions, key);
    } else {
      NoDecision(db.decisions, key);
    }
  }

  /** The customer read: a finding is listed exactly when its class exists and was last decided "deliver". */
  lemma ListedIffDelivered(canon: Canon, ops: seq<Op>, k: FindingKey)
    requires IsRun(canon, ops) && k in Run(canon, ops).findings
    ensures var db := Run(canon, ops);
            Listed(db, k) <==> LatestVisibility(db.decisions, db.findings[k].classKey) == Some(Deliver)
  {
    TrailReplays(canon, ops);
    hide Run, IsRun, Tags, Audited, LatestVisibility;
    var db := Run(canon, ops);
    VisibilityIsLatest(db, Tags(canon, ops), db.findings[k].classKey);
  }

  lemma {:induction false} NoDecision(ds: seq<Decision>, key: string)
    requires forall i :: 0 <= i < |ds| ==> ds[i].key != key
    ensures LatestVisibility(ds, key).None?
  {
    if ds != [] { NoDecision(ds[..|ds| - 1], key); }
  }

  lemma {:induction false} TrailOnlyGrows(ds: seq<Decision>, more: seq<Decision>, key: string)
    requires LatestVisibility(ds, key).Some?
    ensures LatestVisibility(ds + more, key).Some?
  {
    if more == [] {
      assert ds + more == ds;
    } else {
      var init := more[..|more| - 1];
      TrailOnlyGrows(ds, init, key);
      assert (ds + more)[..|ds + more| - 1] == ds + init;
    }
  }

  /** Every write only appends to the trail. */
  lemma StepAppends(canon: Canon, db: Db, op: Op)
    ensures db.decisions <= Apply(canon, db, op).decisions
  {
    hide UpdateClass, VisibleAll, UpsertFinding, RefreshAll, MarkStale, Decided;
    match op
    case OpVisibility(key, v, actor, now) =>
      if VisibilityAction(v).Some? {
        DecidedAppends(db, key, Change(WriteVisibility(v), VisibilityAction(v).value, ""), actor, now);
      }
    case OpSecurity(key, on, actor, now) =>
      DecidedAppends(db, key, Change(WriteSecurity(on), Security, OnOff(on)), actor, now);
    case OpSeverity(key, s, actor, now) => DecidedAppends(db, key, Change(WriteSeverity(s), Severity, s), actor, now);
    case OpDocRef(key, d, actor, now) => DecidedAppends(db, key, Change(WriteDocRef(d), DocRef, d), actor, now);
    case OpUpdate(key, u, actor, now) => UpdateAppends(db, key, u, actor, now);
    case OpVisibleAll(keys, v, detail, actor, now) =>
      if VisibilityAction(v).Some? { VisibleAllAppends(db, keys, v, VisibilityAction(v).value, detail, actor, now); }
    case OpRefresh(_, ts, hits, now) => RefreshAppends(canon, db, hits, ts, now);
    case OpUpsert(r, now) => UpsertAppends(db, r, now);
    case OpMarkStale(s, o) => MarkStaleAppends(db, s, o);
    case _ =>
  }

  lemma UpsertAppends(db: Db, r: Report, now: int)
    ensures UpsertFinding(db, r, now).decisions == db.decisions
  {
  }

  lemma MarkStaleAppends(db: Db, systemId: string, olderThan: int)
    ensures MarkStale(db, systemId, olderThan).decisions == db.decisions
  {
  }

  lemma UpdateAppends(db: Db, key: string, u: ClassUpdate, actor: string, now: int)
    ensures db.decisions <= UpdateClass(db, key, u, actor, now).0.decisions
  {
    hide DecidedAll, Changes, LatestText;
    if key in db.classes {
      var seeded := Seeded(db, key);
      DecidedAllAppends(seeded, key, Changes(db.classes[key], seeded.texts[key], u), actor, now);
    }
  }

  lemma {:induction false} DecidedAllAppends(db: Db, key: string, cs: seq<Change>, actor: string, now: int)
    ensures var after := DecidedAll(db, key, cs, actor, now);
            && db.decisions <= after.decisions && |after.decisions| == |db.decisions| + |cs|
            && after.classes.Keys == db.classes.Keys
  {
    if cs != [] {
      DecidedAllAppends(db, key, cs[..|cs| - 1], actor, now);
      DecidedAppends(DecidedAll(db, key, cs[..|cs| - 1], actor, now), key, cs[|cs| - 1], actor, now);
    }
  }

  lemma DecidedAppends(db: Db, key: string, c: Change, actor: string, now: int)
    ensures var after := Decided(db, key, c, actor, now);
            && db.decisions <= after.decisions && |after.decisions| == |db.decisions| + 1
            && after.classes.Keys == db.classes.Keys
  {
    WrittenFrame(db, key, c.write);
    hide Written;
  }

  lemma {:induction false} VisibleAllAppends(db: Db, keys: seq<string>, v: Visibility, action: Action, detail: string,
                                             actor: string, now: int)
    ensures var after := VisibleAll(db, keys, v, action, detail, actor, now);
            db.decisions <= after.decisions && |after.decisions| == |db.decisions| + |keys|
  {
    if keys != [] { VisibleAllAppends(db, keys[..|keys| - 1], v, action, detail, actor, now); }
  }

  lemma {:induction false} RefreshAppends(canon: Canon, db: Db, hits: seq<FindingKey>, ts: seq<Template>, now: int)
    ensures RefreshAll(canon, db, hits, ts, now).decisions == db.decisions
  {
    if hits != [] { RefreshAppends(canon, db, hits[..|hits| - 1], ts, now); }
  }

  /** A decided class outlives every later write, prunes included, and never returns to pending. */
  lemma {:induction false} NeverBackToPending(canon: Canon, ops: seq<Op>, more: seq<Op>, key: string)
    requires IsRun(canon, ops + more)
    requires key in Run(canon, ops).classes && Run(canon, ops).classes[key].visibility != Pending
    requires IsRun(canon, ops)
    ensures key in Run(canon, ops + more).classes && Run(canon, ops + more).classes[key].visibility != Pending
  {
    TrailReplays(canon, ops);
    TrailReplays(canon, ops + more);
    TrailExtends(canon, ops, more);
    hide Run, IsRun, Tags, Audited;
    DecidedStays(Run(canon, ops), Tags(canon, ops), Run(canon, ops + more), Tags(canon, ops + more), key);
  }

  lemma DecidedStays(db: Db, tags: map<string, bool>, after: Db, tags': map<string, bool>, key: string)
    requires Audited(db, tags) && Audited(after, tags') && db.decisions <= after.decisions
    requires key in db.classes && db.classes[key].visibility != Pending
    ensures key in after.classes && after.classes[key].visibility != Pending
  {
    VisibilityIsLatest(db, tags, key);
    VisibilityIsLatest(after, tags', key);
    hide Audited, LatestVisibility;
    var more := after.decisions[|db.decisions|..];
    assert after.decisions == db.decisions + more;
    TrailOnlyGrows(db.decisions, more, key);
  }

  lemma {:induction false} TrailExtends(canon: Canon, ops: seq<Op>, more: seq<Op>)
    ensures Run(canon, ops).decisions <= Run(canon, ops + more).decisions
  {
    if more == [] {
      assert ops + more == ops;
    } else {
      var init := more[..|more| - 1];
      TrailExtends(canon, ops, init);
      assert (ops + more)[..|ops + more| - 1] == ops + init;
      StepAppends(canon, Run(canon, ops + init), more[|more| - 1]);
    }
  }
}
