/** The review form: what an accepted form leaves, and that an unchanged one records nothing. */
module ReviewForm {
  import opened Model
  import opened LogsDb
  import opened ReviewTrail

  /** An override is never blank-padded and never repeats the seed, so "no override" has one spelling. */
  predicate NormalField(override: string, seed: string) {
    override == "" || (TrimSpace(override) == override && override != TrimSpace(seed))
  }

  predicate NormalText(t: TextRow) {
    && NormalField(t.override.title, t.seed.title)
    && NormalField(t.override.summary, t.seed.summary)
    && NormalField(t.override.suggestedAction, t.seed.suggestedAction)
  }

  /** What the customer reads, field by field: the override, else the seed. */
  function CustomerText(t: TextRow): Wording {
    Wording(if t.override.title != "" then t.override.title else t.seed.title,
            if t.override.summary != "" then t.override.summary else t.seed.summary,
            if t.override.suggestedAction != "" then t.override.suggestedAction else t.seed.suggestedAction)
  }

  lemma {:induction false} TrimLeftTwice(s: string)
    ensures TrimLeft(TrimLeft(s)) == TrimLeft(s)
    ensures |TrimLeft(s)| <= |s|
  {
    if s != [] && IsBlank(s[0]) { TrimLeftTwice(s[1..]); }
  }

  lemma {:induction false} TrimRightFacts(s: string)
    ensures TrimRight(TrimRight(s)) == TrimRight(s)
    ensures TrimRight(s) <= s
  {
    if s != [] && IsBlank(s[|s| - 1]) { TrimRightFacts(s[..|s| - 1]); }
  }

  lemma TrimTwice(s: string)
    ensures TrimSpace(TrimSpace(s)) == TrimSpace(s)
  {
    TrimLeftTwice(s);
    TrimRightFacts(TrimLeft(s));
    var t := TrimSpace(s);
    assert t != [] ==> !IsBlank(TrimLeft(s)[0]) by { TrimLeftStarts(s); }
    assert TrimLeft(t) == t;
  }

  lemma {:induction false} TrimLeftStarts(s: string)
    ensures TrimLeft(s) != [] ==> !IsBlank(TrimLeft(s)[0])
  {
    if s != [] && IsBlank(s[0]) { TrimLeftStarts(s[1..]); }
  }

  lemma OverrideIsNormal(posted: string, seed: string)
    ensures NormalField(WordingOverride(posted, seed), seed)
    ensures WordingOverride(WordingOverride(posted, seed), seed) == WordingOverride(posted, seed)
  {
    TrimTwice(posted);
    assert TrimSpace("") == "";
  }

  /** Posting back what a normal class shows asks for the overrides it already has. */
  lemma ShownTextIsUnchanged(t: TextRow)
    requires NormalText(t)
    ensures PostedOverride(t.seed, CustomerText(t)) == t.override
  {
  }

  // ----- the review form leaves exactly what was posted -----

  function ReplayChanges(d: Decidable, cs: seq<Change>): Decidable {
    if cs == [] then d
    else Replayed(ReplayChanges(d, cs[..|cs| - 1]), cs[|cs| - 1].action, cs[|cs| - 1].detail)
  }

  lemma {:induction false} ReplayChangesConcat(d: Decidable, a: seq<Change>, b: seq<Change>)
    ensures ReplayChanges(d, a + b) == ReplayChanges(ReplayChanges(d, a), b)
  {
    if b == [] {
      assert a + b == a;
    } else {
      ReplayChangesConcat(d, a, b[..|b| - 1]);
      assert (a + b)[..|a + b| - 1] == a + b[..|b| - 1];
    }
  }

  lemma ReplayIf(d: Decidable, cs: seq<Change>, b: bool, c: Change)
    ensures ReplayChanges(d, cs + If(b, c))
         == if b then Replayed(ReplayChanges(d, cs), c.action, c.detail) else ReplayChanges(d, cs)
  {
    if b {
      assert (cs + [c])[..|cs|] == cs;
    } else {
      assert cs + [] == cs;
    }
  }

  lemma RowChangesReplay(cls: ClassRow, d: Decidable, u: ClassUpdate)
    requires d.visibility == cls.visibility && d.security == cls.security
    requires d.severity == cls.severity && d.docRef == cls.docRef
    requires u.visibility.Some? ==> VisibilityAction(u.visibility.value).Some?
    ensures ReplayChanges(d, RowChanges(cls, u))
         == Decidable(if u.visibility.Some? then u.visibility.value else d.visibility, u.security, u.severity,
                      u.docRef, d.override)
  {
    hide ReplayChanges;
    var a := VisibilityChange(cls.visibility, u.visibility);
    VisibilityReplay(cls.visibility, d, u.visibility);
    var cb := Change(WriteSecurity(u.security), Security, OnOff(u.security));
    var cc := Change(WriteSeverity(u.severity), Severity, u.severity);
    var cd := Change(WriteDocRef(u.docRef), DocRef, u.docRef);
    var b := a + If(u.security != cls.security, cb);
    var c := b + If(u.severity != cls.severity, cc);
    ReplayIf(d, a, u.security != cls.security, cb);
    ReplayIf(d, b, u.severity != cls.severity, cc);
    ReplayIf(d, c, u.docRef != cls.docRef, cd);
    assert OnOff(false)[1] == 'f' && "on"[1] == 'n';
  }

  lemma NothingReplayed(d: Decidable)
    ensures ReplayChanges(d, []) == d
  {
  }

  lemma VisibilityReplay(current: Visibility, d: Decidable, posted: Option<Visibility>)
    requires d.visibility == current && (posted.Some? ==> VisibilityAction(posted.value).Some?)
    ensures ReplayChanges(d, VisibilityChange(current, posted))
         == d.(visibility := if posted.Some? then posted.value else current)
  {
    hide ReplayChanges;
    NothingReplayed(d);
    if posted.Some? {
      var c := Change(WriteVisibility(posted.value), VisibilityAction(posted.value).value, "");
      ReplayIf(d, [], posted.value != current, c);
      assert [] + If(posted.value != current, c) == If(posted.value != current, c);
    }
  }

  lemma TextChangesReplay(d: Decidable, posted: Wording)
    ensures ReplayChanges(d, TextChanges(d.override, posted)) == d.(override := posted)
  {
    hide ReplayChanges, If;
    var stored := d.override;
    var ca := Change(WriteTitle(posted.title), Title, posted.title);
    var cb := Change(WriteSummary(posted.summary), Summary, posted.summary);
    var cc := Change(WriteSuggestedAction(posted.suggestedAction), SuggestedAction, posted.suggestedAction);
    var a := If(posted.title != stored.title, ca);
    var b := a + If(posted.summary != stored.summary, cb);
    NothingReplayed(d);
    ReplayIf(d, [], posted.title != stored.title, ca);
    assert [] + a == a;
    assert ReplayChanges(d, a) == d.(override := stored.(title := posted.title));
    ReplayIf(d, a, posted.summary != stored.summary, cb);
    assert ReplayChanges(d, b) == d.(override := stored.(title := posted.title, summary := posted.summary));
    ReplayIf(d, b, posted.suggestedAction != stored.suggestedAction, cc);
  }

  lemma {:induction false} DecidedAllReplays(db: Db, key: string, cs: seq<Change>, actor: string, now: int)
    requires key in db.classes && key in db.texts && forall i :: 0 <= i < |cs| ==> Consistent(cs[i])
    ensures var after := DecidedAll(db, key, cs, actor, now);
            && after.classes.Keys == db.classes.Keys && after.texts.Keys == db.texts.Keys
            && Current(after, key) == ReplayChanges(Current(db, key), cs)
            && after.texts[key].seed == db.texts[key].seed
            && (forall k :: k in db.classes && k != key ==> after.classes[k] == db.classes[k])
            && (forall k :: k in db.texts && k != key ==> after.texts[k] == db.texts[k])
  {
    hide Decided, Consistent, Replayed, Current, WritesText;
    if cs != [] {
      var init, c := cs[..|cs| - 1], cs[|cs| - 1];
      DecidedAllReplays(db, key, init, actor, now);
      var mid := DecidedAll(db, key, init, actor, now);
      DecidedIsReplayed(mid, key, c, actor, now);
      DecidedKeepsSeed(mid, key, c, actor, now);
    }
  }

  lemma DecidedKeepsSeed(db: Db, key: string, c: Change, actor: string, now: int)
    requires key in db.texts
    ensures var after := Decided(db, key, c, actor, now);
            key in after.texts && after.texts[key].seed == db.texts[key].seed
  {
  }

  /** What the form asks the class to become. */
  ghost function Posted(db: Db, key: string, u: ClassUpdate): Decidable
    requires key in db.classes
  {
    Decidable(if u.visibility.Some? then u.visibility.value else db.classes[key].visibility,
              u.security, u.severity, u.docRef, PostedOverride(Seeded(db, key).texts[key].seed, u.wording))
  }

  /** An accepted form leaves the class exactly as posted, touches no other class, writes one audit row
      for each change counted, and posting it again changes and records nothing. */
  lemma FormIsApplied(db: Db, key: string, u: ClassUpdate, actor: string, now: int)
    requires UpdateClass(db, key, u, actor, now).1.Ok?
    ensures var (after, r) := UpdateClass(db, key, u, actor, now);
            && key in db.classes && key in after.classes
            && Current(after, key) == Posted(db, key, u)
            && |after.decisions| == |db.decisions| + r.changed
            && (r.changed == 0 ==> after == db)
            && (forall k :: k in db.classes && k != key ==> k in after.classes && after.classes[k] == db.classes[k])
            && (forall k :: k in db.texts && k != key ==> k in after.texts && after.texts[k] == db.texts[k])
            && forall actor', now' :: UpdateClass(after, key, u, actor', now') == (after, Ok(0))
  {
    hide PostedOverride, Changes, DecidedAll, LatestText;
    var (after, r) := UpdateClass(db, key, u, actor, now);
    var seeded := Seeded(db, key);
    var cs := Changes(db.classes[key], seeded.texts[key], u);
    var all := DecidedAll(seeded, key, cs, actor, now);
    ChangesReplay(seeded, key, u, actor, now);
    if cs == [] {
      NothingDecided(seeded, key, actor, now);
      assert all == seeded && Current(db, key) == Current(seeded, key);
      assert forall actor', now' :: UpdateClass(after, key, u, actor', now') == (after, Ok(0));
    } else {
      assert after == all;
      SeenAgain(after, key, u, seeded.texts[key].seed);
    }
  }

  lemma NothingDecided(db: Db, key: string, actor: string, now: int)
    ensures DecidedAll(db, key, [], actor, now) == db
  {
  }

  /** The changes computed for a form, once made, leave the class as posted. */
  lemma ChangesReplay(seeded: Db, key: string, u: ClassUpdate, actor: string, now: int)
    requires key in seeded.classes && key in seeded.texts
    requires u.visibility.Some? ==> VisibilityAction(u.visibility.value).Some?
    ensures var cs := Changes(seeded.classes[key], seeded.texts[key], u);
            var after := DecidedAll(seeded, key, cs, actor, now);
            && after.classes.Keys == seeded.classes.Keys && after.texts.Keys == seeded.texts.Keys
            && after.texts[key].seed == seeded.texts[key].seed
            && Current(after, key) == Decidable(
                 if u.visibility.Some? then u.visibility.value else seeded.classes[key].visibility,
                 u.security, u.severity, u.docRef, PostedOverride(seeded.texts[key].seed, u.wording))
            && |after.decisions| == |seeded.decisions| + |cs|
            && (forall k :: k in seeded.classes && k != key ==> after.classes[k] == seeded.classes[k])
            && (forall k :: k in seeded.texts && k != key ==> after.texts[k] == seeded.texts[k])
  {
    hide ReplayChanges, DecidedAll, RowChanges, TextChanges, Consistent, PostedOverride;
    var cls, text := seeded.classes[key], seeded.texts[key];
    var posted := PostedOverride(text.seed, u.wording);
    ChangesAreConsistent(cls, text, u);
    DecidedAllReplays(seeded, key, Changes(cls, text, u), actor, now);
    DecidedAllAppends(seeded, key, Changes(cls, text, u), actor, now);
    RowChangesReplay(cls, Current(seeded, key), u);
    ReplayChangesConcat(Current(seeded, key), RowChanges(cls, u), TextChanges(text.override, posted));
    TextChangesReplay(ReplayChanges(Current(seeded, key), RowChanges(cls, u)), posted);
  }

  /** A class already as posted differs from the form in nothing. */
  lemma SeenAgain(db: Db, key: string, u: ClassUpdate, seed: Wording)
    requires key in db.classes && key in db.texts && db.texts[key].seed == seed
    requires u.visibility.Some? ==> VisibilityAction(u.visibility.value).Some?
    requires u.severity != "" ==> ValidSeverity(u.severity)
    requires var visibility := if u.visibility.Some? then u.visibility.value else db.classes[key].visibility;
             Current(db, key)
             == Decidable(visibility, u.security, u.severity, u.docRef, PostedOverride(seed, u.wording))
    ensures forall actor, now :: UpdateClass(db, key, u, actor, now) == (db, Ok(0))
  {
    hide PostedOverride;
    assert db.texts[key].override == PostedOverride(seed, u.wording);
    assert RowChanges(db.classes[key], u) == [];
    assert TextChanges(db.texts[key].override, PostedOverride(seed, u.wording)) == [];
  }

  // ----- a form that changes nothing records nothing -----

  /** Every stored override is normal, and every stored severity is one the form accepts. */
  ghost predicate NormalRows(db: Db) {
    && (forall k :: k in db.texts ==> NormalText(db.texts[k]))
    && (forall k :: k in db.classes ==> db.classes[k].severity == "" || ValidSeverity(db.classes[k].severity))
  }

  lemma {:induction false} VisibleAllKeepsNormal(db: Db, keys: seq<string>, v: Visibility, action: Action,
                                                 detail: string, actor: string, now: int)
    requires NormalRows(db)
    ensures NormalRows(VisibleAll(db, keys, v, action, detail, actor, now))
  {
    if keys != [] { VisibleAllKeepsNormal(db, keys[..|keys| - 1], v, action, detail, actor, now); }
  }

  lemma {:induction false} RefreshKeepsNormal(canon: Canon, db: Db, hits: seq<FindingKey>, ts: seq<Template>, now: int)
    requires NormalRows(db)
    ensures NormalRows(RefreshAll(canon, db, hits, ts, now))
  {
    if hits != [] {
      RefreshKeepsNormal(canon, db, hits[..|hits| - 1], ts, now);
      RefreshOneKeepsNormal(canon, RefreshAll(canon, db, hits[..|hits| - 1], ts, now), hits[|hits| - 1], ts, now);
      hide NormalRows, RefreshOne;
    }
  }

  lemma RefreshOneKeepsNormal(canon: Canon, db: Db, k: FindingKey, ts: seq<Template>, now: int)
    requires NormalRows(db)
    ensures NormalRows(RefreshOne(canon, db, k, ts, now))
  {
    hide RefreshedFinding, ValidSeverity;
    assert k in db.findings ==> NormalText(TextRow(db.findings[k].text, NO_WORDING));
    hide NormalText;
  }

  lemma UpdateKeepsNormal(db: Db, key: string, u: ClassUpdate, actor: string, now: int)
    requires NormalRows(db)
    ensures NormalRows(UpdateClass(db, key, u, actor, now).0)
  {
    hide PostedOverride, Changes, DecidedAll, NormalText, ValidSeverity;
    var (after, r) := UpdateClass(db, key, u, actor, now);
    if r.Ok? && r.changed > 0 {
      var seeded := Seeded(db, key);
      ChangesReplay(seeded, key, u, actor, now);
      var text := after.texts[key];
      assert text.override == PostedOverride(text.seed, u.wording);
      PostedIsNormal(text, u.wording);
      assert forall k :: k in after.texts && k != key ==> k in db.texts && after.texts[k] == db.texts[k];
      assert after.classes[key].severity == u.severity;
    }
  }

  lemma PostedIsNormal(t: TextRow, posted: Wording)
    requires t.override == PostedOverride(t.seed, posted)
    ensures NormalText(t)
  {
    OverrideIsNormal(posted.title, t.seed.title);
    OverrideIsNormal(posted.summary, t.seed.summary);
    OverrideIsNormal(posted.suggestedAction, t.seed.suggestedAction);
  }

  lemma DecidedKeepsNormal(db: Db, key: string, c: Change, actor: string, now: int)
    requires NormalRows(db) && !WritesText(c.write)
    requires c.write.WriteSeverity? ==> c.write.severity == "" || ValidSeverity(c.write.severity)
    ensures NormalRows(Decided(db, key, c, actor, now))
  {
  }

  lemma StepKeepsNormal(canon: Canon, db: Db, op: Op)
    requires NormalRows(db)
    ensures NormalRows(Apply(canon, db, op))
  {
    hide NormalText, ValidSeverity;
    match op
    case OpVisibility(key, v, actor, now) =>
      if VisibilityAction(v).Some? {
        DecidedKeepsNormal(db, key, Change(WriteVisibility(v), VisibilityAction(v).value, ""), actor, now);
      }
    case OpSecurity(key, on, actor, now) =>
      DecidedKeepsNormal(db, key, Change(WriteSecurity(on), Security, OnOff(on)), actor, now);
    case OpSeverity(key, s, actor, now) =>
      if s == "" || ValidSeverity(s) { DecidedKeepsNormal(db, key, Change(WriteSeverity(s), Severity, s), actor, now); }
    case OpDocRef(key, d, actor, now) => DecidedKeepsNormal(db, key, Change(WriteDocRef(d), DocRef, d), actor, now);
    case OpUpdate(key, u, actor, now) => UpdateKeepsNormal(db, key, u, actor, now);
    case OpVisibleAll(keys, v, detail, actor, now) =>
      if VisibilityAction(v).Some? {
        VisibleAllKeepsNormal(db, keys, v, VisibilityAction(v).value, detail, actor, now);
      }
    case OpRefresh(_, ts, hits, now) => RefreshKeepsNormal(canon, db, hits, ts, now);
    case OpUpsert(r, now) => UpsertKeepsNormal(db, r, now);
    case _ =>
  }

  lemma UpsertKeepsNormal(db: Db, r: Report, now: int)
    requires NormalRows(db)
    ensures NormalRows(UpsertFinding(db, r, now))
  {
    assert NormalText(TextRow(r.text, NO_WORDING));
  }

  lemma {:induction false} RowsStayNormal(canon: Canon, ops: seq<Op>)
    ensures NormalRows(Run(canon, ops))
  {
    if ops != [] {
      RowsStayNormal(canon, ops[..|ops| - 1]);
      StepKeepsNormal(canon, Run(canon, ops[..|ops| - 1]), ops[|ops| - 1]);
    }
  }

  /** The form as the page shows it. */
  ghost function ShownForm(db: Db, key: string): ClassUpdate
    requires key in db.classes
  {
    var c := db.classes[key];
    ClassUpdate(if c.visibility == Pending then None else Some(c.visibility), c.security, c.severity, c.docRef,
                CustomerText(Seeded(db, key).texts[key]))
  }

  lemma ShownFormIsUnchanged(db: Db, key: string)
    requires key in db.classes && NormalText(Seeded(db, key).texts[key])
    ensures Changes(db.classes[key], Seeded(db, key).texts[key], ShownForm(db, key)) == []
  {
    ShownTextIsUnchanged(Seeded(db, key).texts[key]);
    hide NormalText, PostedOverride, CustomerText, LatestText;
  }

  /** After any run, posting the form exactly as it is shown changes and records nothing, not even a seed. */
  lemma UnchangedFormRecordsNothing(canon: Canon, ops: seq<Op>, key: string, actor: string, now: int)
    requires key in Run(canon, ops).classes
    ensures var db := Run(canon, ops); UpdateClass(db, key, ShownForm(db, key), actor, now) == (db, Ok(0))
  {
    RowsStayNormal(canon, ops);
    var db := Run(canon, ops);
    SeedIsNormal(db, key);
    ShownFormIsUnchanged(db, key);
    hide Changes, Seeded, CustomerText, Run;
  }

  lemma SeedIsNormal(db: Db, key: string)
    requires NormalRows(db)
    ensures NormalText(Seeded(db, key).texts[key])
  {
  }
}
