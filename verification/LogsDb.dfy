/** The findings and review tables, and the effect of every statement that writes them. */
module LogsDb {
  import opened Model
  import opened Sets
  import opened Sorting
  import Nodes

  // ----- rows -----

  datatype Status = Open | Stale

  /** Customer-facing prose. */
  datatype Wording = Wording(title: string, summary: string, suggestedAction: string)

  const NO_WORDING := Wording("", "", "")

  datatype FindingKey = FindingKey(systemId: string, fingerprint: string)

  datatype Finding = Finding(id: string, severity: string, text: Wording, modules: seq<string>, evidence: seq<string>,
                             status: Status, occurrences: int, firstSeen: int, lastSeen: int,
                             reopenedAt: Option<int>, nodes: seq<int>, classKey: string)

  datatype Visibility = Pending | Customer | Operator | Dismissed

  datatype ClassRow = ClassRow(visibility: Visibility, security: bool, severity: string, docRef: string,
                               promptVersion: string, firstSeen: int, lastSeen: int)

  datatype TextRow = TextRow(seed: Wording, override: Wording)

  datatype Action = Deliver | Internal | Dismiss | Security | Severity | DocRef | Title | Summary | SuggestedAction

  datatype Decision = Decision(key: string, actor: string, action: Action, detail: string,
                               promptVersion: string, createdAt: int)

  datatype Db = Db(findings: map<FindingKey, Finding>, classes: map<string, ClassRow>, texts: map<string, TextRow>,
                   decisions: seq<Decision>, groups: map<string, string>)

  const EMPTY := Db(map[], map[], map[], [], map[])

  datatype Error = UnknownClass | InvalidSeverity | InvalidVisibility

  datatype Result = Ok(changed: nat) | Err(error: Error)

  predicate ValidSeverity(s: string) { s == "critical" || s == "high" || s == "medium" || s == "low" }

  // ----- single decisions -----

  /** Only these three can be decided; nothing goes back to pending. */
  function VisibilityAction(v: Visibility): Option<Action> {
    match v
    case Pending => None
    case Customer => Some(Deliver)
    case Operator => Some(Internal)
    case Dismissed => Some(Dismiss)
  }

  /** One column written by a decision. */
  datatype Write = WriteVisibility(v: Visibility) | WriteSecurity(on: bool) | WriteSeverity(severity: string)
                 | WriteDocRef(docRef: string) | WriteTitle(title: string) | WriteSummary(summary: string)
                 | WriteSuggestedAction(action: string)

  datatype Change = Change(write: Write, action: Action, detail: string)

  /** UPDATE ... SET column = value WHERE class_key = key: a missing row is not created. */
  function Written(db: Db, key: string, w: Write): Db {
    match w
    case WriteVisibility(v) =>
      if key in db.classes then db.(classes := db.classes[key := db.classes[key].(visibility := v)]) else db
    case WriteSecurity(on) =>
      if key in db.classes then db.(classes := db.classes[key := db.classes[key].(security := on)]) else db
    case WriteSeverity(s) =>
      if key in db.classes then db.(classes := db.classes[key := db.classes[key].(severity := s)]) else db
    case WriteDocRef(s) =>
      if key in db.classes then db.(classes := db.classes[key := db.classes[key].(docRef := s)]) else db
    case WriteTitle(s) => Overridden(db, key, Override(db, key).(title := s))
    case WriteSummary(s) => Overridden(db, key, Override(db, key).(summary := s))
    case WriteSuggestedAction(s) => Overridden(db, key, Override(db, key).(suggestedAction := s))
  }

  function Override(db: Db, key: string): Wording { if key in db.texts then db.texts[key].override else NO_WORDING }

  function Overridden(db: Db, key: string, o: Wording): Db {
    if key in db.texts then db.(texts := db.texts[key := db.texts[key].(override := o)]) else db
  }

  /** Write the column, append the audit row. */
  function Decided(db: Db, key: string, c: Change, actor: string, now: int): Db {
    var pv := if key in db.classes then db.classes[key].promptVersion else "";
    var after := Written(db, key, c.write);
    after.(decisions := after.decisions + [Decision(key, actor, c.action, c.detail, pv, now)])
  }

  function DecideOne(db: Db, key: string, c: Change, actor: string, now: int): (Db, Result) {
    if key !in db.classes then (db, Err(UnknownClass)) else (Decided(db, key, c, actor, now), Ok(1))
  }

  function OnOff(on: bool): string { if on then "on" else "off" }

  function SetClassVisibility(db: Db, key: string, v: Visibility, actor: string, now: int): (Db, Result) {
    match VisibilityAction(v)
    case None => (db, Err(InvalidVisibility))
    case Some(action) => DecideOne(db, key, Change(WriteVisibility(v), action, ""), actor, now)
  }

  function SetClassSecurity(db: Db, key: string, on: bool, actor: string, now: int): (Db, Result) {
    DecideOne(db, key, Change(WriteSecurity(on), Security, OnOff(on)), actor, now)
  }

  function SetClassSeverity(db: Db, key: string, severity: string, actor: string, now: int): (Db, Result) {
    if severity != "" && !ValidSeverity(severity) then (db, Err(InvalidSeverity))
    else DecideOne(db, key, Change(WriteSeverity(severity), Severity, severity), actor, now)
  }

  function SetClassDocRef(db: Db, key: string, docRef: string, actor: string, now: int): (Db, Result) {
    DecideOne(db, key, Change(WriteDocRef(docRef), DocRef, docRef), actor, now)
  }

  // ----- the review form -----

  /** visibility None leaves it as it is. */
  datatype ClassUpdate = ClassUpdate(visibility: Option<Visibility>, security: bool, severity: string,
                                     docRef: string, wording: Wording)

  /** The override a posted field stores: none when, trimmed, it is empty or the seed itself. */
  function WordingOverride(posted: string, seed: string): string {
    if TrimSpace(posted) == TrimSpace(seed) then "" else TrimSpace(posted)
  }

  /** The class's latest retained finding: the greatest last_seen, the least id among those. */
  ghost predicate IsLatest(db: Db, key: string, k: FindingKey) {
    && k in db.findings && db.findings[k].classKey == key
    && forall j :: j in db.findings && db.findings[j].classKey == key ==>
         || db.findings[j].lastSeen < db.findings[k].lastSeen
         || (db.findings[j].lastSeen == db.findings[k].lastSeen && !StringLess(db.findings[j].id, db.findings[k].id))
  }

  ghost function LatestText(db: Db, key: string): Wording {
    if k :| IsLatest(db, key, k) then db.findings[k].text else NO_WORDING
  }

  /** First writer wins: an existing row is never touched. */
  ghost function Seeded(db: Db, key: string): Db {
    if key in db.texts then db else db.(texts := db.texts[key := TextRow(LatestText(db, key), NO_WORDING)])
  }

  function If(b: bool, c: Change): seq<Change> { if b then [c] else [] }

  function VisibilityChange(current: Visibility, posted: Option<Visibility>): seq<Change> {
    if posted.None? || VisibilityAction(posted.value).None? then []
    else If(posted.value != current, Change(WriteVisibility(posted.value), VisibilityAction(posted.value).value, ""))
  }

  function RowChanges(cls: ClassRow, u: ClassUpdate): seq<Change> {
    VisibilityChange(cls.visibility, u.visibility)
    + If(u.security != cls.security, Change(WriteSecurity(u.security), Security, OnOff(u.security)))
    + If(u.severity != cls.severity, Change(WriteSeverity(u.severity), Severity, u.severity))
    + If(u.docRef != cls.docRef, Change(WriteDocRef(u.docRef), DocRef, u.docRef))
  }

  /** The overrides the posted wording asks for, field by field. */
  function PostedOverride(seed: Wording, posted: Wording): Wording {
    Wording(WordingOverride(posted.title, seed.title), WordingOverride(posted.summary, seed.summary),
            WordingOverride(posted.suggestedAction, seed.suggestedAction))
  }

  function TextChanges(stored: Wording, posted: Wording): seq<Change> {
    If(posted.title != stored.title, Change(WriteTitle(posted.title), Title, posted.title))
    + If(posted.summary != stored.summary, Change(WriteSummary(posted.summary), Summary, posted.summary))
    + If(posted.suggestedAction != stored.suggestedAction,
         Change(WriteSuggestedAction(posted.suggestedAction), SuggestedAction, posted.suggestedAction))
  }

  /** The fields of the form that differ from the stored rows, in the fixed order. */
  function Changes(cls: ClassRow, text: TextRow, u: ClassUpdate): seq<Change> {
    RowChanges(cls, u) + TextChanges(text.override, PostedOverride(text.seed, u.wording))
  }

  function DecidedAll(db: Db, key: string, cs: seq<Change>, actor: string, now: int): Db {
    if cs == [] then db
    else Decided(DecidedAll(db, key, cs[..|cs| - 1], actor, now), key, cs[|cs| - 1], actor, now)
  }

  /** With nothing changed the transaction is rolled back, seed included. */
  ghost function UpdateClass(db: Db, key: string, u: ClassUpdate, actor: string, now: int): (Db, Result) {
    if u.visibility.Some? && VisibilityAction(u.visibility.value).None? then (db, Err(InvalidVisibility))
    else if u.severity != "" && !ValidSeverity(u.severity) then (db, Err(InvalidSeverity))
    else if key !in db.classes then (db, Err(UnknownClass))
    else
      var seeded := Seeded(db, key);
      var cs := Changes(db.classes[key], seeded.texts[key], u);
      if cs == [] then (db, Ok(0)) else (DecidedAll(seeded, key, cs, actor, now), Ok(|cs|))
  }

  // ----- group and bulk decisions -----

  ghost predicate Enumerates(keys: seq<string>, s: set<string>) {
    StrictlySorted(keys, StringLess) && forall k :: k in keys <==> k in s
  }

  function VisibleAll(db: Db, keys: seq<string>, v: Visibility, action: Action, detail: string, actor: string,
                      now: int): Db {
    if keys == [] then db
    else Decided(VisibleAll(db, keys[..|keys| - 1], v, action, detail, actor, now),
                 keys[|keys| - 1], Change(WriteVisibility(v), action, detail), actor, now)
  }

  /** The listed members of the group that are still pending. */
  function PendingGroupClasses(db: Db, anchor: string, members: seq<string>): set<string> {
    set k | k in members && k in db.groups && db.groups[k] == anchor
            && k in db.classes && db.classes[k].visibility == Pending
  }

  /** The listed classes that exist and are not already at v. */
  function ChangingClasses(db: Db, keys: seq<string>, v: Visibility): set<string> {
    set k | k in keys && k in db.classes && db.classes[k].visibility != v
  }

  predicate HasGroup(db: Db, anchor: string) { exists k :: k in db.groups && db.groups[k] == anchor }

  // ----- findings -----

  /** What the analyzer hands to UpsertFinding. */
  datatype Report = Report(key: FindingKey, id: string, severity: string, text: Wording, modules: seq<string>,
                           evidence: seq<string>, nodes: seq<int>, classKey: string, security: bool,
                           promptVersion: string)

  ghost function UpsertedFinding(db: Db, r: Report, now: int): Finding {
    if r.key !in db.findings
    then Finding(r.id, r.severity, r.text, r.modules, r.evidence, Open, 1, now, now, None,
                 Nodes.Capped(Nodes.Valid(r.nodes)), r.classKey)
    else
      var f := db.findings[r.key];
      f.(severity := r.severity, text := r.text, modules := r.modules, evidence := r.evidence, status := Open,
         occurrences := f.occurrences + (if f.lastSeen >= now then 0 else 1), lastSeen := now,
         reopenedAt := if f.status != Open then Some(now) else f.reopenedAt,
         nodes := Nodes.Capped(Nodes.Valid(r.nodes)), classKey := r.classKey)
  }

  /** A class row is created pending, tagged as the edge classified it; later sightings move only last_seen. */
  function SightedClass(classes: map<string, ClassRow>, key: string, security: bool, promptVersion: string,
                        now: int): ClassRow {
    if key in classes then classes[key].(lastSeen := MaxInt(classes[key].lastSeen, now))
    else ClassRow(Pending, security, "", "", promptVersion, now, now)
  }

  ghost function UpsertFinding(db: Db, r: Report, now: int): Db {
    var after := db.(findings := db.findings[r.key := UpsertedFinding(db, r, now)]);
    if r.classKey == "" then after
    else
      var row := SightedClass(db.classes, r.classKey, r.security, r.promptVersion, now);
      after.(classes := db.classes[r.classKey := row], texts := SeededWith(db.texts, r.classKey, r.text))
  }

  /** First writer wins. */
  function SeededWith(texts: map<string, TextRow>, key: string, seed: Wording): map<string, TextRow> {
    if key in texts then texts else texts[key := TextRow(seed, NO_WORDING)]
  }

  /** The canonical keys a finding's evidence may appear under: each line under each module. */
  function EvidenceKeys(canon: Canon, f: Finding): set<string> {
    set m, e | m in f.modules && e in f.evidence :: CanonicalKey(canon, m, e)
  }

  predicate SeenIn(canon: Canon, f: Finding, ts: seq<Template>) {
    exists t :: t in ts && KeyOf(canon, t) in EvidenceKeys(canon, f)
  }

  /** The node ids the window's matching lines came from. */
  function NodesSeen(canon: Canon, f: Finding, ts: seq<Template>): set<int> {
    set t, id | t in ts && KeyOf(canon, t) in EvidenceKeys(canon, f) && id in t.nodes && id >= 1 :: id
  }

  ghost function RefreshedFinding(canon: Canon, f: Finding, ts: seq<Template>, now: int): Finding {
    var ids := NodesSeen(canon, f, ts);
    f.(occurrences := f.occurrences + (if f.lastSeen >= now then 0 else 1),
       lastSeen := MaxInt(f.lastSeen, now),
       reopenedAt := if f.status != Open then Some(now) else f.reopenedAt,
       status := Open,
       nodes := if ids != {} then Nodes.Capped(ids) else f.nodes)
  }

  function Resighted(classes: map<string, ClassRow>, key: string, now: int): map<string, ClassRow> {
    if key in classes && classes[key].lastSeen < now then classes[key := classes[key].(lastSeen := now)] else classes
  }

  ghost function RefreshOne(canon: Canon, db: Db, k: FindingKey, ts: seq<Template>, now: int): Db {
    if k !in db.findings then db
    else
      var f := db.findings[k];
      var after := db.(findings := db.findings[k := RefreshedFinding(canon, f, ts, now)]);
      if f.classKey == "" then after
      else
        after.(classes := Resighted(db.classes, f.classKey, now), texts := SeededWith(db.texts, f.classKey, f.text))
  }

  /** The findings of the system with an evidence line among ts. */
  function Hits(canon: Canon, db: Db, systemId: string, ts: seq<Template>): set<FindingKey> {
    set k | k in db.findings && k.systemId == systemId && SeenIn(canon, db.findings[k], ts)
  }

  ghost predicate EnumeratesFindings(hits: seq<FindingKey>, s: set<FindingKey>) {
    Distinct(hits) && forall k :: k in hits <==> k in s
  }

  /** The rows of one refresh, in whatever order the query returned them. */
  ghost function RefreshAll(canon: Canon, db: Db, hits: seq<FindingKey>, ts: seq<Template>, now: int): Db {
    if hits == [] then db
    else RefreshOne(canon, RefreshAll(canon, db, hits[..|hits| - 1], ts, now), hits[|hits| - 1], ts, now)
  }

  function MarkStale(db: Db, systemId: string, olderThan: int): Db {
    db.(findings := map k | k in db.findings ::
      if k.systemId == systemId && db.findings[k].status == Open && db.findings[k].lastSeen < olderThan
      then db.findings[k].(status := Stale) else db.findings[k])
  }

  // ----- the customer read -----

  /** The join of ListFindings: only a class an operator delivered. */
  predicate Listed(db: Db, k: FindingKey) {
    && k in db.findings && db.findings[k].classKey in db.classes
    && db.classes[db.findings[k].classKey].visibility == Customer
  }

  // ----- pruning -----

  predicate FindingPrunable(db: Db, k: FindingKey, olderThan: int) {
    k in db.findings && db.findings[k].status != Open && db.findings[k].lastSeen < olderThan
  }

  predicate ClassDecided(db: Db, key: string) { exists i :: 0 <= i < |db.decisions| && db.decisions[i].key == key }

  predicate ClassNamed(db: Db, key: string) { exists k :: k in db.findings && db.findings[k].classKey == key }

  predicate ClassPrunable(db: Db, key: string, olderThan: int) {
    key in db.classes && db.classes[key].lastSeen < olderThan && !ClassDecided(db, key) && !ClassNamed(db, key)
  }

  function PrunableFindings(db: Db, olderThan: int): set<FindingKey> {
    set k | k in db.findings && FindingPrunable(db, k, olderThan)
  }

  function PrunableClasses(db: Db, olderThan: int): set<string> {
    set k | k in db.classes && ClassPrunable(db, k, olderThan)
  }

  // ----- one write of any kind -----

  datatype Op =
    | OpVisibility(key: string, v: Visibility, actor: string, now: int)
    | OpSecurity(key: string, on: bool, actor: string, now: int)
    | OpSeverity(key: string, severity: string, actor: string, now: int)
    | OpDocRef(key: string, docRef: string, actor: string, now: int)
    | OpUpdate(key: string, u: ClassUpdate, actor: string, now: int)
    | OpVisibleAll(keys: seq<string>, v: Visibility, detail: string, actor: string, now: int)  // group and bulk
    | OpUpsert(r: Report, now: int)
    | OpRefresh(systemId: string, ts: seq<Template>, hits: seq<FindingKey>, now: int)
    | OpMarkStale(systemId: string, olderThan: int)
    | OpPruneFindings(victims: set<FindingKey>, olderThan: int)  // one batch
    | OpPruneClasses(dead: set<string>, olderThan: int)          // one batch
    | OpPruneTexts(dead: set<string>)
    | OpSetGroup(key: string, anchor: string)
    | OpPruneGroups(dead: set<string>)

  /** What each statement's own WHERE clause guarantees of the rows it touches. */
  ghost predicate Enabled(canon: Canon, db: Db, op: Op) {
    match op
    case OpVisibleAll(keys, v, _, _, _) =>
      VisibilityAction(v).Some? && StrictlySorted(keys, StringLess) && forall k :: k in keys ==> k in db.classes
    case OpRefresh(s, ts, hits, _) => EnumeratesFindings(hits, Hits(canon, db, s, ts))
    case OpPruneFindings(victims, o) => forall k :: k in victims ==> FindingPrunable(db, k, o)
    case OpPruneClasses(dead, o) => forall k :: k in dead ==> ClassPrunable(db, k, o)
    case OpPruneTexts(dead) => forall k :: k in dead ==> k !in db.classes
    case _ => true
  }

  ghost function Apply(canon: Canon, db: Db, op: Op): Db {
    match op
    case OpVisibility(key, v, actor, now) => SetClassVisibility(db, key, v, actor, now).0
    case OpSecurity(key, on, actor, now) => SetClassSecurity(db, key, on, actor, now).0
    case OpSeverity(key, s, actor, now) => SetClassSeverity(db, key, s, actor, now).0
    case OpDocRef(key, d, actor, now) => SetClassDocRef(db, key, d, actor, now).0
    case OpUpdate(key, u, actor, now) => UpdateClass(db, key, u, actor, now).0
    case OpVisibleAll(keys, v, detail, actor, now) =>
      var a := VisibilityAction(v);
      if a.None? then db else VisibleAll(db, keys, v, a.value, detail, actor, now)
    case OpUpsert(r, now) => UpsertFinding(db, r, now)
    case OpRefresh(_, ts, hits, now) => RefreshAll(canon, db, hits, ts, now)
    case OpMarkStale(s, o) => MarkStale(db, s, o)
    case OpPruneFindings(victims, _) => db.(findings := db.findings - victims)
    case OpPruneClasses(dead, _) => db.(classes := db.classes - dead)
    case OpPruneTexts(dead) => db.(texts := db.texts - dead)
    case OpSetGroup(key, anchor) => db.(groups := db.groups[key := anchor])
    case OpPruneGroups(dead) => db.(groups := db.groups - dead)
  }

  ghost predicate IsRun(canon: Canon, ops: seq<Op>) {
    ops == [] || (IsRun(canon, ops[..|ops| - 1]) && Enabled(canon, Run(canon, ops[..|ops| - 1]), ops[|ops| - 1]))
  }

  ghost function Run(canon: Canon, ops: seq<Op>): Db {
    if ops == [] then EMPTY else Apply(canon, Run(canon, ops[..|ops| - 1]), ops[|ops| - 1])
  }
}
