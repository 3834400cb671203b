/** The analyses ledger and the per-system template memory: the effect of every statement that writes them,
    and what the gate is told it has seen. */
module Ledger {
  import opened Model
  import Gate
  import Queue
  import opened Sets

  type Window = Queue.Window

  datatype Usage = Usage(input: int, output: int, cached: int, costMicros: int, model: string)

  const NO_USAGE := Usage(0, 0, 0, 0, "")

  /** One row per window. Only a finalized row is completed. */
  datatype Analysis = Analysis(windowEnd: int, createdAt: int, completed: bool, gated: bool, reasons: seq<string>,
                               llmCalled: bool, usage: Usage, error: string, suppressedBy: string)

  /** What FinalizeAnalysis is handed. */
  datatype Outcome = Outcome(gated: bool, reasons: seq<string>, llmCalled: bool, usage: Usage, error: string,
                             suppressedBy: string)

  /** The unique columns of a template row. key already went through the canonicalizer. */
  datatype TemplateKey = TemplateKey(systemId: string, family: string, key: string)

  datatype TemplateRow = TemplateRow(text: string, priority: int, category: string, firstSeen: int, lastSeen: int,
                                     total: int)

  type Templates = map<TemplateKey, TemplateRow>

  datatype Tables = Tables(analyses: map<Window, Analysis>, templates: Templates)

  const EMPTY := Tables(map[], map[])

  // ----- the claim protocol -----

  /** A window is claimable unless a completed analysis exists for it. */
  predicate Claimable(t: Tables, w: Window) { w in t.analyses ==> !t.analyses[w].completed }

  /** Insert the row, or take over an uncompleted one, whose earlier attempt stays readable. */
  function Begun(t: Tables, w: Window, end: int, now: int): Tables
    requires Claimable(t, w)
  {
    var row := if w in t.analyses then t.analyses[w].(windowEnd := end, createdAt := now)
               else Analysis(end, now, false, false, [], false, NO_USAGE, "", "");
    t.(analyses := t.analyses[w := row])
  }

  function Noted(t: Tables, w: Window, reasons: seq<string>, msg: string): Tables {
    if w !in t.analyses then t
    else t.(analyses := t.analyses[w := t.analyses[w].(reasons := reasons, llmCalled := true, error := msg)])
  }

  /** An UPDATE: a row pruned meanwhile is not brought back. */
  function Finalized(t: Tables, w: Window, o: Outcome): Tables {
    if w !in t.analyses then t
    else
      var row := t.analyses[w].(completed := true, gated := o.gated, reasons := o.reasons, llmCalled := o.llmCalled,
                                usage := o.usage, error := o.error, suppressedBy := o.suppressedBy);
      t.(analyses := t.analyses[w := row])
  }

  // ----- the template memory -----

  function RowKey(canon: Canon, systemId: string, t: Template): TemplateKey {
    TemplateKey(systemId, ModuleFamily(t.moduleId), canon(ModuleFamily(t.moduleId), t.text))
  }

  function OrNow(time: int, now: int): int { if time == 0 then now else time }

  /** first_seen is kept, last_seen never moves backwards, counts add up. */
  function UpsertedRow(templates: Templates, k: TemplateKey, t: Template, now: int): TemplateRow {
    if k in templates
    then TemplateRow(t.text, t.priority, t.category, templates[k].firstSeen,
                     MaxInt(templates[k].lastSeen, OrNow(t.lastSeen, now)), templates[k].total + t.count)
    else TemplateRow(t.text, t.priority, t.category, OrNow(t.firstSeen, now), OrNow(t.lastSeen, now), t.count)
  }

  function Upserted(canon: Canon, templates: Templates, systemId: string, t: Template, now: int): Templates {
    var k := RowKey(canon, systemId, t);
    templates[k := UpsertedRow(templates, k, t, now)]
  }

  function UpsertedAll(canon: Canon, templates: Templates, systemId: string, ts: seq<Template>, now: int): Templates {
    if ts == [] then templates
    else Upserted(canon, UpsertedAll(canon, templates, systemId, ts[..|ts| - 1], now), systemId, ts[|ts| - 1], now)
  }

  /** KnownTemplates runs the stored columns through CanonicalKey again. */
  function KnownKey(canon: Canon, k: TemplateKey): string { CanonicalKey(canon, k.family, k.key) }

  predicate Tells(canon: Canon, templates: Templates, systemId: string, k: TemplateKey, key: string) {
    k in templates && k.systemId == systemId && KnownKey(canon, k) == key && templates[k].lastSeen > 0
  }

  function Times(canon: Canon, templates: Templates, systemId: string, key: string): set<int> {
    set k | k in templates && Tells(canon, templates, systemId, k, key) :: templates[k].lastSeen
  }

  function KnownKeys(canon: Canon, templates: Templates, systemId: string): set<string> {
    set k | k in templates && k.systemId == systemId && templates[k].lastSeen > 0 :: KnownKey(canon, k)
  }

  lemma KnownHasTime(canon: Canon, templates: Templates, systemId: string, key: string)
    ensures key in KnownKeys(canon, templates, systemId) <==> Times(canon, templates, systemId, key) != {}
  {
    if key in KnownKeys(canon, templates, systemId) {
      var k :| k in templates && k.systemId == systemId && templates[k].lastSeen > 0 && KnownKey(canon, k) == key;
      assert templates[k].lastSeen in Times(canon, templates, systemId, key);
    }
  }

  /** What the gate is told: every key of the system's rows, with the latest time any of them was seen. */
  ghost function Known(canon: Canon, templates: Templates, systemId: string): map<string, int> {
    map key | key in KnownKeys(canon, templates, systemId) ::
      KnownHasTime(canon, templates, systemId, key); Greatest(Times(canon, templates, systemId, key))
  }

  /** The latest time told for key, 0 when it is not known. */
  ghost function Since(known: map<string, int>, key: string): int { if key in known then known[key] else 0 }

  lemma KnownIsGreatest(canon: Canon, templates: Templates, systemId: string, key: string)
    ensures var n := Since(Known(canon, templates, systemId), key);
            if key in Known(canon, templates, systemId)
            then n > 0 && IsGreatest(n, Times(canon, templates, systemId, key))
            else Times(canon, templates, systemId, key) == {}
  {
    KnownHasTime(canon, templates, systemId, key);
  }

  /** The map with one more row read: the row counts only if it is the system's and later than what was told. */
  ghost function Told(known: map<string, int>, mine: bool, key: string, lastSeen: int): map<string, int> {
    if mine && lastSeen > Since(known, key) then known[key := lastSeen] else known
  }

  lemma KnownWithRow(canon: Canon, templates: Templates, k: TemplateKey, row: TemplateRow, systemId: string)
    requires k !in templates
    ensures Known(canon, templates[k := row], systemId)
         == Told(Known(canon, templates, systemId), k.systemId == systemId, KnownKey(canon, k), row.lastSeen)
  {
    hide Known, Told;
    var known, after := Known(canon, templates, systemId), Known(canon, templates[k := row], systemId);
    var expected := Told(known, k.systemId == systemId, KnownKey(canon, k), row.lastSeen);
    forall x ensures x in after <==> x in expected
             ensures x in after && x in expected ==> after[x] == expected[x] {
      KnownWithRowAt(canon, templates, k, row, systemId, x);
    }
  }

  lemma KnownWithRowAt(canon: Canon, templates: Templates, k: TemplateKey, row: TemplateRow, systemId: string,
                       x: string)
    requires k !in templates
    ensures var after := Known(canon, templates[k := row], systemId);
            var expected := Told(Known(canon, templates, systemId), k.systemId == systemId, KnownKey(canon, k),
                                 row.lastSeen);
            (x in after <==> x in expected) && (x in after && x in expected ==> after[x] == expected[x])
  {
    hide Known, Times;
    TimesWithRow(canon, templates, k, row, systemId, x);
    KnownIsGreatest(canon, templates, systemId, x);
    KnownIsGreatest(canon, templates[k := row], systemId, x);
  }

  lemma TimesWithRow(canon: Canon, templates: Templates, k: TemplateKey, row: TemplateRow, systemId: string, x: string)
    requires k !in templates
    ensures Times(canon, templates[k := row], systemId, x)
         == Times(canon, templates, systemId, x)
            + (if k.systemId == systemId && KnownKey(canon, k) == x && row.lastSeen > 0 then {row.lastSeen} else {})
  {
    var after := templates[k := row];
    forall n | n in Times(canon, templates, systemId, x) ensures n in Times(canon, after, systemId, x) {
      var j :| j in templates && Tells(canon, templates, systemId, j, x) && templates[j].lastSeen == n;
      assert Tells(canon, after, systemId, j, x) && after[j].lastSeen == n;
    }
    if k.systemId == systemId && KnownKey(canon, k) == x && row.lastSeen > 0 {
      assert Tells(canon, after, systemId, k, x);
    }
    forall n | n in Times(canon, after, systemId, x) && n !in Times(canon, templates, systemId, x)
      ensures k.systemId == systemId && KnownKey(canon, k) == x && row.lastSeen > 0 && n == row.lastSeen {
      var j :| j in after && Tells(canon, after, systemId, j, x) && after[j].lastSeen == n;
      if j != k { assert Tells(canon, templates, systemId, j, x); }
    }
  }

  // ----- what recording does to the memory -----

  ghost predicate RowsRise(templates: Templates, after: Templates) {
    forall k :: k in templates ==> k in after && after[k].lastSeen >= templates[k].lastSeen
  }

  lemma {:induction false} UpsertsRise(canon: Canon, templates: Templates, systemId: string, ts: seq<Template>,
                                       now: int)
    ensures RowsRise(templates, UpsertedAll(canon, templates, systemId, ts, now))
  {
    if ts != [] { UpsertsRise(canon, templates, systemId, ts[..|ts| - 1], now); }
  }

  /** Recording a window never forgets a template and never makes one look longer silent. */
  lemma RecordingOnlyRemembers(canon: Canon, templates: Templates, after: Templates, systemId: string, key: string)
    requires RowsRise(templates, after) && key in Known(canon, templates, systemId)
    ensures key in Known(canon, after, systemId)
    ensures Known(canon, after, systemId)[key] >= Known(canon, templates, systemId)[key]
  {
    KnownIsGreatest(canon, templates, systemId, key);
    KnownIsGreatest(canon, after, systemId, key);
    var n := Known(canon, templates, systemId)[key];
    var k :| k in templates && Tells(canon, templates, systemId, k, key) && templates[k].lastSeen == n;
    assert Tells(canon, after, systemId, k, key);
    assert after[k].lastSeen in Times(canon, after, systemId, key);
  }

  lemma {:induction false} UpsertsTouchOnlyTheSystem(canon: Canon, templates: Templates, systemId: string,
                                                     ts: seq<Template>, now: int, k: TemplateKey)
    requires forall t :: t in ts ==> RowKey(canon, systemId, t) != k
    ensures var after := UpsertedAll(canon, templates, systemId, ts, now);
            (k in after <==> k in templates) && (k in templates ==> after[k] == templates[k])
  {
    if ts != [] { UpsertsTouchOnlyTheSystem(canon, templates, systemId, ts[..|ts| - 1], now, k); }
  }

  lemma {:induction false} UpsertedHasRow(canon: Canon, templates: Templates, systemId: string, ts: seq<Template>,
                                          now: int, t: Template)
    requires t in ts
    ensures var k := RowKey(canon, systemId, t);
            && k in UpsertedAll(canon, templates, systemId, ts, now)
            && UpsertedAll(canon, templates, systemId, ts, now)[k].lastSeen >= OrNow(t.lastSeen, now)
  {
    var before := ts[..|ts| - 1];
    if t in before { UpsertedHasRow(canon, templates, systemId, before, now, t); }
    else { assert t == ts[|ts| - 1]; }
  }

  /** t's row makes key known. */
  predicate Brings(canon: Canon, systemId: string, t: Template, now: int, key: string) {
    KnownKey(canon, RowKey(canon, systemId, t)) == key && OrNow(t.lastSeen, now) > 0
  }

  lemma UpsertTells(canon: Canon, templates: Templates, systemId: string, t: Template, now: int, key: string)
    ensures key in KnownKeys(canon, Upserted(canon, templates, systemId, t, now), systemId)
       <==> key in KnownKeys(canon, templates, systemId) || Brings(canon, systemId, t, now, key)
  {
    var k, after := RowKey(canon, systemId, t), Upserted(canon, templates, systemId, t, now);
    if key in KnownKeys(canon, templates, systemId) {
      var j :| j in templates && j.systemId == systemId && templates[j].lastSeen > 0 && KnownKey(canon, j) == key;
      assert j in after && after[j].lastSeen > 0;
    }
    if Brings(canon, systemId, t, now, key) { assert k in after && after[k].lastSeen > 0; }
    if key in KnownKeys(canon, after, systemId) {
      var j :| j in after && j.systemId == systemId && after[j].lastSeen > 0 && KnownKey(canon, j) == key;
      assert j != k ==> j in templates;
    }
  }

  /** After recording a window, a key is known exactly if it was before or some line of the window brings it. */
  lemma {:induction false} KnownAfterRecording(canon: Canon, templates: Templates, systemId: string, ts: seq<Template>,
                                               now: int, key: string)
    ensures key in Known(canon, UpsertedAll(canon, templates, systemId, ts, now), systemId)
       <==> key in Known(canon, templates, systemId) || exists t :: t in ts && Brings(canon, systemId, t, now, key)
  {
    hide Brings, KnownKeys;
    if ts != [] {
      var init, last := ts[..|ts| - 1], ts[|ts| - 1];
      KnownAfterRecording(canon, templates, systemId, init, now, key);
      UpsertTells(canon, UpsertedAll(canon, templates, systemId, init, now), systemId, last, now, key);
      assert forall t :: t in ts <==> t in init || t == last;
    }
  }

  /** A recorded template is known from then on, if the canonicalizer leaves its own output alone. */
  lemma RecordedIsKnown(canon: Canon, templates: Templates, systemId: string, ts: seq<Template>, now: int, t: Template)
    requires t in ts && OrNow(t.lastSeen, now) > 0
    requires var f := ModuleFamily(t.moduleId); canon(f, canon(f, t.text)) == canon(f, t.text)
    ensures var known := Known(canon, UpsertedAll(canon, templates, systemId, ts, now), systemId);
            KeyOf(canon, t) in known && known[KeyOf(canon, t)] >= OrNow(t.lastSeen, now)
  {
    var after, k := UpsertedAll(canon, templates, systemId, ts, now), RowKey(canon, systemId, t);
    UpsertedHasRow(canon, templates, systemId, ts, now, t);
    FamilyIdempotent(t.moduleId);
    assert Tells(canon, after, systemId, k, KeyOf(canon, t));
    assert after[k].lastSeen in Times(canon, after, systemId, KeyOf(canon, t));
    KnownIsGreatest(canon, after, systemId, KeyOf(canon, t));
  }

  /** That condition is exact: a window of one template, recorded into an empty memory, leaves it known if and
      only if the canonicalizer is stable on it. */
  lemma KnownOnlyIfStable(canon: Canon, systemId: string, t: Template, now: int)
    requires OrNow(t.lastSeen, now) > 0
    ensures KeyOf(canon, t) in Known(canon, UpsertedAll(canon, map[], systemId, [t], now), systemId)
       <==> var f := ModuleFamily(t.moduleId); canon(f, canon(f, t.text)) == canon(f, t.text)
  {
    var f, k := ModuleFamily(t.moduleId), RowKey(canon, systemId, t);
    var none: Templates := map[];
    assert UpsertedAll(canon, none, systemId, [t][..0], now) == none;
    var after := UpsertedAll(canon, none, systemId, [t], now);
    assert after == Upserted(canon, none, systemId, t, now);
    FamilyIdempotent(t.moduleId);
    assert k in after && after[k].lastSeen > 0;
    assert forall x :: x in KnownKeys(canon, after, systemId) <==> x == KnownKey(canon, k);
    assert KnownKey(canon, k) == (f + [NUL]) + canon(f, canon(f, t.text));
    assert KeyOf(canon, t) == (f + [NUL]) + canon(f, t.text);
    SamePrefix(f + [NUL], canon(f, canon(f, t.text)), canon(f, t.text));
  }

  /** A canonicalizer that marks its output each time never recognises what it recorded. */
  lemma UnstableIsNeverKnown(systemId: string, t: Template, now: int)
    requires OrNow(t.lastSeen, now) > 0
    ensures var canon := (family, text) => "*" + text;
            KeyOf(canon, t) !in Known(canon, UpsertedAll(canon, map[], systemId, [t], now), systemId)
  {
    var canon := (family, text) => "*" + text;
    var f := ModuleFamily(t.moduleId);
    assert |canon(f, canon(f, t.text))| == |canon(f, t.text)| + 1;
    KnownOnlyIfStable(canon, systemId, t, now);
  }

  lemma SamePrefix(p: string, a: string, b: string)
    ensures p + a == p + b <==> a == b
  {
    assert (p + a)[|p|..] == a && (p + b)[|p|..] == b;
  }

  // ----- what pruning does to the memory -----

  /** Pruning rows last seen before olderThan, all at once or in part, forgets only templates that a gate with any
      cutoff from olderThan on would call silent. */
  lemma PruningOnlyForgets(canon: Canon, templates: Templates, batch: set<TemplateKey>, systemId: string,
                           olderThan: int, cutoff: int)
    requires forall k :: k in batch ==> k in templates && templates[k].lastSeen < olderThan
    requires olderThan <= cutoff
    ensures Gate.Forgets(Known(canon, templates, systemId), Known(canon, templates - batch, systemId), cutoff)
  {
    var known, after := Known(canon, templates, systemId), Known(canon, templates - batch, systemId);
    hide Known;
    forall key ensures key in after ==> key in known && (known[key] < cutoff ==> after[key] < cutoff)
               ensures key in known && known[key] >= cutoff ==> key in after && after[key] == known[key] {
      PruningForgetsAt(canon, templates, batch, systemId, olderThan, key);
    }
  }

  lemma PruningForgetsAt(canon: Canon, templates: Templates, batch: set<TemplateKey>, systemId: string,
                         olderThan: int, key: string)
    requires forall k :: k in batch ==> k in templates && templates[k].lastSeen < olderThan
    ensures var known, after := Known(canon, templates, systemId), Known(canon, templates - batch, systemId);
            && (key in after ==> key in known && after[key] <= known[key])
            && (key in known && known[key] >= olderThan ==> key in after && after[key] == known[key])
  {
    PrunedTimes(canon, templates, batch, systemId, olderThan, key);
    KnownIsGreatest(canon, templates, systemId, key);
    KnownIsGreatest(canon, templates - batch, systemId, key);
    hide Known, Times;
  }

  lemma PrunedTimes(canon: Canon, templates: Templates, batch: set<TemplateKey>, systemId: string, olderThan: int,
                    key: string)
    requires forall k :: k in batch ==> k in templates && templates[k].lastSeen < olderThan
    ensures var before, rest := Times(canon, templates, systemId, key), Times(canon, templates - batch, systemId, key);
            rest <= before && forall n :: n in before && n >= olderThan ==> n in rest
  {
    var after := templates - batch;
    forall n | n in Times(canon, after, systemId, key) ensures n in Times(canon, templates, systemId, key) {
      var k :| k in after && Tells(canon, after, systemId, k, key) && after[k].lastSeen == n;
      assert Tells(canon, templates, systemId, k, key);
    }
    forall n | n in Times(canon, templates, systemId, key) && n >= olderThan
      ensures n in Times(canon, after, systemId, key) {
      var k :| k in templates && Tells(canon, templates, systemId, k, key) && templates[k].lastSeen == n;
      assert k in after && Tells(canon, after, systemId, k, key);
    }
  }

  // ----- a window that pruning silences -----

  const WINDOW_START := 1_788_269_400_000
  const SILENCE := 691_200_000           // GATE_SILENCE, 8 days
  const RETENTION := 34_560_000_000      // TEMPLATE_RETENTION, 400 days

  function JobKey(id: string): TemplateKey { TemplateKey("node1", "mail", Gate.JobLine(id)) }

  function JobRow(id: string, seen: int): TemplateRow { TemplateRow(Gate.JobLine(id), 6, "", seen, seen, 1) }

  /** Job k7a was last reported 401 days before the window, job k6a a quarter of an hour before it. */
  function JobTable(): Templates {
    map[JobKey("k6a") := JobRow("k6a", WINDOW_START - 900_000),
        JobKey("k7a") := JobRow("k7a", WINDOW_START - 34_646_400_000)]
  }

  const JOB_WINDOW := [Template(Gate.JobLine("k7a"), 1, "mail3", 6, "", 0, 0, [])]

  function JobKnownKey(id: string): string { "mail" + [NUL] + Gate.JobLine(id) }

  /** The canonicalizer leaves a job's line as it is: no rule rewrites digits inside a word. */
  ghost predicate LeavesJobs(canon: Canon) {
    forall id :: id == "k6a" || id == "k7a" ==> canon("mail", Gate.JobLine(id)) == Gate.JobLine(id)
  }

  lemma JobsDiffer()
    ensures Gate.JobLine("k6a") != Gate.JobLine("k7a")
    ensures JobKnownKey("k6a") != JobKnownKey("k7a") && JobKey("k6a") != JobKey("k7a")
  {
    Gate.TokensOfJobLine("k6a");
    Gate.TokensOfJobLine("k7a");
    assert "k6a"[1] != "k7a"[1];
    assert (Gate.HELD + ["k6a"])[|Gate.HELD|] != (Gate.HELD + ["k7a"])[|Gate.HELD|];
    SamePrefix("mail" + [NUL], Gate.JobLine("k6a"), Gate.JobLine("k7a"));
  }

  lemma KnownKeyOfJob(canon: Canon, id: string)
    requires LeavesJobs(canon) && (id == "k6a" || id == "k7a")
    ensures KnownKey(canon, JobKey(id)) == JobKnownKey(id)
  {
    hide Gate.JobLine;
    assert TrimDigits("mail") == "mail";
  }

  lemma JobsKnown(canon: Canon)
    requires LeavesJobs(canon)
    ensures Known(canon, JobTable(), "node1")
         == map[JobKnownKey("k6a") := WINDOW_START - 900_000, JobKnownKey("k7a") := WINDOW_START - 34_646_400_000]
    ensures Known(canon, JobTable() - {JobKey("k7a")}, "node1") == map[JobKnownKey("k6a") := WINDOW_START - 900_000]
  {
    JobsDiffer();
    KnownKeyOfJob(canon, "k6a");
    KnownKeyOfJob(canon, "k7a");
    hide KnownKey, JobKnownKey, Gate.JobLine, LeavesJobs;
    TwoRowsKnown(canon, JobKey("k6a"), JobRow("k6a", WINDOW_START - 900_000), JobKey("k7a"),
                 JobRow("k7a", WINDOW_START - 34_646_400_000), "node1");
    hide Known;
    assert JobTable() - {JobKey("k7a")} == map[JobKey("k6a") := JobRow("k6a", WINDOW_START - 900_000)];
  }

  lemma TwoRowsKnown(canon: Canon, k: TemplateKey, row: TemplateRow, j: TemplateKey, row': TemplateRow,
                     systemId: string)
    requires k != j && k.systemId == j.systemId == systemId && row.lastSeen > 0 && row'.lastSeen > 0
    requires KnownKey(canon, k) != KnownKey(canon, j)
    ensures Known(canon, map[k := row], systemId) == map[KnownKey(canon, k) := row.lastSeen]
    ensures Known(canon, map[k := row, j := row'], systemId)
         == map[KnownKey(canon, k) := row.lastSeen, KnownKey(canon, j) := row'.lastSeen]
  {
    hide Known, KnownKey;
    NothingKnown(canon, systemId);
    var none: Templates := map[];
    KnownWithRow(canon, none, k, row, systemId);
    assert none[k := row] == map[k := row];
    KnownWithRow(canon, map[k := row], j, row', systemId);
    assert map[k := row][j := row'] == map[k := row, j := row'];
  }

  lemma JobFacts(canon: Canon)
    requires LeavesJobs(canon)
    ensures Gate.FactsOf(canon, JOB_WINDOW) == {Gate.Fact(JobKnownKey("k7a"), true, false)}
  {
    hide Gate.JobLine;
    var t := JOB_WINDOW[0];
    assert TrimDigits("mail") == "mail" && "mail3"[..4] == "mail" && TrimDigits("mail3") == "mail";
    assert KeyOf(canon, t) == JobKnownKey("k7a");
    assert Gate.FactOf(canon, t) == Gate.Fact(JobKnownKey("k7a"), true, false);
    assert t in JOB_WINDOW;
  }

  /** With the default similarity, silence and retention, and any canonicalizer that leaves the two lines alone: the
      window's line, silent for 401 days, is novel and asks for the call; once its row is pruned it passes for the
      recent line that differs in the job id, and there is no call. */
  lemma PruningSilencesACall(canon: Canon)
    requires LeavesJobs(canon)
    ensures var batch := set k | k in JobTable() && JobTable()[k].lastSeen < WINDOW_START - RETENTION;
            var before, after := Known(canon, JobTable(), "node1"), Known(canon, JobTable() - batch, "node1");
            var facts := Gate.FactsOf(canon, JOB_WINDOW);
            var cutoff, cfg := Gate.SilentBefore(WINDOW_START, SILENCE), Gate.Config(1, 0.9, SILENCE);
            && Gate.Novel(facts, before, cutoff, 0.9) == {JobKnownKey("k7a")}
            && Gate.Decide(facts, before, cutoff, false, cfg).call
            && Gate.Novel(facts, after, cutoff, 0.9) == {}
            && !Gate.Decide(facts, after, cutoff, false, cfg).call
  {
    var batch := set k | k in JobTable() && JobTable()[k].lastSeen < WINDOW_START - RETENTION;
    var facts, cutoff := Gate.FactsOf(canon, JOB_WINDOW), Gate.SilentBefore(WINDOW_START, SILENCE);
    JobsDiffer();
    assert batch == {JobKey("k7a")};
    JobsKnown(canon);
    JobFacts(canon);
    JobStandsIn();
    PruningOnlyForgets(canon, JobTable(), batch, "node1", WINDOW_START - RETENTION, cutoff);
    hide Gate.Matches, Gate.FactsOf, Known, JobKnownKey, JobTable, JobKey, Gate.JobLine, LeavesJobs, Gate.Forgets;
    hide Gate.Decide, Gate.Novel;
    Gate.ForgettingTheOnlyLine(facts, JobKnownKey("k7a"), JobKnownKey("k6a"), Known(canon, JobTable(), "node1"),
                               Known(canon, JobTable() - batch, "node1"), cutoff, Gate.Config(1, 0.9, SILENCE));
  }

  lemma JobStandsIn()
    ensures Gate.Matches(JobKnownKey("k7a"), JobKnownKey("k6a"), 0.9)
  {
    hide Gate.Matches, Gate.JobLine;
    assert "k6a"[1] != "k7a"[1];
    assert !Gate.IsLetter("k6a"[1]) && !Gate.IsLetter("k7a"[1]);
    Gate.JobLinesMatch("mail", "k7a", "k6a");
  }

  // ----- the store -----

  /** The ledger half of the logs store. Each method is one transaction. */
  class Store {
    var analyses: map<Window, Analysis>
    var templates: Templates

    function View(): Tables
      reads this
    {
      Tables(analyses, templates)
    }

    constructor ()
      ensures View() == EMPTY
    {
      analyses, templates := map[], map[];
    }

    /** claimed says that the upsert affected a row. */
    method BeginAnalysis(w: Window, end: int, now: int) returns (claimed: bool)
      modifies this`analyses
      ensures claimed == Claimable(old(View()), w)
      ensures View() == if claimed then Begun(old(View()), w, end, now) else old(View())
    {
      if w !in analyses {
        analyses := analyses[w := Analysis(end, now, false, false, [], false, NO_USAGE, "", "")];
        return true;
      }
      if analyses[w].completed { return false; }
      analyses := analyses[w := analyses[w].(windowEnd := end, createdAt := now)];
      return true;
    }

    method RecordAttemptError(w: Window, reasons: seq<string>, msg: string)
      modifies this`analyses
      ensures View() == Noted(old(View()), w, reasons, msg)
    {
      if w in analyses {
        analyses := analyses[w := analyses[w].(reasons := reasons, llmCalled := true, error := msg)];
      }
    }

    method FinalizeAnalysis(w: Window, o: Outcome)
      modifies this`analyses
      ensures View() == Finalized(old(View()), w, o)
    {
      if w in analyses {
        analyses := analyses[w := analyses[w].(completed := true, gated := o.gated, reasons := o.reasons,
                                               llmCalled := o.llmCalled, usage := o.usage, error := o.error,
                                               suppressedBy := o.suppressedBy)];
      }
    }

    method UpsertTemplates(canon: Canon, systemId: string, ts: seq<Template>, now: int)
      modifies this`templates
      ensures View() == old(View()).(templates := UpsertedAll(canon, old(templates), systemId, ts, now))
    {
      for i := 0 to |ts|
        invariant templates == UpsertedAll(canon, old(templates), systemId, ts[..i], now)
        invariant analyses == old(analyses)
      {
        assert ts[..i + 1][..i] == ts[..i];
        UpsertOne(canon, systemId, ts[i], now);
      }
      assert ts[..|ts|] == ts;
    }

    method UpsertOne(canon: Canon, systemId: string, t: Template, now: int)
      modifies this`templates
      ensures templates == Upserted(canon, old(templates), systemId, t, now)
    {
      var firstSeen := t.firstSeen;
      if firstSeen == 0 { firstSeen := now; }
      var lastSeen := t.lastSeen;
      if lastSeen == 0 { lastSeen := now; }
      var k := RowKey(canon, systemId, t);
      if k in templates {
        var row := templates[k];
        templates := templates[k := row.(text := t.text, priority := t.priority, category := t.category,
                                         lastSeen := if lastSeen > row.lastSeen then lastSeen else row.lastSeen,
                                         total := row.total + t.count)];
      } else {
        templates := templates[k := TemplateRow(t.text, t.priority, t.category, firstSeen, lastSeen, t.count)];
      }
    }

    /** One pass over the rows in any order. */
    method KnownTemplates(canon: Canon, systemId: string) returns (known: map<string, int>)
      ensures known == Known(canon, templates, systemId)
    {
      hide Known;
      known := map[];
      var todo := templates.Keys;
      NothingKnown(canon, systemId);
      assert templates - todo == map[];
      while todo != {}
        invariant todo <= templates.Keys
        invariant known == Known(canon, templates - todo, systemId)
      {
        var k :| k in todo;
        ghost var before := templates - todo;
        KnownWithRow(canon, before, k, templates[k], systemId);
        assert templates - (todo - {k}) == before[k := templates[k]];
        todo := todo - {k};
        if k.systemId == systemId {
          var key, lastSeen := KnownKey(canon, k), templates[k].lastSeen;
          if lastSeen > (if key in known then known[key] else 0) {
            known := known[key := lastSeen];
          }
        }
      }
      assert templates - todo == templates;
    }
  }

  lemma NothingKnown(canon: Canon, systemId: string)
    ensures Known(canon, map[], systemId) == map[]
  {
  }
}
