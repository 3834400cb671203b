/** The analyzer running on the queue's workers: every window goes through the same steps against the store,
    any of which can fail, while other workers, restarts and pruning happen in between. */
module Pipeline {
  import opened Model
  import opened Ledger
  import Gate
  import Queue

  // ----- one window -----

  /** What became of an attempt. */
  datatype Verdict = Suppressed | GatedOut | Answered | Failed

  /** The three ways an attempt gets to record its templates. */
  datatype Path =
    | BudgetPath(limit: string)
    | GatePath(reasons: seq<string>)
    | FullPath(reasons: seq<string>, usage: Usage)

  function VerdictOf(p: Path): Verdict {
    match p
    case BudgetPath(_) => Suppressed
    case GatePath(_) => GatedOut
    case FullPath(_, _) => Answered
  }

  function OutcomeOf(p: Path): Outcome {
    match p
    case BudgetPath(limit) => Outcome(true, [], false, NO_USAGE, "", limit)
    case GatePath(reasons) => Outcome(true, reasons, false, NO_USAGE, "", "")
    case FullPath(reasons, usage) => Outcome(false, reasons, true, usage, "", "")
  }

  /** Where Process is, for one bundle. */
  datatype Phase =
    | Beginning
    | Registering                                                  // the system, its nodes, the findings it keeps alive
    | Reading                                                      // KnownTemplates
    | Budgeting(known: map<string, int>)
    | Asking(decision: Gate.Decision)                              // open findings, a call slot, the call, the parse
    | NotingError(reasons: seq<string>, msg: string)               // a transient failure
    | Closing(outcome: Outcome)                                    // a failure no retry can fix
    | Persisting(reasons: seq<string>, usage: Usage, left: nat)    // the findings
    | Recording(path: Path)                                        // UpsertTemplates
    | Marking(path: Path)                                          // MarkStale
    | Finalizing(path: Path)
    | Over(ok: bool)

  /** What the world answers to one step. Fails is an error from the store, the budget or the context. */
  datatype Reply =
    | Fails
    | Done(now: int)
    | Budget(limit: string, securityOnly: bool)
    | CallFailed(status: Option<int>, msg: string)                 // with the HTTP status, if there is one
    | Unparsable(input: int, output: int, msg: string)
    | Answer(input: int, output: int, cached: int, costMicros: int, model: string, findings: nat)

  datatype Config = Config(gate: Gate.Config, model: string)

  /** The answers an attempt's course rests on: the budget's, over what the system had sent before, or the model's. */
  datatype Cause =
    | ByBudget(b: Bundle, known: map<string, int>, limit: string, securityOnly: bool)
    | ByModel(r: Reply)

  /** The history of the whole system. */
  datatype Entry =
    | Began(w: Window)
    | Opened(w: Window, c: Cause)                  // the model is about to be called
    | Judged(w: Window, v: Verdict, c: Cause)
    | Learned(b: Bundle, path: Path)
    | Completed(w: Window)
    | Forgot(ws: set<Window>)
    | Trimmed(keys: set<TemplateKey>)

  datatype Move = Move(tables: Tables, phase: Phase, entry: Option<Entry>)

  function Usages(r: Reply): Usage
    requires r.Answer?
  {
    Usage(r.input, r.output, if r.cached > r.input then r.input else r.cached, r.costMicros, r.model)
  }

  function Decision(canon: Canon, cfg: Config, b: Bundle, known: map<string, int>, securityOnly: bool): Gate.Decision {
    Gate.Decide(Gate.FactsOf(canon, b.templates), known, Gate.SilentBefore(b.start, cfg.gate.silence), securityOnly,
                cfg.gate)
  }

  /** HTTPError.Permanent: the request is wrong and will fail identically forever. */
  predicate Permanent(status: Option<int>) { status.Some? && 400 <= status.value < 500 && status.value != 429 }

  function Asked(cfg: Config, t: Tables, w: Window, d: Gate.Decision, r: Reply): Move {
    var c := ByModel(r);
    match r
    case CallFailed(status, msg) =>
      if Permanent(status)
      then Move(t, Closing(Outcome(false, d.reasons, true, Usage(0, 0, 0, 0, cfg.model), msg, "")),
                Some(Judged(w, Failed, c)))
      else Move(t, NotingError(d.reasons, msg), Some(Judged(w, Failed, c)))
    case Unparsable(i, o, msg) =>
      Move(t, Closing(Outcome(false, d.reasons, true, Usage(i, o, 0, 0, cfg.model), msg, "")),
           Some(Judged(w, Failed, c)))
    case Answer(_, _, _, _, _, n) => Move(t, Persisting(d.reasons, Usages(r), n), Some(Judged(w, Answered, c)))
    case _ => Move(t, Over(false), None)
  }

  function Judge(w: Window, t: Tables, d: Gate.Decision, c: Cause): Move {
    if d.call then Move(t, Asking(d), Some(Opened(w, c)))
    else Move(t, Recording(GatePath(d.reasons)), Some(Judged(w, GatedOut, c)))
  }

  function CompletedEntry(t: Tables, w: Window): Option<Entry> { if w in t.analyses then Some(Completed(w)) else None }

  /** One step of Process. A reply of the wrong kind counts as a failure, and a failure ends the attempt. */
  ghost function Advance(canon: Canon, cfg: Config, t: Tables, b: Bundle, phase: Phase, r: Reply): Move {
    var w := Queue.WindowOf(b);
    match (phase, r)
    case (Beginning, Done(now)) =>
      if Claimable(t, w) then Move(Begun(t, w, b.end, now), Registering, Some(Began(w))) else Move(t, Over(true), None)
    case (Registering, Done(_)) => Move(t, Reading, None)
    case (Reading, Done(_)) => Move(t, Budgeting(Known(canon, t.templates, b.systemId)), None)
    case (Budgeting(known), Budget(limit, securityOnly)) =>
      var c := ByBudget(b, known, limit, securityOnly);
      if limit != "" then Move(t, Recording(BudgetPath(limit)), Some(Judged(w, Suppressed, c)))
      else Judge(w, t, Decision(canon, cfg, b, known, securityOnly), c)
    case (Asking(d), _) => Asked(cfg, t, w, d, r)
    case (NotingError(reasons, msg), Done(_)) => Move(Noted(t, w, reasons, msg), Over(false), None)
    case (Closing(o), Done(_)) => Move(Finalized(t, w, o), Over(false), CompletedEntry(t, w))
    case (Persisting(reasons, usage, left), Done(_)) =>
      if left > 0 then Move(t, Persisting(reasons, usage, left - 1), None)
      else Move(t, Recording(FullPath(reasons, usage)), None)
    case (Recording(p), Done(now)) =>
      Move(t.(templates := UpsertedAll(canon, t.templates, b.systemId, b.templates, now)), Marking(p),
           Some(Learned(b, p)))
    case (Marking(p), Done(_)) => Move(t, Finalizing(p), None)
    case (Finalizing(p), Done(_)) => Move(Finalized(t, w, OutcomeOf(p)), Over(true), CompletedEntry(t, w))
    case (Over(ok), _) => Move(t, Over(ok), None)
    case _ => Move(t, Over(false), None)
  }

  // ----- reading the history -----

  function SettledAfter(settled: bool, e: Entry, w: Window): bool {
    match e
    case Completed(x) => x == w || settled
    case Forgot(ws) => w !in ws && settled
    case _ => settled
  }

  function VerdictAfter(last: Option<Verdict>, e: Entry, w: Window): Option<Verdict> {
    match e
    case Began(x) => if x == w then None else last
    case Judged(x, v, _) => if x == w then Some(v) else last
    case _ => last
  }

  function CauseAfter(last: Option<Cause>, e: Entry, w: Window): Option<Cause> {
    match e
    case Began(x) => if x == w then None else last
    case Opened(x, c) => if x == w then Some(c) else last
    case Judged(x, _, c) => if x == w then Some(c) else last
    case _ => last
  }

  function RecordedAfter(was: bool, e: Entry, w: Window): bool {
    match e
    case Began(x) => x != w && was
    case Learned(b, _) => Queue.WindowOf(b) == w || was
    case _ => was
  }

  /** Completed, and its row not pruned since. */
  function Settled(log: seq<Entry>, w: Window): bool {
    log != [] && SettledAfter(Settled(log[..|log| - 1], w), log[|log| - 1], w)
  }

  /** What became of the latest attempt on w, if anything yet. */
  function LastVerdict(log: seq<Entry>, w: Window): Option<Verdict> {
    if log == [] then None else VerdictAfter(LastVerdict(log[..|log| - 1], w), log[|log| - 1], w)
  }

  /** The answer the latest attempt on w rests on so far. */
  function LastCause(log: seq<Entry>, w: Window): Option<Cause> {
    if log == [] then None else CauseAfter(LastCause(log[..|log| - 1], w), log[|log| - 1], w)
  }

  /** The latest attempt on w has recorded its templates. */
  function Recorded(log: seq<Entry>, w: Window): bool {
    log != [] && RecordedAfter(Recorded(log[..|log| - 1], w), log[|log| - 1], w)
  }

  /** The budget set no limit and the gate asks for the call. */
  predicate Pays(canon: Canon, cfg: Config, w: Window, c: Cause) {
    c.ByBudget? && Queue.WindowOf(c.b) == w && c.limit == "" && Decision(canon, cfg, c.b, c.known, c.securityOnly).call
  }

  predicate Paid(canon: Canon, cfg: Config, log: seq<Entry>, w: Window) {
    LastCause(log, w).Some? && Pays(canon, cfg, w, LastCause(log, w).value)
  }

  /** No retry can fix it: the request was refused with a status of 400 to 499 other than 429, or the answer cannot
      be read. */
  predicate Hopeless(c: Option<Cause>) { c.Some? && c.value.ByModel? && BeyondRetry(c.value.r) }

  predicate BeyondRetry(r: Reply) {
    r.Unparsable? || (r.CallFailed? && r.status.Some? && 400 <= r.status.value <= 499 && r.status.value != 429)
  }

  /** What each verdict takes. */
  predicate Warranted(canon: Canon, cfg: Config, log: seq<Entry>, w: Window, v: Verdict, c: Cause) {
    match v
    case Suppressed => c.ByBudget? && Queue.WindowOf(c.b) == w && c.limit != ""
    case GatedOut =>
      && c.ByBudget? && Queue.WindowOf(c.b) == w && c.limit == ""
      && !Decision(canon, cfg, c.b, c.known, c.securityOnly).call
    case Answered => c.ByModel? && c.r.Answer? && Paid(canon, cfg, log, w)
    case Failed =>
      c.ByModel? && (c.r.CallFailed? || c.r.Unparsable?) && Paid(canon, cfg, log, w)
  }

  /** A window is begun or completed only if it is not settled, and completed only once recorded or hopeless; the
      model is called only where it pays; templates are recorded only on the path the
      latest attempt on the window was judged to be on. */
  predicate Allowed(canon: Canon, cfg: Config, log: seq<Entry>, e: Entry) {
    match e
    case Began(w) => !Settled(log, w)
    case Opened(w, c) => Pays(canon, cfg, w, c)
    case Judged(w, v, c) => Warranted(canon, cfg, log, w, v, c)
    case Completed(w) => !Settled(log, w) && (Recorded(log, w) || Hopeless(LastCause(log, w)))
    case Learned(b, p) => LastVerdict(log, Queue.WindowOf(b)) == Some(VerdictOf(p))
    case _ => true
  }

  ghost predicate Orderly(canon: Canon, cfg: Config, log: seq<Entry>) {
    forall i :: 0 <= i < |log| ==> Allowed(canon, cfg, log[..i], log[i])
  }

  function Appended(log: seq<Entry>, e: Option<Entry>): seq<Entry> { if e.Some? then log + [e.value] else log }

  lemma OrderlyAppend(canon: Canon, cfg: Config, log: seq<Entry>, e: Option<Entry>)
    requires Orderly(canon, cfg, log) && (e.Some? ==> Allowed(canon, cfg, log, e.value))
    ensures Orderly(canon, cfg, Appended(log, e))
  {
    hide Allowed;
    var after := Appended(log, e);
    forall i | 0 <= i < |after| ensures Allowed(canon, cfg, after[..i], after[i]) {
      assert i < |log| ==> after[..i] == log[..i] && after[i] == log[i];
      assert i == |log| ==> after[..i] == log;
    }
  }

  /** What one entry does to a window's state. */
  lemma AppendOne(log: seq<Entry>, e: Entry, w: Window)
    ensures Settled(log + [e], w) == SettledAfter(Settled(log, w), e, w)
    ensures LastVerdict(log + [e], w) == VerdictAfter(LastVerdict(log, w), e, w)
    ensures LastCause(log + [e], w) == CauseAfter(LastCause(log, w), e, w)
    ensures Recorded(log + [e], w) == RecordedAfter(Recorded(log, w), e, w)
  {
    assert (log + [e])[..|log|] == log;
  }

  // ----- what holds of one worker's window -----

  /** An attempt under way is on an unsettled window, and its phase is where its verdict and the answer behind it
      lead. */
  predicate JobOk(canon: Canon, cfg: Config, log: seq<Entry>, w: Window, phase: Phase) {
    match phase
    case Beginning => true
    case Over(_) => true
    case Asking(_) => !Settled(log, w) && LastVerdict(log, w) == None && Paid(canon, cfg, log, w)
    case NotingError(_, _) => !Settled(log, w) && LastVerdict(log, w) == Some(Failed)
    case Closing(_) => !Settled(log, w) && LastVerdict(log, w) == Some(Failed) && Hopeless(LastCause(log, w))
    case Persisting(_, _, _) => !Settled(log, w) && LastVerdict(log, w) == Some(Answered)
    case Recording(p) => !Settled(log, w) && LastVerdict(log, w) == Some(VerdictOf(p))
    case Marking(p) => !Settled(log, w) && LastVerdict(log, w) == Some(VerdictOf(p)) && Recorded(log, w)
    case Finalizing(p) => !Settled(log, w) && LastVerdict(log, w) == Some(VerdictOf(p)) && Recorded(log, w)
    case _ => !Settled(log, w) && LastVerdict(log, w) == None
  }

  /** The ledger says completed exactly of the settled windows. */
  predicate RowOk(log: seq<Entry>, t: Tables, w: Window) {
    Settled(log, w) <==> w in t.analyses && t.analyses[w].completed
  }

  predicate Owns(w: Window, e: Entry) {
    match e
    case Began(x) => x == w
    case Opened(x, _) => x == w
    case Judged(x, _, _) => x == w
    case Learned(b, _) => Queue.WindowOf(b) == w
    case Completed(x) => x == w
    case _ => false
  }

  lemma AdvanceKeepsJob(canon: Canon, cfg: Config, t: Tables, log: seq<Entry>, b: Bundle, phase: Phase, r: Reply)
    requires var w := Queue.WindowOf(b); JobOk(canon, cfg, log, w, phase) && RowOk(log, t, w)
    ensures var w, m := Queue.WindowOf(b), Advance(canon, cfg, t, b, phase, r);
            && JobOk(canon, cfg, Appended(log, m.entry), w, m.phase) && RowOk(Appended(log, m.entry), m.tables, w)
            && (m.entry.Some? ==> Owns(w, m.entry.value) && Allowed(canon, cfg, log, m.entry.value))
  {
    hide Settled, LastVerdict, LastCause, Recorded, Known, Decision, UpsertedAll;
    var w, m := Queue.WindowOf(b), Advance(canon, cfg, t, b, phase, r);
    if m.entry.Some? { AppendOne(log, m.entry.value, w); }
  }

  /** Another worker's window does not notice. */
  lemma OthersUnmoved(canon: Canon, cfg: Config, t: Tables, log: seq<Entry>, b: Bundle, phase: Phase, r: Reply,
                      x: Window)
    requires x != Queue.WindowOf(b)
    ensures var m := Advance(canon, cfg, t, b, phase, r);
            && (x in m.tables.analyses <==> x in t.analyses)
            && (x in t.analyses ==> m.tables.analyses[x] == t.analyses[x])
  {
    hide Settled, LastVerdict, LastCause, Recorded, Known, Decision, UpsertedAll;
  }

  lemma OthersHistory(log: seq<Entry>, e: Option<Entry>, w: Window, x: Window)
    requires x != w && (e.Some? ==> Owns(w, e.value))
    ensures Settled(Appended(log, e), x) == Settled(log, x)
    ensures LastVerdict(Appended(log, e), x) == LastVerdict(log, x)
    ensures LastCause(Appended(log, e), x) == LastCause(log, x)
    ensures Recorded(Appended(log, e), x) == Recorded(log, x)
  {
    if e.Some? { AppendOne(log, e.value, x); }
  }

  // ----- the system -----

  datatype Sys = Sys(q: Queue.State, jobs: seq<Phase>, tables: Tables, log: seq<Entry>)

  datatype Event =
    | QueueStep(e: Queue.Event)
    | Work(k: nat, r: Reply)
    | Restart
    | PruneAnalyses(olderThan: int, windows: set<Window>)
    | PruneTemplates(olderThan: int, keys: set<TemplateKey>)

  function Start(capacity: int, callers: nat, workers: int): Sys {
    var q := Queue.New(capacity, callers, workers);
    Sys(q, seq(|q.workers|, _ => Over(true)), EMPTY, [])
  }

  predicate Enabled(s: Sys, e: Event)
    requires |s.jobs| == |s.q.workers|
  {
    match e
    case QueueStep(qe) => Queue.Enabled(s.q, qe) && (qe.Finish? ==> s.jobs[qe.k].Over?)
    case Work(k, _) => k < |s.jobs| && s.q.workers[k].Handling?
    case Restart => true
    case PruneAnalyses(t, batch) =>
      forall w :: w in batch ==> w in s.tables.analyses && s.tables.analyses[w].createdAt < t
    case PruneTemplates(t, batch) =>
      forall k :: k in batch ==> k in s.tables.templates && s.tables.templates[k].lastSeen < t
  }

  ghost function Worked(canon: Canon, cfg: Config, s: Sys, k: nat, r: Reply): Move
    requires |s.jobs| == |s.q.workers| && k < |s.jobs| && s.q.workers[k].Handling?
  {
    Advance(canon, cfg, s.tables, s.q.workers[k].b, s.jobs[k], r)
  }

  ghost function Apply(canon: Canon, cfg: Config, s: Sys, e: Event): Sys
    requires |s.jobs| == |s.q.workers| && Enabled(s, e)
  {
    match e
    case QueueStep(qe) =>
      s.(q := Queue.Apply(s.q, qe), jobs := if qe.Receive? then s.jobs[qe.k := Beginning] else s.jobs)
    case Work(k, r) =>
      var m := Worked(canon, cfg, s, k, r);
      s.(jobs := s.jobs[k := m.phase], tables := m.tables, log := Appended(s.log, m.entry))
    case Restart =>
      var q := Queue.New(s.q.capacity, |s.q.publishers|, |s.q.workers|);
      s.(q := q, jobs := seq(|q.workers|, _ => Over(true)))
    case PruneAnalyses(_, batch) =>
      s.(tables := s.tables.(analyses := s.tables.analyses - batch), log := s.log + [Forgot(batch)])
    case PruneTemplates(_, batch) =>
      s.(tables := s.tables.(templates := s.tables.templates - batch), log := s.log + [Trimmed(batch)])
  }

  /** tk was written by a recorded window. */
  ghost predicate Taught(canon: Canon, log: seq<Entry>, tk: TemplateKey) {
    exists i :: 0 <= i < |log| && Teaches(canon, log[i], tk)
  }

  predicate Teaches(canon: Canon, e: Entry, tk: TemplateKey) {
    e.Learned? && exists t :: t in e.b.templates && RowKey(canon, e.b.systemId, t) == tk
  }

  ghost predicate JobsOk(canon: Canon, cfg: Config, s: Sys)
    requires |s.jobs| == |s.q.workers|
  {
    forall k :: 0 <= k < |s.jobs| && s.q.workers[k].Handling?
      ==> JobOk(canon, cfg, s.log, Queue.WindowOf(s.q.workers[k].b), s.jobs[k])
  }

  ghost predicate LedgerOk(s: Sys) { forall w :: RowOk(s.log, s.tables, w) }

  ghost predicate MemoryOk(canon: Canon, s: Sys) { forall k :: k in s.tables.templates ==> Taught(canon, s.log, k) }

  ghost predicate Inv(canon: Canon, cfg: Config, s: Sys) {
    |s.jobs| == |s.q.workers| && Queue.Inv(s.q) && JobsOk(canon, cfg, s) && LedgerOk(s)
    && Orderly(canon, cfg, s.log) && MemoryOk(canon, s)
  }

  lemma StartHoldsInv(canon: Canon, cfg: Config, capacity: int, callers: nat, workers: int)
    ensures Inv(canon, cfg, Start(capacity, callers, workers))
  {
    Queue.NewHoldsInv(capacity, callers, workers);
  }

  lemma QueueKeepsInv(canon: Canon, cfg: Config, s: Sys, qe: Queue.Event)
    requires Inv(canon, cfg, s) && Enabled(s, QueueStep(qe))
    ensures Inv(canon, cfg, Apply(canon, cfg, s, QueueStep(qe)))
  {
    hide Settled, LastVerdict, LastCause, Recorded, Advance, Queue.Inv, Taught, RowOk, Orderly;
    Queue.StepKeepsInv(s.q, qe);
  }

  lemma RestartKeepsInv(canon: Canon, cfg: Config, s: Sys)
    requires Inv(canon, cfg, s)
    ensures Inv(canon, cfg, Apply(canon, cfg, s, Restart))
  {
    hide Settled, LastVerdict, LastCause, Recorded, Advance, Queue.Inv, Taught, RowOk, Orderly;
    Queue.NewHoldsInv(s.q.capacity, |s.q.publishers|, |s.q.workers|);
  }

  lemma PruneAnalysesKeepsInv(canon: Canon, cfg: Config, s: Sys, t: int, batch: set<Window>)
    requires Inv(canon, cfg, s) && Enabled(s, PruneAnalyses(t, batch))
    ensures Inv(canon, cfg, Apply(canon, cfg, s, PruneAnalyses(t, batch)))
  {
    hide Settled, LastVerdict, LastCause, Recorded, Advance, Queue.Inv, Taught, Orderly;
    var s', e := Apply(canon, cfg, s, PruneAnalyses(t, batch)), Forgot(batch);
    assert s'.log == Appended(s.log, Some(e));
    OrderlyAppend(canon, cfg, s.log, Some(e));
    forall w ensures RowOk(s'.log, s'.tables, w) {
      assert RowOk(s.log, s.tables, w);
      AppendOne(s.log, e, w);
    }
    forall k | 0 <= k < |s'.jobs| && s'.q.workers[k].Handling?
      ensures JobOk(canon, cfg, s'.log, Queue.WindowOf(s'.q.workers[k].b), s'.jobs[k]) {
      AppendOne(s.log, e, Queue.WindowOf(s.q.workers[k].b));
    }
    forall k | k in s'.tables.templates ensures Taught(canon, s'.log, k) { TaughtStays(canon, s.log, Some(e), k); }
  }

  lemma PruneTemplatesKeepsInv(canon: Canon, cfg: Config, s: Sys, t: int, batch: set<TemplateKey>)
    requires Inv(canon, cfg, s) && Enabled(s, PruneTemplates(t, batch))
    ensures Inv(canon, cfg, Apply(canon, cfg, s, PruneTemplates(t, batch)))
  {
    hide Settled, LastVerdict, LastCause, Recorded, Advance, Queue.Inv, Taught, Orderly;
    var s', e := Apply(canon, cfg, s, PruneTemplates(t, batch)), Trimmed(batch);
    assert s'.log == Appended(s.log, Some(e));
    OrderlyAppend(canon, cfg, s.log, Some(e));
    forall w ensures RowOk(s'.log, s'.tables, w) {
      assert RowOk(s.log, s.tables, w);
      AppendOne(s.log, e, w);
    }
    forall k | 0 <= k < |s'.jobs| && s'.q.workers[k].Handling?
      ensures JobOk(canon, cfg, s'.log, Queue.WindowOf(s'.q.workers[k].b), s'.jobs[k]) {
      AppendOne(s.log, e, Queue.WindowOf(s.q.workers[k].b));
    }
    forall k | k in s'.tables.templates ensures Taught(canon, s'.log, k) { TaughtStays(canon, s.log, Some(e), k); }
  }

  lemma TaughtStays(canon: Canon, log: seq<Entry>, e: Option<Entry>, tk: TemplateKey)
    requires Taught(canon, log, tk)
    ensures Taught(canon, Appended(log, e), tk)
  {
    var i :| 0 <= i < |log| && Teaches(canon, log[i], tk);
    assert Appended(log, e)[i] == log[i];
  }

  /** The template table changes only where a Learned entry says so. */
  lemma AdvanceTemplates(canon: Canon, cfg: Config, t: Tables, b: Bundle, phase: Phase, r: Reply)
    ensures var m := Advance(canon, cfg, t, b, phase, r);
            if m.entry.Some? && m.entry.value.Learned?
            then && m.entry.value.b == b && r.Done?
                 && m.tables.templates == UpsertedAll(canon, t.templates, b.systemId, b.templates, r.now)
            else m.tables.templates == t.templates
    ensures var m := Advance(canon, cfg, t, b, phase, r);
            m.entry.Some? ==> !m.entry.value.Trimmed?
  {
    hide Known, Decision, UpsertedAll;
  }

  lemma WorkKeepsMemory(canon: Canon, cfg: Config, s: Sys, k: nat, r: Reply)
    requires Inv(canon, cfg, s) && Enabled(s, Work(k, r))
    ensures MemoryOk(canon, Apply(canon, cfg, s, Work(k, r)))
  {
    hide Settled, LastVerdict, LastCause, Recorded, Advance, Queue.Inv, Taught, Orderly, RowOk, JobOk;
    var b, s', m := s.q.workers[k].b, Apply(canon, cfg, s, Work(k, r)), Worked(canon, cfg, s, k, r);
    AdvanceTemplates(canon, cfg, s.tables, b, s.jobs[k], r);
    forall tk | tk in s'.tables.templates ensures Taught(canon, s'.log, tk) {
      if tk in s.tables.templates {
        TaughtStays(canon, s.log, m.entry, tk);
      } else {
        NewRowTaught(canon, s.tables.templates, b, r.now, tk, s.log, m.entry.value);
      }
    }
  }

  lemma NewRowTaught(canon: Canon, templates: Templates, b: Bundle, now: int, tk: TemplateKey, log: seq<Entry>,
                     e: Entry)
    requires e.Learned? && e.b == b
    requires tk !in templates && tk in UpsertedAll(canon, templates, b.systemId, b.templates, now)
    ensures Taught(canon, log + [e], tk)
  {
    hide UpsertedAll;
    if forall t :: t in b.templates ==> RowKey(canon, b.systemId, t) != tk {
      UpsertsTouchOnlyTheSystem(canon, templates, b.systemId, b.templates, now, tk);
    }
    assert Teaches(canon, (log + [e])[|log|], tk);
  }

  lemma WorkKeepsJobs(canon: Canon, cfg: Config, s: Sys, k: nat, r: Reply)
    requires Inv(canon, cfg, s) && Enabled(s, Work(k, r))
    ensures var s' := Apply(canon, cfg, s, Work(k, r)); JobsOk(canon, cfg, s') && Orderly(canon, cfg, s'.log)
  {
    hide Settled, LastVerdict, LastCause, Recorded, Advance, Orderly, Allowed, MemoryOk, RowOk, Owns;
    hide Queue.Shaped, Queue.Traced, Queue.Accounted;
    var b, s', m := s.q.workers[k].b, Apply(canon, cfg, s, Work(k, r)), Worked(canon, cfg, s, k, r);
    AdvanceKeepsJob(canon, cfg, s.tables, s.log, b, s.jobs[k], r);
    OrderlyAppend(canon, cfg, s.log, m.entry);
    Queue.NeverTwice(s.q);
    forall j | 0 <= j < |s'.jobs| && s'.q.workers[j].Handling?
      ensures JobOk(canon, cfg, s'.log, Queue.WindowOf(s'.q.workers[j].b), s'.jobs[j]) {
      if j != k { OthersHistory(s.log, m.entry, Queue.WindowOf(b), Queue.WindowOf(s.q.workers[j].b)); }
    }
  }

  lemma WorkKeepsLedger(canon: Canon, cfg: Config, s: Sys, k: nat, r: Reply)
    requires Inv(canon, cfg, s) && Enabled(s, Work(k, r))
    ensures LedgerOk(Apply(canon, cfg, s, Work(k, r)))
  {
    hide Settled, LastVerdict, LastCause, Recorded, Advance, Orderly, Allowed, MemoryOk, Owns, Queue.Inv;
    var b, s', m := s.q.workers[k].b, Apply(canon, cfg, s, Work(k, r)), Worked(canon, cfg, s, k, r);
    var w := Queue.WindowOf(b);
    assert RowOk(s.log, s.tables, w);
    AdvanceKeepsJob(canon, cfg, s.tables, s.log, b, s.jobs[k], r);
    forall x ensures RowOk(s'.log, s'.tables, x) {
      assert RowOk(s.log, s.tables, x);
      if x != w {
        OthersHistory(s.log, m.entry, w, x);
        OthersUnmoved(canon, cfg, s.tables, s.log, b, s.jobs[k], r, x);
      }
    }
  }

  /** Every step of every worker, publisher, restart and pruning keeps the protocol. */
  lemma StepKeepsInv(canon: Canon, cfg: Config, s: Sys, e: Event)
    requires Inv(canon, cfg, s) && Enabled(s, e)
    ensures Inv(canon, cfg, Apply(canon, cfg, s, e))
  {
    hide Settled, LastVerdict, LastCause, Recorded, Advance, Queue.Inv, Queue.Apply, Queue.Enabled;
    hide JobsOk, LedgerOk, Orderly, MemoryOk;
    match e
    case QueueStep(qe) => QueueKeepsInv(canon, cfg, s, qe);
    case Work(k, r) =>
      WorkKeepsJobs(canon, cfg, s, k, r);
      WorkKeepsLedger(canon, cfg, s, k, r);
      WorkKeepsMemory(canon, cfg, s, k, r);
    case Restart => RestartKeepsInv(canon, cfg, s);
    case PruneAnalyses(t, batch) => PruneAnalysesKeepsInv(canon, cfg, s, t, batch);
    case PruneTemplates(t, batch) => PruneTemplatesKeepsInv(canon, cfg, s, t, batch);
  }

  // ----- runs -----

  ghost predicate IsRun(canon: Canon, cfg: Config, s: Sys, es: seq<Event>)
    decreases |es|, 0
  {
    |s.jobs| == |s.q.workers|
    && (es == [] || (IsRun(canon, cfg, s, es[..|es| - 1])
                     && |Run(canon, cfg, s, es[..|es| - 1]).jobs| == |Run(canon, cfg, s, es[..|es| - 1]).q.workers|
                     && Enabled(Run(canon, cfg, s, es[..|es| - 1]), es[|es| - 1])))
  }

  ghost function Run(canon: Canon, cfg: Config, s: Sys, es: seq<Event>): Sys
    requires IsRun(canon, cfg, s, es)
    decreases |es|, 1
  {
    if es == [] then s else Apply(canon, cfg, Run(canon, cfg, s, es[..|es| - 1]), es[|es| - 1])
  }

  lemma {:induction false} RunKeepsInv(canon: Canon, cfg: Config, s: Sys, es: seq<Event>)
    requires Inv(canon, cfg, s) && IsRun(canon, cfg, s, es)
    ensures Inv(canon, cfg, Run(canon, cfg, s, es))
  {
    hide Inv, Apply, Enabled;
    if es != [] {
      RunKeepsInv(canon, cfg, s, es[..|es| - 1]);
      StepKeepsInv(canon, cfg, Run(canon, cfg, s, es[..|es| - 1]), es[|es| - 1]);
    }
  }

  /** History is only ever added to. */
  ghost predicate Extends(log: seq<Entry>, after: seq<Entry>) { |log| <= |after| && after[..|log|] == log }

  lemma StepExtends(canon: Canon, cfg: Config, s: Sys, e: Event)
    requires |s.jobs| == |s.q.workers| && Enabled(s, e)
    ensures Extends(s.log, Apply(canon, cfg, s, e).log)
  {
    hide Advance, Queue.Apply, Queue.Enabled, Queue.New;
  }

  lemma {:induction false} RunExtends(canon: Canon, cfg: Config, s: Sys, es: seq<Event>)
    requires IsRun(canon, cfg, s, es)
    ensures Extends(s.log, Run(canon, cfg, s, es).log)
  {
    hide Apply, Enabled;
    if es != [] {
      RunExtends(canon, cfg, s, es[..|es| - 1]);
      var before := Run(canon, cfg, s, es[..|es| - 1]);
      StepExtends(canon, cfg, before, es[|es| - 1]);
      var after := Run(canon, cfg, s, es);
      assert after.log[..|s.log|] == after.log[..|before.log|][..|s.log|];
    }
  }

  // ----- a completed window -----

  lemma {:induction false} SettledStays(log: seq<Entry>, i: nat, j: nat, w: Window)
    requires i < j <= |log| && log[i] == Completed(w)
    requires forall m :: i < m < j && log[m].Forgot? ==> w !in log[m].ws
    ensures Settled(log[..j], w)
    decreases j
  {
    assert log[..j][..j - 1] == log[..j - 1];
    if i < j - 1 { SettledStays(log, i, j - 1, w); }
  }

  /** Once a window is completed it is neither begun nor finalized again, in any run, until its row is pruned. */
  lemma CompletedOnce(canon: Canon, cfg: Config, s: Sys, es: seq<Event>, i: nat, j: nat, w: Window)
    requires Inv(canon, cfg, s) && IsRun(canon, cfg, s, es)
    requires var log := Run(canon, cfg, s, es).log;
             i < j < |log| && log[i] == Completed(w) && (log[j] == Began(w) || log[j] == Completed(w))
    ensures var log := Run(canon, cfg, s, es).log; exists m :: i < m < j && log[m].Forgot? && w in log[m].ws
  {
    RunKeepsInv(canon, cfg, s, es);
    var log := Run(canon, cfg, s, es).log;
    assert Allowed(canon, cfg, log[..j], log[j]);
    if forall m :: i < m < j && log[m].Forgot? ==> w !in log[m].ws { SettledStays(log, i, j, w); }
  }

  // ----- when a window is completed, and when the model is called -----

  /** Entry i is the latest of window w's attempt with nothing begun since, as seen from j. */
  ghost predicate SameAttempt(log: seq<Entry>, i: int, j: int, w: Window) {
    0 <= i < j <= |log| && forall m :: i < m < j ==> log[m] != Began(w)
  }

  lemma {:induction false} CauseWasLogged(log: seq<Entry>, w: Window)
    requires LastCause(log, w).Some?
    ensures exists i :: SameAttempt(log, i, |log|, w)
                        && (log[i] == Opened(w, LastCause(log, w).value)
                            || (log[i].Judged? && log[i].w == w && log[i].c == LastCause(log, w).value))
  {
    var init, e := log[..|log| - 1], log[|log| - 1];
    if (e.Opened? || e.Judged?) && e.w == w {
      assert SameAttempt(log, |log| - 1, |log|, w);
    } else {
      CauseWasLogged(init, w);
      var i :| SameAttempt(init, i, |init|, w)
               && (init[i] == Opened(w, LastCause(init, w).value)
                   || (init[i].Judged? && init[i].w == w && init[i].c == LastCause(init, w).value));
      assert forall m :: i < m < |init| ==> init[m] == log[m];
      assert SameAttempt(log, i, |log|, w) && log[i] == init[i];
    }
  }

  lemma {:induction false} RecordingWasLogged(log: seq<Entry>, w: Window)
    requires Recorded(log, w)
    ensures exists i :: SameAttempt(log, i, |log|, w) && log[i].Learned? && Queue.WindowOf(log[i].b) == w
  {
    var init, e := log[..|log| - 1], log[|log| - 1];
    if e.Learned? && Queue.WindowOf(e.b) == w {
      assert SameAttempt(log, |log| - 1, |log|, w);
    } else {
      RecordingWasLogged(init, w);
      var i :| SameAttempt(init, i, |init|, w) && init[i].Learned? && Queue.WindowOf(init[i].b) == w;
      assert forall m :: i < m < |init| ==> init[m] == log[m];
      assert SameAttempt(log, i, |log|, w) && log[i] == init[i];
    }
  }

  /** Entry i of j's attempt recorded the templates, or is a reply of the model that no retry can better. */
  ghost predicate EndsAttempt(log: seq<Entry>, i: int, j: int, w: Window) {
    && SameAttempt(log, i, j, w)
    && ((log[i].Learned? && Queue.WindowOf(log[i].b) == w)
        || (log[i].Judged? && log[i].w == w && log[i].c.ByModel? && BeyondRetry(log[i].c.r)))
  }

  lemma CompletionEndsAttempt(canon: Canon, cfg: Config, log: seq<Entry>, j: nat, w: Window)
    requires Orderly(canon, cfg, log) && j < |log| && log[j] == Completed(w)
    ensures exists i :: EndsAttempt(log, i, j, w)
  {
    assert Allowed(canon, cfg, log[..j], log[j]);
    hide Orderly, LastCause, Recorded, Settled, Pays, BeyondRetry;
    var before := log[..j];
    if Recorded(before, w) {
      RecordingWasLogged(before, w);
      var i :| SameAttempt(before, i, j, w) && before[i].Learned? && Queue.WindowOf(before[i].b) == w;
      SameAttemptIn(log, i, j, w);
      assert EndsAttempt(log, i, j, w);
    } else {
      var i := CauseEntry(canon, cfg, log, j, w);
      assert EndsAttempt(log, i, j, w);
    }
  }

  /** Where the answer the attempt rests on was logged; it opened the call if it is the budget's and led on. */
  lemma CauseEntry(canon: Canon, cfg: Config, log: seq<Entry>, j: nat, w: Window) returns (i: int)
    requires j <= |log| && LastCause(log[..j], w).Some?
    ensures SameAttempt(log, i, j, w) && (log[i].Opened? || log[i].Judged?) && log[i].w == w
    ensures log[i].c == LastCause(log[..j], w).value
  {
    var before, c := log[..j], LastCause(log[..j], w).value;
    CauseWasLogged(before, w);
    i :| SameAttempt(before, i, j, w)
         && (before[i] == Opened(w, c) || (before[i].Judged? && before[i].w == w && before[i].c == c));
    SameAttemptIn(log, i, j, w);
  }

  /** Over any run: a window is completed only by an attempt that recorded its templates, or whose model call was
      refused with a status of 400 to 499 other than 429 or gave an answer that cannot be read. A timeout, a 429 or a
      server error never completes one. */
  lemma CompletedOnlyWhenDone(canon: Canon, cfg: Config, s: Sys, es: seq<Event>, j: nat, w: Window)
    requires Inv(canon, cfg, s) && IsRun(canon, cfg, s, es)
    requires j < |Run(canon, cfg, s, es).log| && Run(canon, cfg, s, es).log[j] == Completed(w)
    ensures exists i :: EndsAttempt(Run(canon, cfg, s, es).log, i, j, w)
  {
    RunKeepsInv(canon, cfg, s, es);
    CompletionEndsAttempt(canon, cfg, Run(canon, cfg, s, es).log, j, w);
  }

  lemma SameAttemptIn(log: seq<Entry>, i: int, j: int, w: Window)
    requires 0 <= j <= |log| && SameAttempt(log[..j], i, j, w)
    ensures SameAttempt(log, i, j, w) && log[..j][i] == log[i]
  {
    assert forall m :: i < m < j ==> log[..j][m] == log[m];
  }

  /** The gate's answer for a bundle and what was known. */
  predicate GateCalls(canon: Canon, cfg: Config, c: Cause)
    requires c.ByBudget?
  {
    Gate.Decide(Gate.FactsOf(canon, c.b.templates), c.known, Gate.SilentBefore(c.b.start, cfg.gate.silence),
                c.securityOnly, cfg.gate).call
  }

  /** Entry i of j's attempt opened the call: no limit from the budget, and the gate asks for it. */
  ghost predicate OpensCall(canon: Canon, cfg: Config, log: seq<Entry>, i: int, j: int, w: Window) {
    && SameAttempt(log, i, j, w) && log[i].Opened? && log[i].w == w
    && log[i].c.ByBudget? && log[i].c.limit == "" && GateCalls(canon, cfg, log[i].c)
  }

  /** What entry j says of its attempt. */
  ghost predicate JudgedRightly(canon: Canon, cfg: Config, log: seq<Entry>, j: nat)
    requires j < |log| && log[j].Judged?
  {
    var e := log[j];
    && (e.c.ByModel? ==> exists i :: OpensCall(canon, cfg, log, i, j, e.w))
    && (e.c.ByBudget? ==> e.c.limit != "" || !GateCalls(canon, cfg, e.c))
    && (e.v == Suppressed <==> e.c.ByBudget? && e.c.limit != "")
    && (e.v == GatedOut <==> e.c.ByBudget? && e.c.limit == "")
    && (e.v == Answered <==> e.c.ByModel? && e.c.r.Answer?)
  }

  lemma JudgmentIsRight(canon: Canon, cfg: Config, log: seq<Entry>, j: nat)
    requires Orderly(canon, cfg, log) && j < |log| && log[j].Judged?
    ensures JudgedRightly(canon, cfg, log, j)
  {
    hide Gate.Decide, Gate.FactsOf, LastCause, LastVerdict, Recorded, Settled, SameAttempt;
    var w := log[j].w;
    assert Allowed(canon, cfg, log[..j], log[j]);
    if log[j].c.ByModel? {
      assert Paid(canon, cfg, log[..j], w);
      var i := CauseEntry(canon, cfg, log, j, w);
      assert Allowed(canon, cfg, log[..i], log[i]);
      assert Pays(canon, cfg, w, log[i].c);
      assert OpensCall(canon, cfg, log, i, j, w);
    }
  }

  /** Over any run: the model answers only an attempt for which the budget set no limit and the gate, on what was
      known when it read the memory, asked for the call; and a window is passed over without a call exactly if the
      budget set a limit or the gate did not ask. */
  lemma CalledOnlyWhereItPays(canon: Canon, cfg: Config, s: Sys, es: seq<Event>, j: nat)
    requires Inv(canon, cfg, s) && IsRun(canon, cfg, s, es)
    requires j < |Run(canon, cfg, s, es).log| && Run(canon, cfg, s, es).log[j].Judged?
    ensures JudgedRightly(canon, cfg, Run(canon, cfg, s, es).log, j)
  {
    RunKeepsInv(canon, cfg, s, es);
    JudgmentIsRight(canon, cfg, Run(canon, cfg, s, es).log, j);
  }

  // ----- what is remembered -----

  /** Every template any system is known to have sent was recorded by a window whose latest attempt was, at that
      moment, suppressed, gated out, or fully answered; never by one that had failed. */
  lemma KnownOnlyAfterJudgment(canon: Canon, cfg: Config, s: Sys, es: seq<Event>, tk: TemplateKey)
    requires Inv(canon, cfg, s) && IsRun(canon, cfg, s, es) && tk in Run(canon, cfg, s, es).tables.templates
    ensures var log := Run(canon, cfg, s, es).log;
            exists i :: 0 <= i < |log| && Teaches(canon, log[i], tk)
                        && var last := LastVerdict(log[..i], Queue.WindowOf(log[i].b));
                           last.Some? && last.value != Failed
  {
    RunKeepsInv(canon, cfg, s, es);
    var log := Run(canon, cfg, s, es).log;
    assert Taught(canon, log, tk);
    var i :| 0 <= i < |log| && Teaches(canon, log[i], tk);
    LearnedAfterJudgment(canon, cfg, log, i);
    hide Run, IsRun, Inv, Orderly, LastVerdict;
  }

  lemma LearnedAfterJudgment(canon: Canon, cfg: Config, log: seq<Entry>, i: int)
    requires Orderly(canon, cfg, log) && 0 <= i < |log| && log[i].Learned?
    ensures var last := LastVerdict(log[..i], Queue.WindowOf(log[i].b)); last.Some? && last.value != Failed
  {
    assert Allowed(canon, cfg, log[..i], log[i]);
    hide Orderly, LastVerdict, Settled, Recorded, LastCause, Warranted, Pays;
  }

  ghost predicate SameMemory(a: Templates, b: Templates, systemId: string) {
    forall k: TemplateKey :: k.systemId == systemId ==> (k in a <==> k in b) && (k in a ==> a[k] == b[k])
  }

  /** The entry neither records a window of the system nor prunes its rows of the memory. */
  predicate Quiet(e: Entry, systemId: string) {
    (e.Learned? ==> e.b.systemId != systemId) && (e.Trimmed? ==> forall k :: k in e.keys ==> k.systemId != systemId)
  }

  lemma StepKeepsMemory(canon: Canon, cfg: Config, s: Sys, e: Event, systemId: string)
    requires |s.jobs| == |s.q.workers| && Enabled(s, e)
    requires var log := Apply(canon, cfg, s, e).log; |log| > |s.log| ==> Quiet(log[|log| - 1], systemId)
    ensures SameMemory(s.tables.templates, Apply(canon, cfg, s, e).tables.templates, systemId)
  {
    hide Advance, Queue.Apply, Queue.Enabled, Queue.New, UpsertedAll;
    if e.Work? {
      var b, m := s.q.workers[e.k].b, Worked(canon, cfg, s, e.k, e.r);
      AdvanceTemplates(canon, cfg, s.tables, b, s.jobs[e.k], e.r);
      if m.entry.Some? && m.entry.value.Learned? {
        forall k: TemplateKey | k.systemId == systemId
          ensures (k in s.tables.templates <==> k in m.tables.templates)
               && (k in s.tables.templates ==> s.tables.templates[k] == m.tables.templates[k]) {
          UpsertsTouchOnlyTheSystem(canon, s.tables.templates, b.systemId, b.templates, e.r.now, k);
        }
      }
    }
  }

  lemma {:induction false} RunKeepsMemory(canon: Canon, cfg: Config, s: Sys, es: seq<Event>, systemId: string)
    requires IsRun(canon, cfg, s, es)
    requires var log := Run(canon, cfg, s, es).log; forall i :: |s.log| <= i < |log| ==> Quiet(log[i], systemId)
    ensures SameMemory(s.tables.templates, Run(canon, cfg, s, es).tables.templates, systemId)
  {
    assert forall i :: |s.log| <= i < |Run(canon, cfg, s, es).log| ==> Quiet(Run(canon, cfg, s, es).log[i], systemId);
    hide Apply, Enabled;
    if es != [] {
      var before, after := Run(canon, cfg, s, es[..|es| - 1]), Run(canon, cfg, s, es);
      assert after == Apply(canon, cfg, before, es[|es| - 1]);
      RunExtends(canon, cfg, s, es[..|es| - 1]);
      StepExtends(canon, cfg, before, es[|es| - 1]);
      forall i | |s.log| <= i < |before.log| ensures Quiet(before.log[i], systemId) {
        assert after.log[..|before.log|][i] == after.log[i];
        assert Quiet(after.log[i], systemId);
      }
      if |after.log| > |before.log| { assert Quiet(after.log[|after.log| - 1], systemId); }
      RunKeepsMemory(canon, cfg, s, es[..|es| - 1], systemId);
      StepKeepsMemory(canon, cfg, before, es[|es| - 1], systemId);
    }
  }

  lemma SameMemorySameTimes(canon: Canon, a: Templates, b: Templates, systemId: string, key: string)
    requires SameMemory(a, b, systemId)
    ensures Times(canon, a, systemId, key) <= Times(canon, b, systemId, key)
  {
    forall n | n in Times(canon, a, systemId, key) ensures n in Times(canon, b, systemId, key) {
      var k :| k in a && Tells(canon, a, systemId, k, key) && a[k].lastSeen == n;
      assert Tells(canon, b, systemId, k, key) && b[k].lastSeen == n;
    }
  }

  lemma SameMemorySameKnown(canon: Canon, a: Templates, b: Templates, systemId: string)
    requires SameMemory(a, b, systemId)
    ensures Known(canon, a, systemId) == Known(canon, b, systemId)
  {
    hide Known;
    forall key ensures key in Known(canon, a, systemId) <==> key in Known(canon, b, systemId)
               ensures key in Known(canon, a, systemId) && key in Known(canon, b, systemId)
                       ==> Known(canon, a, systemId)[key] == Known(canon, b, systemId)[key] {
      SameMemorySameTimes(canon, a, b, systemId, key);
      SameMemorySameTimes(canon, b, a, systemId, key);
      KnownIsGreatest(canon, a, systemId, key);
      KnownIsGreatest(canon, b, systemId, key);
    }
  }

  lemma {:induction false} VerdictStays(log: seq<Entry>, n: nat, w: Window)
    requires n <= |log| && LastVerdict(log[..n], w) == None
    requires forall i :: n <= i < |log| && log[i].Judged? && log[i].w == w ==> log[i].v == Failed
    ensures LastVerdict(log, w) == None || LastVerdict(log, w) == Some(Failed)
    decreases |log|
  {
    if n == |log| {
      assert log[..n] == log;
    } else {
      assert log[..|log| - 1][..n] == log[..n];
      VerdictStays(log[..|log| - 1], n, w);
    }
  }

  lemma {:induction false} UnsettledStays(log: seq<Entry>, n: nat, w: Window)
    requires n <= |log| && !Settled(log[..n], w)
    requires forall i :: n <= i < |log| ==> log[i] != Completed(w)
    ensures !Settled(log, w)
    decreases |log|
  {
    if n == |log| {
      assert log[..n] == log;
    } else {
      assert log[..|log| - 1][..n] == log[..n];
      UnsettledStays(log[..|log| - 1], n, w);
    }
  }

  /** The entry is neither a success for b's window, nor a record of another window of its system, nor a pruning
      of the system's rows of the memory. */
  predicate NoSuccess(e: Entry, b: Bundle) {
    match e
    case Judged(w, v, _) => w == Queue.WindowOf(b) ==> v == Failed
    case Learned(c, _) => c.systemId == b.systemId ==> Queue.WindowOf(c) == Queue.WindowOf(b)
    case Trimmed(keys) => forall k :: k in keys ==> k.systemId != b.systemId
    case _ => true
  }

  lemma StaysQuiet(canon: Canon, cfg: Config, log: seq<Entry>, n: nat, b: Bundle, i: nat)
    requires n <= i < |log| && Orderly(canon, cfg, log) && LastVerdict(log[..n], Queue.WindowOf(b)) == None
    requires forall j :: n <= j < |log| ==> NoSuccess(log[j], b)
    ensures Quiet(log[i], b.systemId)
  {
    hide LastVerdict;
    var e, w := log[i], Queue.WindowOf(b);
    assert NoSuccess(e, b) && Allowed(canon, cfg, log[..i], e);
    if e.Learned? && e.b.systemId == b.systemId {
      assert log[..i][..n] == log[..n];
      forall j | n <= j < i && log[..i][j].Judged? && log[..i][j].w == w ensures log[..i][j].v == Failed {
        assert NoSuccess(log[j], b);
      }
      VerdictStays(log[..i], n, w);
    }
  }

  /** The same window sent again, its templates in any order and with any counts. */
  ghost predicate Resends(canon: Canon, b: Bundle, b': Bundle) {
    b'.systemId == b.systemId && b'.start == b.start
    && Gate.FactsOf(canon, b'.templates) == Gate.FactsOf(canon, b.templates)
  }

  /** A worker has claimed bundle b's window and is about to read what its system has sent before. However the
      attempt then fails, and whatever happens next, as long as no attempt on that window succeeds, no other
      window of the system is recorded and none of its rows of the memory is pruned, a retry reads the same
      memory and the gate decides the same. Nor is the window lost to a transient failure: it stays claimable
      until an attempt completes it. */
  lemma RetrySeesTheSameNovelty(canon: Canon, cfg: Config, s: Sys, es: seq<Event>, k: nat)
    requires Inv(canon, cfg, s) && IsRun(canon, cfg, s, es)
    requires k < |s.jobs| && s.q.workers[k].Handling? && s.jobs[k] == Reading
    requires var b, log := s.q.workers[k].b, Run(canon, cfg, s, es).log;
             forall i :: |s.log| <= i < |log| ==> NoSuccess(log[i], b)
    ensures var b, s' := s.q.workers[k].b, Run(canon, cfg, s, es);
            Known(canon, s'.tables.templates, b.systemId) == Known(canon, s.tables.templates, b.systemId)
    ensures var b, s' := s.q.workers[k].b, Run(canon, cfg, s, es);
            forall b', only :: Resends(canon, b, b') ==>
              Decision(canon, cfg, b', Known(canon, s'.tables.templates, b'.systemId), only)
              == Decision(canon, cfg, b, Known(canon, s.tables.templates, b.systemId), only)
    ensures var b, s' := s.q.workers[k].b, Run(canon, cfg, s, es);
            (forall i :: |s.log| <= i < |s'.log| ==> s'.log[i] != Completed(Queue.WindowOf(b)))
            ==> Claimable(s'.tables, Queue.WindowOf(b))
  {
    hide Apply, Enabled, Queue.Inv, Known, Settled, LastVerdict, Gate.Decide, Gate.FactsOf;
    var b, s' := s.q.workers[k].b, Run(canon, cfg, s, es);
    var w := Queue.WindowOf(b);
    RunKeepsInv(canon, cfg, s, es);
    RunExtends(canon, cfg, s, es);
    assert JobOk(canon, cfg, s.log, w, s.jobs[k]);
    forall i | |s.log| <= i < |s'.log| ensures Quiet(s'.log[i], b.systemId) {
      StaysQuiet(canon, cfg, s'.log, |s.log|, b, i);
    }
    RunKeepsMemory(canon, cfg, s, es, b.systemId);
    SameMemorySameKnown(canon, s.tables.templates, s'.tables.templates, b.systemId);
    if forall i :: |s.log| <= i < |s'.log| ==> s'.log[i] != Completed(w) {
      UnsettledStays(s'.log, |s.log|, w);
      assert RowOk(s'.log, s'.tables, w);
    }
  }
}
