/** Process: one bundle taken through the store, step by step, in the order that keeps a failure retryable. */
module Analyzer {
  import opened Model
  import opened Ledger
  import opened Pipeline
  import Gate
  import Queue

  /** What the world answers to each step in turn. */
  type World = nat -> Reply

  /** The tables and the phase after n uninterrupted steps. */
  ghost function After(canon: Canon, cfg: Pipeline.Config, t: Tables, b: Bundle, world: World, n: nat)
    : (Tables, Phase)
  {
    if n == 0 then (t, Beginning)
    else
      var (now, phase) := After(canon, cfg, t, b, world, n - 1);
      var m := Advance(canon, cfg, now, b, phase, world(n - 1));
      (m.tables, m.phase)
  }

  lemma OneMore(canon: Canon, cfg: Pipeline.Config, t: Tables, b: Bundle, world: World, n: nat)
    ensures var (now, phase) := After(canon, cfg, t, b, world, n);
            var m := Advance(canon, cfg, now, b, phase, world(n));
            After(canon, cfg, t, b, world, n + 1) == (m.tables, m.phase)
  {
  }

  function Works(k: nat, world: World, n: nat): seq<Event> {
    if n == 0 then [] else Works(k, world, n - 1) + [Work(k, world(n - 1))]
  }

  /** Uninterrupted processing is a run of the whole system in which only worker k moves. */
  lemma {:induction false} ProcessIsARun(canon: Canon, cfg: Pipeline.Config, s: Sys, k: nat, world: World, n: nat)
    requires |s.jobs| == |s.q.workers| && k < |s.jobs| && s.q.workers[k].Handling? && s.jobs[k] == Beginning
    ensures IsRun(canon, cfg, s, Works(k, world, n))
    ensures var s' := Run(canon, cfg, s, Works(k, world, n));
            && s'.q == s.q && |s'.jobs| == |s.jobs|
            && (s'.tables, s'.jobs[k]) == After(canon, cfg, s.tables, s.q.workers[k].b, world, n)
  {
    hide Apply, Advance, Enabled;
    if n > 0 {
      ProcessIsARun(canon, cfg, s, k, world, n - 1);
      var es := Works(k, world, n);
      assert es[..|es| - 1] == Works(k, world, n - 1) && es[|es| - 1] == Work(k, world(n - 1));
      WorkMovesOnlyItsJob(canon, cfg, Run(canon, cfg, s, Works(k, world, n - 1)), k, world(n - 1));
    }
  }

  lemma WorkMovesOnlyItsJob(canon: Canon, cfg: Pipeline.Config, s: Sys, k: nat, r: Reply)
    requires |s.jobs| == |s.q.workers| && k < |s.jobs| && s.q.workers[k].Handling?
    ensures Enabled(s, Work(k, r))
    ensures var m := Advance(canon, cfg, s.tables, s.q.workers[k].b, s.jobs[k], r);
            var s' := Apply(canon, cfg, s, Work(k, r));
            s'.q == s.q && |s'.jobs| == |s.jobs| && s'.tables == m.tables && s'.jobs[k] == m.phase
  {
    hide Advance;
  }

  // ----- how an attempt can end, in terms of the replies and the tables -----

  predicate Finished(t: Tables, w: Window) { w in t.analyses && t.analyses[w].completed }

  /** The claim succeeds: the store answers and the window has no completed row. */
  predicate Claims(t0: Tables, b: Bundle, world: World) { world(0).Done? && !Finished(t0, Queue.WindowOf(b)) }

  /** The system, its nodes and its findings are written, the memory is read, and the budget answers. */
  predicate Weighs(t0: Tables, b: Bundle, world: World) {
    Claims(t0, b, world) && world(1).Done? && world(2).Done? && world(3).Budget?
  }

  /** The gate's decision on what the memory held when the attempt began. */
  ghost function Gated(canon: Canon, cfg: Pipeline.Config, t0: Tables, b: Bundle, world: World): Gate.Decision
    requires world(3).Budget?
  {
    Gate.Decide(Gate.FactsOf(canon, b.templates), Known(canon, t0.templates, b.systemId),
                Gate.SilentBefore(b.start, cfg.gate.silence), world(3).securityOnly, cfg.gate)
  }

  /** The model is called: the budget sets no limit and the gate asks. */
  ghost predicate Calls(canon: Canon, cfg: Pipeline.Config, t0: Tables, b: Bundle, world: World) {
    Weighs(t0, b, world) && world(3).limit == "" && Gated(canon, cfg, t0, b, world).call
  }

  ghost predicate AllDone(world: World, k: nat, n: nat) { forall i :: k <= i < k + n ==> world(i).Done? }

  /** The row as the claim leaves it: taken over with what earlier attempts noted, or new. */
  function ClaimedRow(t0: Tables, b: Bundle, world: World): Analysis
    requires world(0).Done?
  {
    var w := Queue.WindowOf(b);
    if w in t0.analyses then t0.analyses[w].(windowEnd := b.end, createdAt := world(0).now)
    else Analysis(b.end, world(0).now, false, false, [], false, Usage(0, 0, 0, 0, ""), "", "")
  }

  /** Claimed and not completed; what an earlier attempt noted is still there. */
  predicate Unfinished(t0: Tables, b: Bundle, world: World, row: Analysis) {
    world(0).Done? && row == ClaimedRow(t0, b, world) && !row.completed
  }

  /** The memory is the old one, or has the window's templates as recorded with reply k. */
  ghost predicate Remembers(canon: Canon, t0: Tables, b: Bundle, world: World, t: Tables, k: nat) {
    t.templates == (if world(k).Done? then UpsertedAll(canon, t0.templates, b.systemId, b.templates, world(k).now)
                    else t0.templates)
  }

  /** The three calls that record a window: its templates, the stale findings, and last the row. */
  ghost predicate Records(canon: Canon, t0: Tables, b: Bundle, world: World, t: Tables, ok: bool, k: nat)
    requires Queue.WindowOf(b) in t.analyses
  {
    && Remembers(canon, t0, b, world, t, k)
    && (ok <==> world(k).Done? && world(k + 1).Done? && world(k + 2).Done?)
    && (!ok ==> Unfinished(t0, b, world, t.analyses[Queue.WindowOf(b)]))
  }

  /** Suppressed or gated out: recorded without a call. */
  ghost predicate EndsUncalled(canon: Canon, cfg: Pipeline.Config, t0: Tables, b: Bundle, world: World, t: Tables,
                               ok: bool)
    requires world(0).Done? && world(3).Budget? && Queue.WindowOf(b) in t.analyses
  {
    var limit := world(3).limit;
    var reasons := if limit != "" then [] else Gated(canon, cfg, t0, b, world).reasons;
    && Records(canon, t0, b, world, t, ok, 4)
    && (ok ==> t.analyses[Queue.WindowOf(b)]
               == Analysis(b.end, world(0).now, true, true, reasons, false, Usage(0, 0, 0, 0, ""), "", limit))
  }

  /** The call fails, or its answer cannot be read. A failure with a status of 400 to 499 other than 429, or an
      unreadable answer, completes the window with its error; any other leaves it claimable with the error noted.
      Nothing is recorded in the memory either way, and without the store nothing in the row. */
  ghost predicate EndsFailed(canon: Canon, cfg: Pipeline.Config, t0: Tables, b: Bundle, world: World, t: Tables,
                             ok: bool)
    requires world(0).Done? && world(3).Budget? && (world(4).CallFailed? || world(4).Unparsable?)
    requires Queue.WindowOf(b) in t.analyses
  {
    var row, msg, reasons := t.analyses[Queue.WindowOf(b)], world(4).msg, Gated(canon, cfg, t0, b, world).reasons;
    var spent := if world(4).Unparsable? then Usage(world(4).input, world(4).output, 0, 0, cfg.model)
                 else Usage(0, 0, 0, 0, cfg.model);
    && !ok && t.templates == t0.templates
    && if !world(5).Done? then Unfinished(t0, b, world, row)
       else if world(4).Unparsable?
               || (world(4).status.Some? && 400 <= world(4).status.value <= 499 && world(4).status.value != 429)
       then row == Analysis(b.end, world(0).now, true, false, reasons, true, spent, msg, "")
       else Unfinished(t0, b, world, row.(llmCalled := ClaimedRow(t0, b, world).llmCalled,
                                          error := ClaimedRow(t0, b, world).error,
                                          reasons := ClaimedRow(t0, b, world).reasons))
            && row.llmCalled && row.error == msg && row.reasons == reasons
  }

  /** The model answers with findings: they are stored one by one, then the window is recorded. */
  ghost predicate EndsAnswered(canon: Canon, cfg: Pipeline.Config, t0: Tables, b: Bundle, world: World, t: Tables,
                               ok: bool)
    requires world(0).Done? && world(3).Budget? && world(4).Answer? && Queue.WindowOf(b) in t.analyses
  {
    var row, k, a := t.analyses[Queue.WindowOf(b)], 6 + world(4).findings, world(4);
    var cached := if a.cached > a.input then a.input else a.cached;
    && (AllDone(world, 5, k - 5) ==> Records(canon, t0, b, world, t, ok, k))
    && (!AllDone(world, 5, k - 5) ==> !ok && Unfinished(t0, b, world, row) && t.templates == t0.templates)
    && (ok ==> row == Analysis(b.end, world(0).now, true, false, Gated(canon, cfg, t0, b, world).reasons, true,
                               Usage(a.input, a.output, cached, a.costMicros, a.model), "", ""))
  }

  /** Nothing of any other window or system changes. */
  ghost predicate OthersKept(t0: Tables, t: Tables, b: Bundle) {
    && (forall x :: x != Queue.WindowOf(b) ==> (x in t.analyses <==> x in t0.analyses))
    && (forall x :: x != Queue.WindowOf(b) && x in t.analyses ==> t.analyses[x] == t0.analyses[x])
  }

  /** All the ways an attempt ends. */
  ghost predicate Ends(canon: Canon, cfg: Pipeline.Config, t0: Tables, b: Bundle, world: World, t: Tables, ok: bool) {
    var w := Queue.WindowOf(b);
    && OthersKept(t0, t, b)
    && (!Claims(t0, b, world) ==> t == t0 && (ok <==> world(0).Done?))
    && (Claims(t0, b, world) ==> w in t.analyses)
    && (Claims(t0, b, world) && !Weighs(t0, b, world) ==>
          !ok && t.templates == t0.templates && Unfinished(t0, b, world, t.analyses[w]))
    && (Weighs(t0, b, world) && !Calls(canon, cfg, t0, b, world) ==> EndsUncalled(canon, cfg, t0, b, world, t, ok))
    && (Calls(canon, cfg, t0, b, world) ==>
          if world(4).CallFailed? || world(4).Unparsable? then EndsFailed(canon, cfg, t0, b, world, t, ok)
          else if world(4).Answer? then EndsAnswered(canon, cfg, t0, b, world, t, ok)
          else !ok && t.templates == t0.templates && Unfinished(t0, b, world, t.analyses[w]))
  }

  // ----- why these are all -----

  /** Claimed, with nothing else written yet. */
  ghost predicate JustClaimed(t0: Tables, b: Bundle, world: World, t: Tables) {
    && OthersKept(t0, t, b) && t.templates == t0.templates && Claims(t0, b, world)
    && Queue.WindowOf(b) in t.analyses && Unfinished(t0, b, world, t.analyses[Queue.WindowOf(b)])
  }

  /** Where the recording of a path starts, and that the replies so far lead there. */
  ghost predicate OnPath(canon: Canon, cfg: Pipeline.Config, t0: Tables, b: Bundle, world: World, p: Path, k: nat) {
    && Weighs(t0, b, world)
    && match p
       case BudgetPath(limit) => k == 4 && limit != "" && limit == world(3).limit
       case GatePath(reasons) =>
         && k == 4 && world(3).limit == "" && !Gated(canon, cfg, t0, b, world).call
         && reasons == Gated(canon, cfg, t0, b, world).reasons
       case FullPath(reasons, usage) =>
         && Calls(canon, cfg, t0, b, world) && world(4).Answer? && k == 6 + world(4).findings
         && reasons == Gated(canon, cfg, t0, b, world).reasons && usage == Usages(world(4)) && AllDone(world, 5, k - 5)
  }

  /** What the n-th step starts from. */
  ghost predicate Placed(canon: Canon, cfg: Pipeline.Config, t0: Tables, b: Bundle, world: World, n: nat, t: Tables,
                         phase: Phase) {
    var now := JustClaimed(t0, b, world, t);
    match phase
    case Beginning => n == 0 && t == t0
    case Registering => n == 1 && now
    case Reading => n == 2 && now && world(1).Done?
    case Budgeting(known) =>
      n == 3 && now && world(1).Done? && world(2).Done? && known == Known(canon, t0.templates, b.systemId)
    case Asking(d) => n == 4 && now && Calls(canon, cfg, t0, b, world) && d == Gated(canon, cfg, t0, b, world)
    case NotingError(reasons, msg) =>
      && n == 5 && now && Calls(canon, cfg, t0, b, world) && world(4).CallFailed? && !BeyondRetry(world(4))
      && msg == world(4).msg && reasons == Gated(canon, cfg, t0, b, world).reasons
    case Closing(o) =>
      && n == 5 && now && Calls(canon, cfg, t0, b, world) && BeyondRetry(world(4))
      && !o.gated && o.llmCalled && o.error == world(4).msg && o.suppressedBy == ""
      && o.reasons == Gated(canon, cfg, t0, b, world).reasons
      && o.usage == Usage(if world(4).Unparsable? then world(4).input else 0,
                          if world(4).Unparsable? then world(4).output else 0, 0, 0, cfg.model)
    case Persisting(reasons, usage, left) =>
      && now && Calls(canon, cfg, t0, b, world) && world(4).Answer? && left <= world(4).findings
      && n == 5 + (world(4).findings - left) && AllDone(world, 5, n - 5)
      && reasons == Gated(canon, cfg, t0, b, world).reasons && usage == Usages(world(4))
    case Recording(p) => now && OnPath(canon, cfg, t0, b, world, p, n)
    case Marking(p) =>
      && n > 0 && OnPath(canon, cfg, t0, b, world, p, n - 1) && world(n - 1).Done?
      && JustClaimed(t0, b, world, t.(templates := t0.templates)) && Remembers(canon, t0, b, world, t, n - 1)
    case Finalizing(p) =>
      && n > 1 && OnPath(canon, cfg, t0, b, world, p, n - 2) && world(n - 2).Done? && world(n - 1).Done?
      && JustClaimed(t0, b, world, t.(templates := t0.templates)) && Remembers(canon, t0, b, world, t, n - 2)
    case Over(ok) => Ends(canon, cfg, t0, b, world, t, ok)
  }

  lemma BeginningIsPlaced(canon: Canon, cfg: Pipeline.Config, t0: Tables, b: Bundle, world: World)
    ensures Placed(canon, cfg, t0, b, world, 0, t0, Beginning)
  {
  }

  lemma ClaimIsPlaced(canon: Canon, cfg: Pipeline.Config, t0: Tables, b: Bundle, world: World, n: nat, t: Tables,
                      phase: Phase)
    requires phase.Beginning? && Placed(canon, cfg, t0, b, world, n, t, phase)
    ensures var m := Advance(canon, cfg, t, b, phase, world(n));
            Placed(canon, cfg, t0, b, world, n + 1, m.tables, m.phase)
  {
    hide Known, Gate.Decide, Gate.FactsOf;
  }

  lemma ReadIsPlaced(canon: Canon, cfg: Pipeline.Config, t0: Tables, b: Bundle, world: World, n: nat, t: Tables,
                     phase: Phase)
    requires (phase.Registering? || phase.Reading?) && Placed(canon, cfg, t0, b, world, n, t, phase)
    ensures var m := Advance(canon, cfg, t, b, phase, world(n));
            Placed(canon, cfg, t0, b, world, n + 1, m.tables, m.phase)
  {
    hide Known, Gate.Decide, Gate.FactsOf;
  }

  lemma WeighIsPlaced(canon: Canon, cfg: Pipeline.Config, t0: Tables, b: Bundle, world: World, n: nat, t: Tables,
                      phase: Phase)
    requires phase.Budgeting? && Placed(canon, cfg, t0, b, world, n, t, phase)
    ensures var m := Advance(canon, cfg, t, b, phase, world(n));
            Placed(canon, cfg, t0, b, world, n + 1, m.tables, m.phase)
  {
    hide Known, Gate.Decide, Gate.FactsOf;
  }

  lemma AskIsPlaced(canon: Canon, cfg: Pipeline.Config, t0: Tables, b: Bundle, world: World, n: nat, t: Tables,
                    phase: Phase)
    requires phase.Asking? && Placed(canon, cfg, t0, b, world, n, t, phase)
    ensures var m := Advance(canon, cfg, t, b, phase, world(n));
            Placed(canon, cfg, t0, b, world, n + 1, m.tables, m.phase)
  {
    hide Known, Gate.Decide, Gate.FactsOf, Gated;
  }

  lemma NotedIsPlaced(canon: Canon, cfg: Pipeline.Config, t0: Tables, b: Bundle, world: World, n: nat, t: Tables,
                      phase: Phase)
    requires phase.NotingError? && Placed(canon, cfg, t0, b, world, n, t, phase)
    ensures var m := Advance(canon, cfg, t, b, phase, world(n));
            Placed(canon, cfg, t0, b, world, n + 1, m.tables, m.phase)
  {
    hide Known, Gate.Decide, Gate.FactsOf, Gated;
  }

  lemma ClosedIsPlaced(canon: Canon, cfg: Pipeline.Config, t0: Tables, b: Bundle, world: World, n: nat, t: Tables,
                       phase: Phase)
    requires phase.Closing? && Placed(canon, cfg, t0, b, world, n, t, phase)
    ensures var m := Advance(canon, cfg, t, b, phase, world(n));
            Placed(canon, cfg, t0, b, world, n + 1, m.tables, m.phase)
  {
    hide Known, Gate.Decide, Gate.FactsOf, Gated;
  }

  lemma PersistIsPlaced(canon: Canon, cfg: Pipeline.Config, t0: Tables, b: Bundle, world: World, n: nat, t: Tables,
                        phase: Phase)
    requires phase.Persisting? && Placed(canon, cfg, t0, b, world, n, t, phase)
    ensures var m := Advance(canon, cfg, t, b, phase, world(n));
            Placed(canon, cfg, t0, b, world, n + 1, m.tables, m.phase)
  {
    hide Known, Gate.Decide, Gate.FactsOf, Gated;
  }

  lemma RecordIsPlaced(canon: Canon, cfg: Pipeline.Config, t0: Tables, b: Bundle, world: World, n: nat, t: Tables,
                       phase: Phase)
    requires (phase.Recording? || phase.Marking?) && Placed(canon, cfg, t0, b, world, n, t, phase)
    ensures var m := Advance(canon, cfg, t, b, phase, world(n));
            Placed(canon, cfg, t0, b, world, n + 1, m.tables, m.phase)
  {
    hide Known, Gate.Decide, Gate.FactsOf, Gated, UpsertedAll;
  }

  lemma FinalIsPlaced(canon: Canon, cfg: Pipeline.Config, t0: Tables, b: Bundle, world: World, n: nat, t: Tables,
                      phase: Phase)
    requires phase.Finalizing? && Placed(canon, cfg, t0, b, world, n, t, phase)
    ensures var m := Advance(canon, cfg, t, b, phase, world(n));
            Placed(canon, cfg, t0, b, world, n + 1, m.tables, m.phase)
  {
    var p := phase.path;
    assert phase == Finalizing(p);
    FinalAdvances(canon, cfg, t, b, p, world(n));
    if world(n).Done? {
      FinalCompletes(canon, cfg, t0, b, world, n, t, p);
      OverIsPlaced(canon, cfg, t0, b, world, n + 1, Finalized(t, Queue.WindowOf(b), OutcomeOf(p)), true);
    } else {
      FinalFails(canon, cfg, t0, b, world, n, t, p);
      OverIsPlaced(canon, cfg, t0, b, world, n + 1, t, false);
    }
    hide *;
  }

  lemma FinalAdvances(canon: Canon, cfg: Pipeline.Config, t: Tables, b: Bundle, p: Path, r: Reply)
    ensures var m := Advance(canon, cfg, t, b, Finalizing(p), r);
            && m.tables == (if r.Done? then Finalized(t, Queue.WindowOf(b), OutcomeOf(p)) else t)
            && m.phase == Over(r.Done?)
  {
    hide UpsertedAll, Known, Decision, Finalized, OutcomeOf;
  }

  lemma OverIsPlaced(canon: Canon, cfg: Pipeline.Config, t0: Tables, b: Bundle, world: World, n: nat, t: Tables,
                     ok: bool)
    requires Ends(canon, cfg, t0, b, world, t, ok)
    ensures Placed(canon, cfg, t0, b, world, n, t, Over(ok))
  {
    hide Ends;
  }

  lemma FinalFails(canon: Canon, cfg: Pipeline.Config, t0: Tables, b: Bundle, world: World, n: nat, t: Tables, p: Path)
    requires Placed(canon, cfg, t0, b, world, n, t, Finalizing(p)) && !world(n).Done?
    ensures Ends(canon, cfg, t0, b, world, t, false)
  {
    hide Known, Gate.Decide, Gate.FactsOf, Gated, UpsertedAll;
  }

  lemma FinalCompletes(canon: Canon, cfg: Pipeline.Config, t0: Tables, b: Bundle, world: World, n: nat, t: Tables,
                       p: Path)
    requires Placed(canon, cfg, t0, b, world, n, t, Finalizing(p)) && world(n).Done?
    ensures Ends(canon, cfg, t0, b, world, Finalized(t, Queue.WindowOf(b), OutcomeOf(p)), true)
  {
    hide Known, Gate.Decide, Gate.FactsOf, Gated, UpsertedAll;
  }

  lemma StepIsPlaced(canon: Canon, cfg: Pipeline.Config, t0: Tables, b: Bundle, world: World, n: nat, t: Tables,
                     phase: Phase)
    requires Placed(canon, cfg, t0, b, world, n, t, phase)
    ensures var m := Advance(canon, cfg, t, b, phase, world(n));
            Placed(canon, cfg, t0, b, world, n + 1, m.tables, m.phase)
  {
    match phase
    case Beginning => ClaimIsPlaced(canon, cfg, t0, b, world, n, t, phase);
    case Registering => ReadIsPlaced(canon, cfg, t0, b, world, n, t, phase);
    case Reading => ReadIsPlaced(canon, cfg, t0, b, world, n, t, phase);
    case Budgeting(_) => WeighIsPlaced(canon, cfg, t0, b, world, n, t, phase);
    case Asking(_) => AskIsPlaced(canon, cfg, t0, b, world, n, t, phase);
    case NotingError(_, _) => NotedIsPlaced(canon, cfg, t0, b, world, n, t, phase);
    case Closing(_) => ClosedIsPlaced(canon, cfg, t0, b, world, n, t, phase);
    case Persisting(_, _, _) => PersistIsPlaced(canon, cfg, t0, b, world, n, t, phase);
    case Recording(_) => RecordIsPlaced(canon, cfg, t0, b, world, n, t, phase);
    case Marking(_) => RecordIsPlaced(canon, cfg, t0, b, world, n, t, phase);
    case Finalizing(_) => FinalIsPlaced(canon, cfg, t0, b, world, n, t, phase);
    case Over(_) => OverStays(canon, cfg, t0, b, world, n, t, phase);
    hide *;
  }

  lemma OverStays(canon: Canon, cfg: Pipeline.Config, t0: Tables, b: Bundle, world: World, n: nat, t: Tables,
                  phase: Phase)
    requires phase.Over? && Placed(canon, cfg, t0, b, world, n, t, phase)
    ensures var m := Advance(canon, cfg, t, b, phase, world(n));
            Placed(canon, cfg, t0, b, world, n + 1, m.tables, m.phase)
  {
    hide Ends, UpsertedAll, Known, Decision;
  }

  lemma {:induction false} AfterIsPlaced(canon: Canon, cfg: Pipeline.Config, t0: Tables, b: Bundle, world: World,
                                         n: nat)
    ensures var (t, phase) := After(canon, cfg, t0, b, world, n); Placed(canon, cfg, t0, b, world, n, t, phase)
  {
    hide Placed, Advance;
    if n == 0 {
      BeginningIsPlaced(canon, cfg, t0, b, world);
    } else {
      AfterIsPlaced(canon, cfg, t0, b, world, n - 1);
      var (t, phase) := After(canon, cfg, t0, b, world, n - 1);
      StepIsPlaced(canon, cfg, t0, b, world, n - 1, t, phase);
    }
  }

  class Analyzer {
    const store: Store
    const canon: Canon
    const cfg: Pipeline.Config

    constructor (store: Store, canon: Canon, cfg: Pipeline.Config)
      ensures this.store == store && this.canon == canon && this.cfg == cfg
    {
      this.store, this.canon, this.cfg := store, canon, cfg;
    }

    /** Templates, then stale findings, then the ledger row: only after a window was gated out, suppressed, or
        fully analysed. */
    method Record(b: Bundle, path: Path, world: World, n0: nat, ghost t0: Tables) returns (ok: bool, n: nat)
      requires After(canon, cfg, t0, b, world, n0) == (store.View(), Recording(path))
      modifies store
      ensures After(canon, cfg, t0, b, world, n) == (store.View(), Over(ok))
    {
      hide UpsertedAll, Known, Decision, Asked, After;
      n := n0 + 1;
      OneMore(canon, cfg, t0, b, world, n0);
      if !world(n0).Done? { return false, n; }
      store.UpsertTemplates(canon, b.systemId, b.templates, world(n0).now);
      assert After(canon, cfg, t0, b, world, n0 + 1) == (store.View(), Marking(path));
      n := n0 + 2;
      OneMore(canon, cfg, t0, b, world, n0 + 1);
      if !world(n0 + 1).Done? { return false, n; }
      assert After(canon, cfg, t0, b, world, n0 + 2) == (store.View(), Finalizing(path));
      n := n0 + 3;
      OneMore(canon, cfg, t0, b, world, n0 + 2);
      if !world(n0 + 2).Done? { return false, n; }
      store.FinalizeAnalysis(Queue.WindowOf(b), OutcomeOf(path));
      return true, n;
    }

    /** A failure that will recur identically closes the window, without recording its templates. */
    method Close(b: Bundle, o: Outcome, world: World, n0: nat, ghost t0: Tables) returns (ok: bool, n: nat)
      requires After(canon, cfg, t0, b, world, n0) == (store.View(), Closing(o))
      modifies store
      ensures After(canon, cfg, t0, b, world, n) == (store.View(), Over(ok)) && !ok
    {
      hide UpsertedAll, Known, Decision;
      if world(n0).Done? { store.FinalizeAnalysis(Queue.WindowOf(b), o); }
      return false, n0 + 1;
    }

    method NoteError(b: Bundle, reasons: seq<string>, msg: string, world: World, n0: nat, ghost t0: Tables)
      returns (ok: bool, n: nat)
      requires After(canon, cfg, t0, b, world, n0) == (store.View(), NotingError(reasons, msg))
      modifies store
      ensures After(canon, cfg, t0, b, world, n) == (store.View(), Over(ok)) && !ok
    {
      hide UpsertedAll, Known, Decision;
      if world(n0).Done? { store.RecordAttemptError(Queue.WindowOf(b), reasons, msg); }
      return false, n0 + 1;
    }

    /** The findings one by one, then the record. */
    method Persist(b: Bundle, reasons: seq<string>, usage: Usage, count: nat, world: World, n0: nat, ghost t0: Tables)
      returns (ok: bool, n: nat)
      requires After(canon, cfg, t0, b, world, n0) == (store.View(), Persisting(reasons, usage, count))
      modifies store
      ensures After(canon, cfg, t0, b, world, n) == (store.View(), Over(ok))
    {
      hide UpsertedAll, Known, Decision;
      n := n0;
      var left := count;
      while left > 0
        invariant store.View() == old(store.View())
        invariant After(canon, cfg, t0, b, world, n) == (store.View(), Persisting(reasons, usage, left))
      {
        n := n + 1;
        if !world(n - 1).Done? { return false, n; }
        left := left - 1;
      }
      n := n + 1;
      if !world(n - 1).Done? { return false, n; }
      ok, n := Record(b, FullPath(reasons, usage), world, n, t0);
    }

    /** The paid call, and the four ways it ends. */
    method Ask(b: Bundle, d: Gate.Decision, world: World, n0: nat, ghost t0: Tables) returns (ok: bool, n: nat)
      requires After(canon, cfg, t0, b, world, n0) == (store.View(), Asking(d))
      modifies store
      ensures After(canon, cfg, t0, b, world, n) == (store.View(), Over(ok))
    {
      hide UpsertedAll, Known, Decision, After;
      OneMore(canon, cfg, t0, b, world, n0);
      var resp := world(n0);
      assert After(canon, cfg, t0, b, world, n0 + 1)
          == (store.View(), Asked(cfg, store.View(), Queue.WindowOf(b), d, resp).phase);
      match resp
      case CallFailed(status, msg) =>
        if status.Some? && 400 <= status.value < 500 && status.value != 429 {
          ok, n := Close(b, Outcome(false, d.reasons, true, Usage(0, 0, 0, 0, cfg.model), msg, ""), world, n0 + 1, t0);
        } else {
          ok, n := NoteError(b, d.reasons, msg, world, n0 + 1, t0);
        }
      case Unparsable(input, output, msg) =>
        ok, n := Close(b, Outcome(false, d.reasons, true, Usage(input, output, 0, 0, cfg.model), msg, ""), world,
                       n0 + 1, t0);
      case Answer(input, output, cached, cost, model, count) =>
        var usage := Usage(input, output, if cached > input then input else cached, cost, model);
        ok, n := Persist(b, d.reasons, usage, count, world, n0 + 1, t0);
      case _ => return false, n0 + 1;
    }

    /** Everything after the budget's answer. */
    method Spend(b: Bundle, known: map<string, int>, world: World, n0: nat, ghost t0: Tables) returns (ok: bool, n: nat)
      requires After(canon, cfg, t0, b, world, n0) == (store.View(), Budgeting(known))
      modifies store
      ensures After(canon, cfg, t0, b, world, n) == (store.View(), Over(ok))
    {
      hide UpsertedAll, Known, Gate.Decide, After, Asked;
      OneMore(canon, cfg, t0, b, world, n0);
      var verdict := world(n0);
      if !verdict.Budget? { return false, n0 + 1; }
      if verdict.limit != "" {
        ok, n := Record(b, BudgetPath(verdict.limit), world, n0 + 1, t0);
        return;
      }
      var d := Gate.Evaluate(canon, b, known, verdict.securityOnly, cfg.gate);
      if !d.call {
        ok, n := Record(b, GatePath(d.reasons), world, n0 + 1, t0);
        return;
      }
      ok, n := Ask(b, d, world, n0 + 1, t0);
    }

    /** Claim, register, read what was known before anything is written, then decide. */
    method Process(b: Bundle, world: World) returns (ok: bool, n: nat)
      modifies store
      ensures After(canon, cfg, old(store.View()), b, world, n) == (store.View(), Over(ok))
      ensures Ends(canon, cfg, old(store.View()), b, world, store.View(), ok)
    {
      hide UpsertedAll, Known, Decision, Ends;
      ghost var t0 := store.View();
      ok, n := Walk(b, world);
      AfterIsPlaced(canon, cfg, t0, b, world, n);
    }

    method Walk(b: Bundle, world: World) returns (ok: bool, n: nat)
      modifies store
      ensures After(canon, cfg, old(store.View()), b, world, n) == (store.View(), Over(ok))
    {
      hide UpsertedAll, Known, Decision;
      ghost var t0 := store.View();
      assert After(canon, cfg, t0, b, world, 0) == (t0, Beginning);
      if !world(0).Done? { return false, 1; }
      var claimed := store.BeginAnalysis(Queue.WindowOf(b), b.end, world(0).now);
      if !claimed { return true, 1; }
      assert After(canon, cfg, t0, b, world, 1) == (store.View(), Registering);
      if !world(1).Done? { return false, 2; }
      assert After(canon, cfg, t0, b, world, 2) == (store.View(), Reading);
      if !world(2).Done? { return false, 3; }
      var known := store.KnownTemplates(canon, b.systemId);
      ok, n := Spend(b, known, world, 3, t0);
    }
  }
}
