# Verification of nethesis-insights

Dafny models of the protocols and stateful passes of nethesis-insights, with proofs of what every run of them
keeps. Tables are maps and sequences inside classes. Each class method is proved against a function of the old
state, and the promises are lemmas about those functions, over whole runs wherever the code promises something
over time.

| component | modules |
|---|---|
| bundle queue, analyses ledger, analyzer | `Queue`, `Ledger`, `LedgerLaws`, `Pipeline`, `Analyzer` |
| novelty gate, prompt selection, node sets | `Gate`, `GateLaws`, `Prompt`, `PromptLaws`, `Nodes`, `Model` |
| finding identity | `Fingerprint`, `Evidence`, `IdentityLaws` |
| findings and class review | `LogsDb`, `LogsStore`, `FindingLife`, `ReviewTrail`, `ReviewForm`, `LogsLaws` |
| forward authentication and its verdict cache | `Cache`, `CacheLaws`, `Auth` |
| Threat Shield: ingest, consensus, feed | `ThreatSanitize`, `ThreatLaws`, `ThreatStore`, `Consensus`, `ConsensusSteps`, `ConsensusLaws`, `Blocklist` |
| sizing: pressure, verdicts, cohorts, monthly rollup | `Pressure`, `Verdict`, `Cohort`, `SizingLaws`, `Rollup` |
| sorted sequences and finite sets | `Sorting`, `Sets` |

The queue and the analyzer are state machines over atomic steps. Publishers, workers, store failures, model
failures, restarts and prunings interleave freely, and `Pipeline.Advance` is one step of `Process` for one
window. `Analyzer.Process` is proved to take exactly those steps, and `Queue.Queue` and `Ledger.Store` to make
exactly those state changes. A hash is represented by the bytes it is computed from. Clocks, parsers, the
canonicalizer, the language model and upstream validators are parameters or arbitrary answers.

The modules named Laws say what those functions come to on the stored columns and the raw inputs, with the source's
own constants and without the functions themselves, so that a method and the function it is proved against cannot
both be wrong in the same way.

Run `dafny verify dfyconfig.toml` in this directory.

## Where the code and its comments disagree

The models follow the code.

- internal/model/canonical.go:311 says a module family never ends in a digit. It does for an id of digits only
  (`Model.FamilyEndsInDigit`); idempotence holds all the same.
- internal/store/logs/store.go:309 canonicalizes text that is canonical already, so what a recorded template
  makes known is its text canonicalized twice (`Ledger.KnownAfterRecording`). A line alone in an empty memory becomes known
  exactly if the canonicalizer is stable on its text (`Ledger.KnownOnlyIfStable`).
- internal/store/logs/prune.go:75-76 takes a pruned silent template for one that would count as new anyway. With
  similarity on, forgetting it can make it near-known instead: `Ledger.PruningSilencesACall` is a window that is
  paid for before the pruning and not after, and `Gate.ForgettingSilent` says exactly when the novel set changes.
- internal/prompt/prompt.go:184 calls the representative the busiest variant. A variant is compared with the total
  of all earlier ones; `Prompt.BusiestShownIff` is the exact condition and `Prompt.BusiestSpellingNotShown` a
  window that fails it.
- internal/prompt/prompt.go:149 shows everything the edge classified as security. A later variant that takes the
  line over drops the category (`Prompt.SecurityKeptIff`), and then the line can be left out
  (`Prompt.SecurityLineOmitted`).
- internal/queue/queue.go:83-85 says a duplicate's analysis is already happening. The claim it rests on may still be refused
  (`Queue.ADuplicateIsLost`); it is queued exactly if there is room when the claimant sends
  (`Queue.DuplicateRidesOnTheClaim`).
- internal/store/logs/store.go:684 counts a window once. Process reads its time at entry
  (internal/analyzer/analyzer.go:210) and hands it to the refresh and, after the model's answer, to the upsert,
  which sets last_seen back to it. With two windows of one system on two workers the second one can count twice
  (`FindingLife.OneWindowCountedTwice`); `FindingLife.OccurrencesCountInstantsIff` is the exact condition.
- internal/store/threat/store.go:307-308 says a retried batch adds no hits. A decision dated more than a day ahead is
  clamped to the time of its delivery, so delivering it again stores another event with its hits
  (`ThreatSanitize.ARetryAddsARow`). A retry from another address can also add an event, for a decision that named
  the first one (`ThreatSanitize.ARetryFromElsewhereAddsARow`). `ThreatSanitize.ResendChangesNothingIff` is the exact
  condition.

## Model

| member | source | states |
|---|---|---|
| Queue.RunKeepsInv | internal/queue/queue.go:86-184 | in every interleaving of publishers and workers, of any length, each window in flight has exactly one holder (claimed, refused, buffered or handled) and no other window has any; every bundle that entered the channel is accounted for once |
| Queue.NewHoldsInv | internal/queue/queue.go:67-77 | a fresh queue of any size and worker count starts in that state, with the size asked for and at least one place, and the workers asked for and at least one |
| Queue.NeverTwice | internal/queue/queue.go:48-55 | no two workers handle one window, none is buffered while handled, none is buffered twice |
| Queue.EverySentBundleOnce | internal/queue/queue.go:99-108 | what entered the channel was handled, is being handled, or waits, each bundle as often as it was sent |
| Queue.AfterStop | internal/queue/queue.go:178-184 | when all workers have exited and no publisher is mid-call, nothing is buffered or in flight and everything sent was handled exactly once |
| Queue.DrainProgress | internal/queue/queue.go:128-142 | a closed queue is never stuck: any running worker can step, and each step leaves less to do |
| Queue.DuplicateRidesOnTheClaim | internal/queue/queue.go:83-118 | a duplicate answered with success rests on another publisher's claim: whatever happens in between, its window is queued if and only if the channel has room at that publisher's send, and nothing is sent for it before |
| Queue.HolderWaits | internal/queue/queue.go:86-108 | between its claim and its send or release a publisher keeps its window to itself: whatever the others do, nothing is sent or buffered for it |
| Queue.RefusedLeavesNoTrace | internal/queue/queue.go:109-118 | when the refused publisher gives up, whatever happened first, the window is neither queued nor in flight and nothing was sent for it |
| Queue.ADuplicateIsLost | internal/queue/queue.go:83-118 | a run of a new queue of one place at whose end every call has returned, a duplicate was told success, the queue is idle and nothing was done for its window |
| Queue.Queue.Claim | internal/queue/queue.go:86-98 | the first critical section is the Claim step; it says whether the window was in flight |
| Queue.Queue.TrySend | internal/queue/queue.go:99-118 | the non-blocking send is the Send step; it succeeds exactly when there is room |
| Queue.Queue.GiveUp | internal/queue/queue.go:109-117 | after a full channel the claim is released and nothing else changes |
| Queue.Queue.Release | internal/queue/queue.go:121-125 | exactly the one window leaves the in-flight set |
| Queue.Queue.Publish | internal/queue/queue.go:86-119 | uninterrupted: ErrFull exactly when the window is new and the channel full, and then no trace remains; otherwise the window is in flight and queued once |
| Queue.Queue.Receive | internal/queue/queue.go:134-140 | a worker takes the oldest buffered bundle |
| Queue.Queue.Finish | internal/queue/queue.go:144-176 | the deferred release, with or without a handler error |
| Queue.Queue.Stop | internal/queue/queue.go:178-184 | however the workers interleave, draining terminates with an empty buffer and in-flight set, having handled each sent bundle once |
| Ledger.Store.BeginAnalysis | internal/store/logs/store.go:358-388 | claims exactly the windows with no completed row; an uncompleted row keeps its earlier attempt |
| Ledger.Store.RecordAttemptError | internal/store/logs/store.go:395-412 | records a failed attempt without completing the row |
| Ledger.Store.FinalizeAnalysis | internal/store/logs/store.go:414-437 | completes the row if it still exists, and nothing else |
| Ledger.Store.UpsertTemplates | internal/store/logs/store.go:317-356 | row by row: first_seen kept, last_seen never back, counts added |
| Ledger.Store.KnownTemplates | internal/store/logs/store.go:290-315 | for each key of the system, the latest time any of its rows was seen; a row never seen after time 0 is not told |
| Ledger.KnownWithRow | internal/store/logs/store.go:298-313 | one more row read changes what is told only if it is the system's and later |
| Ledger.RecordingOnlyRemembers | internal/store/logs/store.go:337-346 | recording a window never forgets a template and never makes one look longer silent |
| Ledger.UpsertsTouchOnlyTheSystem | internal/store/logs/store.go:330-347 | a row no template of the window maps to is untouched |
| Ledger.RecordedIsKnown | internal/store/logs/store.go:285-313 | a recorded template is known from then on, at least as recently, if the canonicalizer is stable on its text |
| Ledger.KnownOnlyIfStable | internal/store/logs/store.go:309 | for a window of one template in an empty memory that condition is exact: known if and only if canonicalizing its text twice changes nothing |
| Ledger.UnstableIsNeverKnown | internal/store/logs/store.go:309 | with a canonicalizer that changes its own output, a recorded template is not known |
| Ledger.PruningOnlyForgets | internal/store/logs/prune.go:73-88 | pruning rows last seen before a time, in full or in part, forgets only templates that a gate with any cutoff from that time on calls silent |
| Ledger.PruningSilencesACall | internal/store/logs/prune.go:73-88 | a table of two rows and a window, with the default retention, silence and similarity and any canonicalizer that leaves the two lines alone: the window's line is novel and paid for before the pruning, and neither after it |
| Pipeline.RunKeepsInv | internal/analyzer/analyzer.go:208-530 | over every run of publishes, worker steps, failures, restarts and prunings: the ledger says completed exactly of the windows completed and not pruned since; a window is begun or completed only while it is not, and completed only once recorded or beyond retry; the model is called only where it pays; templates are recorded only on the path the attempt was judged to be on |
| Pipeline.StepKeepsInv | internal/analyzer/analyzer.go:208-530 | the same for one step of any kind |
| Pipeline.StartHoldsInv | internal/store/logs/store.go:173-192 | an empty store and a fresh queue start in that state |
| Pipeline.AdvanceKeepsJob | internal/analyzer/analyzer.go:208-530 | each step of one window leaves it unsettled until its own finalize, and in the phase its verdict leads to |
| Pipeline.OthersUnmoved | internal/analyzer/analyzer.go:208-530 | a step of one window leaves every other window's ledger row alone |
| Pipeline.CompletedOnce | internal/store/logs/store.go:358-388 | once completed, a window is neither claimed nor finalized again before its row is pruned |
| Pipeline.CompletedOnlyWhenDone | internal/analyzer/analyzer.go:367-394 | over every run, a window is completed only by an attempt that recorded its templates, or whose model call was refused with a status of 400 to 499 other than 429 or was answered unreadably; never after a timeout, a 429 or a server error |
| Pipeline.CalledOnlyWhereItPays | internal/analyzer/analyzer.go:272-316 | over every run, the model's reply decides only attempts for which the budget set no limit and the gate asked, on what was known when it read the memory; a window is passed over without a call exactly if the budget set a limit or the gate did not ask |
| Pipeline.KnownOnlyAfterJudgment | internal/analyzer/analyzer.go:170-179 | every known template was recorded by a window whose latest attempt was then suppressed, gated out or fully answered, never by one that had failed |
| Pipeline.RunKeepsMemory | internal/analyzer/analyzer.go:170-179 | with no window of a system recorded and none of its rows pruned, the system's template rows do not change, whatever other systems do |
| Pipeline.RetrySeesTheSameNovelty | internal/analyzer/analyzer.go:170-175 | however an attempt fails, if no other window of the system is recorded and none of its rows is pruned, a retry reads the same known templates and the gate's whole decision on the resent window is the same; the window stays claimable until an attempt completes it |
| Analyzer.ProcessIsARun | internal/analyzer/analyzer.go:208-530 | uninterrupted processing is a run of the whole system in which only that worker moves |
| Analyzer.Analyzer.Process | internal/analyzer/analyzer.go:208-530 | how an attempt ends, on the replies and the rows: nothing changes unless the window is claimed; the model is called only if the budget sets no limit and the gate asks; a call refused with a status of 400 to 499 other than 429, or answered unreadably, completes the row with its error; any other failure of it leaves the window claimable with the error noted; templates are remembered only when a window is gated out, suppressed or fully answered, and the row is completed last, column by column as recorded; no other window's row is touched |
| Analyzer.StepIsPlaced | internal/analyzer/analyzer.go:208-530 | at every point of an attempt, what it has written and what it goes on with follow from the replies so far |
| Analyzer.Analyzer.Record | internal/analyzer/analyzer.go:176-206 | templates, then stale findings, then the ledger row; stops at the first failure |
| Analyzer.Analyzer.Ask | internal/analyzer/analyzer.go:349-430 | the ways a paid call ends, by the HTTP status it failed with: noted, closed without recording, or persisted and recorded |
| Analyzer.Analyzer.Persist | internal/analyzer/analyzer.go:432-530 | a finding that cannot be stored ends the attempt before anything is recorded |
| Analyzer.Analyzer.Spend | internal/analyzer/analyzer.go:266-318 | suppressed and gated-out windows are recorded without a call |
| Analyzer.Analyzer.Close | internal/analyzer/analyzer.go:367-385 | a permanent failure completes the row and records no template |
| Analyzer.Analyzer.NoteError | internal/analyzer/analyzer.go:386-394 | a transient failure leaves the row uncompleted |
| Cache.StepKeepsWf | internal/platform/auth/cache.go:93-117 | each tier has distinct keys within its cap and the tiers share no key, after every operation |
| Cache.RunKeepsWf | internal/platform/auth/cache.go:54-117 | the same after every run |
| Cache.FoundIsLatest | internal/platform/auth/cache.go:93-117 | a lookup returns the latest entry stored for exactly that key, or nothing |
| Cache.OrderedByLastUse | internal/platform/auth/cache.go:125-177 | under fixed caps each tier is ordered by last use |
| Cache.NegativesNeverPushOutPositives | internal/platform/auth/cache.go:39-62 | two runs: erasing every operation on keys that never turn positive leaves the positive tier unchanged, contents and recency order alike |
| Cache.PositiveSurvives | internal/platform/auth/cache.go:39-62 | a positive entry just used survives any run, with any number of rejected keys, in which fewer other positive keys than the cap are used and it is not itself rejected |
| Cache.LruTier.Get | internal/platform/auth/cache.go:145-152 | the entry for the key, which moves to the front; nothing changes on a miss |
| Cache.LruTier.Set | internal/platform/auth/cache.go:154-162 | stores at the front, updates in place, evicts down to the cap |
| Cache.LruTier.Remove | internal/platform/auth/cache.go:164-169 | removes exactly the key |
| Cache.LruTier.Evict | internal/platform/auth/cache.go:171-177 | drops the least recently used until the cap holds |
| Cache.LruTier.MoveToFront | internal/platform/auth/cache.go:145-162 | the list and the map stay in step |
| Cache.VerdictCache.Get | internal/platform/auth/cache.go:93-103 | the positive tier first, then the negative; fresh tells whether it has expired, and stale entries are still found |
| Cache.VerdictCache.Set | internal/platform/auth/cache.go:105-117 | stored in the tier of its verdict and removed from the other |
| Cache.VerdictCache.SetLimits | internal/platform/auth/cache.go:79-86 | new caps, evicting at once |
| CacheLaws.StoreMeans | internal/platform/auth/cache.go:105-117 | on the lists: the entry goes to the front of its own and its key leaves the other; only a full list that lacks the key loses an entry, the one used longest ago |
| CacheLaws.LookupMeans | internal/platform/auth/cache.go:93-103 | a lookup forgets nothing and brings the key's entry to the front |
| CacheLaws.LimitsMean | internal/platform/auth/cache.go:70-91 | 8192 and 4096 where no positive limit is given; entries past a limit go from the end |
| CacheLaws.FoundMeans | internal/platform/auth/cache.go:93-103 | an entry is found exactly if one of the lists has it |
| Auth.ParseBasic | internal/platform/auth/auth.go:250-282 | a parsed header is Basic over system id, colon, secret, and the system id has no colon; every other header is refused with its reason |
| Auth.ParseRoundTrip | internal/platform/auth/auth.go:250-282 | every credential whose system id has no colon is read back |
| Auth.PreImageInjective | internal/platform/auth/auth.go:236-246 | the cache key identifies service, system id and secret when the service has no NUL and the system id no colon |
| Auth.NulInServiceCollides | internal/platform/auth/auth.go:236-246 | a NUL in the service name would let two credentials share a key |
| Auth.LinkedRecord | internal/platform/auth/auth.go:166-184 | recording a status with the verdict that goes with it keeps the cache equal to the latest definitive answer per credential |
| Auth.ForwardAuth.Lookup | internal/platform/auth/auth.go:156-162 | finds only what was last recorded for exactly that credential, and the verdict that goes with that status |
| Auth.ForwardAuth.Record | internal/platform/auth/auth.go:166-184 | a definitive status becomes the latest one: a 200 for the positive time to live, a 401 or 403 for the negative one |
| Auth.ForwardAuth.Check | internal/platform/auth/auth.go:156-194 | accepted exactly on a 200, as that system; invalid credentials on a 401, not entitled on a 403, unavailable on anything else; the status is the upstream's, unless a fresh entry was found or there is a stale one and no definitive answer |
| Auth.ForwardAuth.Validate | internal/platform/auth/auth.go:151-194 | the verdict is the one that goes with the upstream's status, or, from the cache, with the latest status recorded for exactly that service, system and secret; a malformed header is refused without either |
| Auth.VerdictFollows | internal/platform/auth/forwarder.go:81-103 | accepted on 200, rejected on 401, forbidden on 403, and no verdict on anything else or no response |
| Auth.PositivesWereAccepted | internal/platform/auth/auth.go:166-184 | whatever the positive tier holds for a credential, its latest definitive answer was a 200 |
| Auth.ForwardAuth.PositiveTierIsAccepted | internal/platform/auth/auth.go:166-184 | the same of a validator at any moment |
| ReviewTrail.TrailReplays | internal/store/logs/classes.go:126-157 | replaying a class's decision trail from its first state yields its current visibility, security, severity, doc_ref and wording overrides, through decisions of every kind, upserts, refreshes and prunings |
| ReviewTrail.ListedIffDelivered | internal/store/logs/store.go:789-820 | a finding is listed exactly when the latest visibility decision on its class was deliver |
| ReviewTrail.NeverBackToPending | internal/store/logs/classes.go:159-188 | a decided class outlives every later write, prunings included, and never returns to pending |
| ReviewTrail.StepAppends | internal/store/logs/classes.go:126-157 | no operation rewrites the trail: it is only appended to |
| ReviewTrail.PruneClassesKeepsAudit | internal/store/logs/prune.go:155-197 | pruning removes no class with a trail |
| ReviewTrail.UpdateKeepsAudit | internal/store/logs/classes.go:264-352 | the review form keeps the trail in step with the rows |
| ReviewTrail.VisibleAllKeepsAudit | internal/store/logs/groups.go:187-204 | a group or bulk decision keeps the trail in step for every class it touches |
| ReviewTrail.UpsertKeepsAudit | internal/store/logs/store.go:591-613 | a sighting creates a class pending and never changes a decision |
| ReviewForm.FormIsApplied | internal/store/logs/classes.go:264-352 | an accepted form leaves the class exactly as posted and touches no other, writes one audit row per change counted, and posted again records nothing |
| ReviewForm.UnchangedFormRecordsNothing | internal/store/logs/classes.go:264-352 | over every run, posting a class's own shown state back changes nothing and records nothing |
| ReviewForm.RowsStayNormal | internal/store/logs/classes.go:354-366 | stored overrides are always trimmed and never equal to their seed |
| ReviewForm.TrimTwice | internal/store/logs/classes.go:360-366 | trimming a trimmed text changes nothing |
| ReviewForm.OverrideIsNormal | internal/store/logs/classes.go:360-366 | an override is stored trimmed, and none when it says what the seed says |
| FindingLife.OccurrencesCountInstants | internal/store/logs/store.go:556-569 | if the instants handed to the upserts and refreshes of one finding do not go back, its occurrence_count is the number of distinct ones since it was inserted, and first_seen and last_seen are the first and last, whatever other findings and systems see |
| FindingLife.OccurrencesCountInstantsIff | internal/store/logs/store.go:556-722 | over any run, the counters mean that after every write if and only if every write of the finding was in order: no older than its last_seen, or a refresh at an instant already counted |
| FindingLife.StepCountsIff | internal/store/logs/store.go:556-722 | the same for one write |
| FindingLife.CountGrowsIffOlder | internal/store/logs/store.go:690-702 | an upsert or refresh raises the count exactly if last_seen is older than it; a refresh takes the later last_seen, an upsert its own |
| FindingLife.OneWindowCountedTwice | internal/analyzer/analyzer.go:208-246 | a run of two windows of one system on two workers, last_seen going 12, 10, 12, in which the second window counts twice |
| FindingLife.ReopenedExactlyOnStaleToOpen | internal/store/logs/store.go:573-582 | reopened_at is stamped exactly when a step takes the finding from stale to open |
| FindingLife.RefreshOpensWhatIsSeen | internal/store/logs/store.go:658-731 | right after a refresh every finding with an evidence line in the window is open and seen now |
| FindingLife.PruningSpares | internal/store/logs/prune.go:121-197 | pruning never removes an open finding, a decided class, or a class a finding still names |
| FindingLife.StepRow | internal/store/logs/store.go:504-637 | what each operation does to one finding row |
| FindingLife.StepClass | internal/store/logs/classes.go:126-157 | what each operation does to one class row |
| LogsStore.Store.ClassDecision | internal/store/logs/classes.go:126-157 | an unknown class is refused; otherwise one column changes and one audit row is appended |
| LogsStore.Store.SetClassVisibility | internal/store/logs/classes.go:177-188 | only the three decided values are accepted |
| LogsStore.Store.SetClassSecurity | internal/store/logs/classes.go:194-203 | the tag and its audit row |
| LogsStore.Store.SetClassSeverity | internal/store/logs/classes.go:210-219 | a valid severity or none, with its audit row |
| LogsStore.Store.SetClassDocRef | internal/store/logs/classes.go:226-234 | the document reference and its audit row |
| LogsStore.Store.UpdateClass | internal/store/logs/classes.go:264-352 | writes and audits exactly the fields that differ, in one transaction; none differ, none written |
| LogsStore.Store.ClassText | internal/store/logs/classes.go:368-396 | the class's wording row, or the one its latest retained finding would seed |
| LogsStore.Store.LatestFinding | internal/store/logs/classes.go:378-392 | greatest last_seen, least id among equals |
| LogsStore.Store.ApplyVisibility | internal/store/logs/groups.go:187-204 | each class in turn, with its audit row |
| LogsStore.Store.SetGroupVisibility | internal/store/logs/groups.go:149-185 | decides the listed members of the group that are still pending, and no other |
| LogsStore.Store.SetClassesVisibility | internal/store/logs/groups.go:212-243 | decides the listed classes not already there |
| LogsStore.Store.UpsertFinding | internal/store/logs/store.go:504-621 | insert, bump or reopen, told apart by the prior status; seeds the class and its wording once |
| LogsStore.Store.RefreshFindings | internal/store/logs/store.go:658-731 | every finding of the system with an evidence line in the window is seen now and open |
| LogsStore.Store.Refreshed | internal/store/logs/store.go:680-722 | one finding's refresh, with the nodes its lines came from |
| LogsStore.Store.MarkStale | internal/store/logs/store.go:623-637 | open findings of the system last seen before the cutoff become stale |
| LogsStore.Store.ListFindings | internal/store/logs/store.go:789-820 | exactly the delivered findings asked for, each once, worst and most recent first, as LogsLaws.CustomerSees reads them |
| LogsStore.Store.PruneFindings | internal/store/logs/prune.go:45-127 | batches until none is left that is not open and older than the cutoff |
| LogsStore.Store.PruneClasses | internal/store/logs/prune.go:155-197 | batches until no undecided, unnamed, old class is left |
| LogsLaws.CustomerSees | internal/store/logs/store.go:789-820 | the class's severity if it has one, else the finding's; each wording field the class's override, else its seed, else the finding's own; every other column the finding's |
| LogsLaws.ReadIff | internal/store/logs/store.go:789-799 | a finding is read exactly if it is the system's, recent enough, of the status asked for, and its class was delivered |
| LogsLaws.WorstFirst | internal/model/model.go:155-163 | critical before high before medium before low before anything else, and the latest first among equals |
| LogsLaws.ReportReplaces | internal/store/logs/store.go:540-589 | a report replaces severity, wording, modules, evidence, nodes and class and opens the row; id and first_seen are the row's own if there is one |
| LogsLaws.SightingKeepsReview | internal/store/logs/store.go:591-613 | a class is created pending with the edge's tag; one that exists keeps every decision and its last_seen only moves forward; wording is seeded once |
| LogsLaws.HitsAre | internal/store/logs/store.go:741-787 | a window matches a finding exactly if one of its lines has the key of one of the finding's evidence lines under one of its modules |
| LogsLaws.RefreshMovesNodes | internal/store/logs/store.go:690-722 | a refresh puts the 64 smallest nodes of the matching lines in place of the old ones, unless they carry none, and touches no wording |
| LogsLaws.RefreshSightsTheClass | internal/store/logs/store.go:700-731 | the refreshed finding's class is seen now and keeps every decision, and gets the finding's wording only if it has none |
| LogsLaws.StaleMeans | internal/store/logs/store.go:623-637 | a finding goes stale exactly if it is the system's, open, and last seen before the cutoff |
| LogsLaws.PruningMeans | internal/store/logs/prune.go:121-197 | exactly the findings not open and older than the cutoff, and exactly the classes older than it that nobody decided and no finding names |
| LogsLaws.DecisionsMean | internal/store/logs/classes.go:126-234 | one column per decision; an unknown class, a severity by another name and a return to pending are refused and change nothing |
| LogsLaws.AuditMeans | internal/store/logs/classes.go:126-224 | one audit row per decision, with its action, detail, actor and the prompt version |
| LogsLaws.FormMeans | internal/store/logs/classes.go:264-352 | after an accepted form the columns are as posted, and a reader sees the posted wording, or the seed where it was blank |
| LogsLaws.FormRefused | internal/store/logs/classes.go:264-296 | exactly an unknown class, a return to pending and a severity by another name |
| LogsLaws.SeedIsTheLatest | internal/store/logs/classes.go:373-398 | a class without wording is seeded from the one of its findings seen last |
| LogsLaws.GroupDecides | internal/store/logs/groups.go:149-189 | exactly the listed members of the group that are pending move |
| LogsLaws.BulkDecides | internal/store/logs/groups.go:212-243 | exactly the listed classes are at the value afterwards, and no other moves |
| Gate.Evaluate | internal/gate/gate.go:87-173 | the decision is the declarative one over the set of (key, eligible, security) facts of the window, which GateLaws reads on the lines themselves |
| Gate.DependsOnFactsOnly | internal/gate/gate.go:87-173 | order, repetition, counts and nodes of the templates never matter |
| Gate.NoveltyShrinks | internal/gate/gate.go:99-134 | remembering more, recently seen, can only shrink the novel set and only turn a call off |
| Gate.SilentTemplate | internal/store/logs/prune.go:73-78 | remembering a silent template adds it to the novel set; forgetting it changes the set exactly if the window has it and similarity finds a recent template for it |
| Gate.ForgettingSilent | internal/store/logs/prune.go:73-78 | forgetting any silent templates takes out of the novel set exactly those of the window a recent template stands for; so the set is unchanged if and only if there are none |
| Gate.ForgettingAndTheCall | internal/store/logs/prune.go:73-78 | after the forgetting the call is made if and only if a security template is novel or the quorum is met without those |
| Gate.ForgettingTheOnlyLine | internal/store/logs/prune.go:73-78 | a window of one silent line that a recent one stands for: forgetting it empties the novel set and ends the call |
| Gate.JobLinesMatch | internal/gate/similar.go:71-110 | at the default similarity two lines of ten shared words and one different identifier stand for each other |
| Gate.TokensOfSpaced | internal/gate/similar.go:112-139 | words separated by blanks are the tokens |
| Gate.NewSecurityAlwaysPays | internal/gate/gate.go:136-173 | a security line with a new key always fires the gate, spend cap or not |
| Gate.NewKnownIndex | internal/gate/similar.go:54-69 | the index holds exactly the recently seen keys, by family and token count |
| Gate.Near | internal/gate/similar.go:73-94 | the indexed test equals comparing with every recently seen known template one by one |
| Gate.Similar | internal/gate/similar.go:98-110 | at most the allowed number of positions differ, and none of them is a word on either side |
| Gate.Tokenize | internal/gate/similar.go:115-139 | one pass gives exactly the tokens |
| Gate.TokensKeepText | internal/gate/similar.go:115-139 | tokens lose nothing but white space |
| Gate.TokensSplit | internal/gate/similar.go:115-139 | a non-word byte always separates |
| Gate.TokensOfWord | internal/gate/similar.go:115-139 | a run of word bytes is one token |
| GateLaws.TokensMean | internal/gate/similar.go:115-144 | letters, digits, underscores and angle brackets make words; blanks, tabs and line ends are skipped; any other byte is a token |
| Gate.PlainWord | internal/gate/similar.go:150-165 | letters only, two or more, no capital after a small letter |
| Gate.Classify | internal/gate/gate.go:99-120 | known-but-silent keys are novel, unknown keys are listed once with their eligibility |
| Gate.AddUnknown | internal/gate/gate.go:121-134 | an unknown key is novel unless a recent known template stands for it |
| Gate.SecurityScan | internal/gate/gate.go:136-152 | some security line of the window has a novel key |
| GateLaws.NovelMeans | internal/gate/gate.go:99-134 | on the window's lines: a known key is novel exactly if it is silent too long; an unknown one always if some line with it is of category security or of priority 2 or less, and otherwise exactly if no recent known line resembles it |
| GateLaws.DecisionMeans | internal/gate/gate.go:136-173 | the call is made exactly if a security line's key is novel or, when more than security may be spent on, at least minNewTemplates keys are; with its reasons and counts |
| GateLaws.EligibleMeans | internal/gate/similar.go:31-38 | every line with the key is eligible exactly if none is of category security or of priority critical or above |
| GateLaws.StandInMeans | internal/gate/similar.go:73-94 | a known line stands in exactly if it is recent, of the same family, with as many tokens, at least one and no more of which may differ than the threshold leaves, and none of those a plain word |
| GateLaws.PlainWords | internal/gate/similar.go:150-165 | two letters or more and nothing else, with no capital right after a small letter |
| GateLaws.KeysAgree | internal/model/canonical.go:345-348 | two lines have one key exactly if families and canonical texts agree |
| Model.FamilyIdempotent | internal/model/canonical.go:302-326 | the family of a family is itself |
| Model.FamilyEndsInDigit | internal/model/canonical.go:311-326 | a family ends in a digit exactly when the module id is all digits, against the comment that it never does |
| Model.FamilyMeans | internal/model/canonical.go:320-326 | the digits at the end go, and only they, unless there is nothing else |
| Model.LessTemplateWeak | internal/model/model.go:219-232 | the template order is a strict weak order |
| Model.LessTemplateTies | internal/model/model.go:219-232 | templates tie exactly when module, priority and text agree |
| Model.CutOfJoin | internal/gate/similar.go:74 | a key is split back into its family and its text |
| Nodes.SanitizeNodeIDs | internal/model/nodes.go:158-179 | the 64 smallest distinct ids of at least 1, in order |
| Nodes.MergeNodeIDs | internal/model/nodes.go:234-242 | the 64 smallest of the union |
| Nodes.MergeAll | internal/analyzer/analyzer.go:447-454 | folding any number of lists gives the 64 smallest of their union |
| Nodes.CappedUnion | internal/model/nodes.go:234-242 | capping on the way loses nothing the final cap would keep |
| Nodes.UnionOfPermutation | internal/model/nodes.go:234-242 | the order of merging does not matter |
| Prompt.Select | internal/prompt/prompt.go:155-230 | kept lines and the ambient cut, in strict line order |
| PromptLaws.ShownMeans | internal/prompt/prompt.go:199-230 | only lines of the bundle, by module, priority and text; every novel and every security one |
| PromptLaws.BusiestAreShown | internal/prompt/prompt.go:212-223 | no line left out counts more messages than an ambient one shown; among equals the earlier one is shown |
| PromptLaws.RoomIsUsed | internal/prompt/prompt.go:221-223 | as many ambient lines as there is room for, or all of them |
| PromptLaws.OneLineIff | internal/prompt/prompt.go:162-176 | two templates make one line exactly if family, priority and canonical text agree |
| PromptLaws.OneMoreVariant | internal/prompt/prompt.go:184-193 | a variant is shown if it counts more than all before it together, or as much with a text first in byte order |
| Prompt.NovelIsShown | internal/prompt/prompt.go:199-209 | every key in the gate's novel set has a line shown for the same bundle |
| Prompt.LinesConserve | internal/prompt/prompt.go:162-197 | before the cut, counts and variant numbers sum to the bundle's |
| Prompt.LineKeeps | internal/prompt/prompt.go:170-197 | a line carries its group's count, variants and the 64 smallest node ids |
| Prompt.LineShows | internal/prompt/prompt.go:177-197 | which variant a line shows, and when it counts as security |
| Prompt.MajorityIsShown | internal/prompt/prompt.go:177-197 | a variant with more than half its group's lines is the one shown, in any order |
| Prompt.BusiestShownIff | internal/prompt/prompt.go:177-197 | the line shows a busiest variant exactly when some busiest variant outweighed everything before it |
| Prompt.BusiestNotAlwaysShown | internal/prompt/prompt.go:177-197 | a window whose busiest variant is not shown |
| Prompt.BusiestSpellingNotShown | internal/prompt/prompt.go:135-197 | for every canonicalizer that folds single digits, a bundle whose one prompt line shows the spelling seen twice though another was seen three times |
| Prompt.SecurityKeptIff | internal/prompt/prompt.go:177-197 | a line is a security line if and only if one of its security variants is followed by no variant that takes the line over |
| Prompt.LineReachesModelIff | internal/prompt/prompt.go:150-230 | a group's line is in the prompt if and only if its key is novel, such a security variant exists, or the ambient budget has room for it |
| Prompt.SecurityLineOmitted | internal/prompt/prompt.go:150-230 | for every canonicalizer and line, two instances of one module, the quieter one classified as security: unless the key is novel, the prompt with no ambient budget shows nothing |
| Prompt.SelectedUnique | internal/prompt/prompt.go:155-230 | the selection is determined by the bundle |
| Prompt.ResolveIn | internal/prompt/prompt.go:238-262 | the cited lines, each once, or the first unknown identifier |
| Prompt.CitedLinesResolve | internal/prompt/prompt.go:95-100 | citing the identifiers of shown lines resolves to exactly those lines |
| Prompt.ResolveEvidence | internal/prompt/prompt.go:232-262 | the identifiers are resolved against the very list that was rendered for the same bundle and selection |
| PromptLaws.NamedInAnyCase | internal/prompt/prompt.go:246-248 | a line answers to t or T and its number, counted from one, between any blanks |
| PromptLaws.TrimMeans | internal/prompt/prompt.go:248 | trimming takes off the blanks on both sides and nothing else |
| PromptLaws.DecimalMeans | internal/prompt/prompt.go:100 | the number is written in decimal, without leading zeros |
| PromptLaws.StringLessMeans | internal/model/model.go:218-232 | strings are compared at the first byte in which they differ, a shorter one first if there is none |
| PromptLaws.LessIsBefore | internal/model/model.go:224-232 | templates go by module, then priority, then text |
| Prompt.TemplateIdInjective | internal/prompt/prompt.go:100 | different lines have different identifiers |
| Fingerprint.Hash.WriteField | internal/fingerprint/fingerprint.go:28-33 | eight length bytes, then the text |
| Fingerprint.Hash.WriteList | internal/fingerprint/fingerprint.go:35-58 | the sorted distinct elements, counted and length-prefixed |
| Fingerprint.SortDedup | internal/fingerprint/fingerprint.go:39-50 | sorted, without repeats, nothing lost |
| Fingerprint.Compute | internal/fingerprint/fingerprint.go:60-73 | what is hashed is the pre-image |
| Fingerprint.Class | internal/fingerprint/fingerprint.go:75-88 | what is hashed is the class pre-image |
| Fingerprint.BytesRoundTrip | internal/fingerprint/fingerprint.go:29-31 | a big-endian number is read back |
| Fingerprint.DecodesBack | internal/fingerprint/fingerprint.go:60-73 | the hashed bytes decode to system, category, module set and evidence set |
| Fingerprint.PreImageIdentifies | internal/fingerprint/fingerprint.go:60-73 | two pre-images are equal exactly when system, category, modules and evidence are, as sets |
| Fingerprint.ClassPreImageIdentifies | internal/fingerprint/fingerprint.go:75-88 | the same for classes |
| Fingerprint.FingerprintRefinesClass | internal/fingerprint/fingerprint.go:75-80 | within one system, fingerprints are equal exactly when classes are |
| Evidence.EvidenceCandidates | internal/fingerprint/evidence.go:85-111 | the keys of the distinct cited lines in line order |
| Evidence.CandidatesAreTheCitedLines | internal/fingerprint/evidence.go:61-84 | the candidates are the keys of exactly the cited lines, each once |
| Evidence.KeyOfLineInjective | internal/fingerprint/evidence.go:96-110 | two lines share an identity key exactly when module, priority and trimmed text agree, if no module id has a slash |
| Evidence.KeyOfLineIff | internal/fingerprint/evidence.go:96-110 | in general they share a key exactly when the parts agree or the longer module id goes on with the other's priority and the other's text with the rest of the key |
| Evidence.SlashInModuleCollides | internal/fingerprint/evidence.go:96-110 | two different lines of two module families with one key, for every canonicalizer that leaves their texts alone |
| Evidence.SqueezingKeepsFirsts | internal/fingerprint/evidence.go:96-110 | repeats among the sorted lines change nothing |
| Evidence.ChooseEvidenceKey | internal/analyzer/analyzer.go:551-574 | the first candidate with a stored class, else the first; class and fingerprint use one key |
| Evidence.ChoiceJoinsExisting | internal/analyzer/analyzer.go:532-550 | a finding joins an existing class exactly when one is keyed on a line it cites, and never names a line it does not cite |
| Evidence.ChoiceIsStable | internal/analyzer/analyzer.go:545-549 | once the chosen class is stored the same lines choose it again |
| Evidence.DeriveFinding | internal/analyzer/analyzer.go:444-482 | evidence, nodes, modules, category and identity, all derived from the cited lines |
| Evidence.CitationOrderIsIrrelevant | internal/analyzer/analyzer.go:434-481 | order and repetition of the citations reach none of them |
| IdentityLaws.SpellingIsIrrelevant | internal/fingerprint/evidence.go:17-31 | lines that differ only in spelling, with one canonical text under one module and priority, give one class, one fingerprint, the same modules and category |
| IdentityLaws.DerivedMeans | internal/analyzer/analyzer.go:444-470 | the modules are the families of the cited lines, once each and in order; the finding is one of security if any cited line is |
| IdentityLaws.DerivedNodesMean | internal/analyzer/analyzer.go:444-470 | its nodes are the 64 smallest of at least 1 of all the cited lines, in order |
| IdentityLaws.ChosenIsEarliest | internal/analyzer/analyzer.go:551-574 | the key is that of the earliest cited line, by module, priority and canonical text, whose class is stored, and of the earliest of all if none is |
| IdentityLaws.LengthIsBigEndian | internal/fingerprint/fingerprint.go:28-33 | each of the eight length bytes, the most significant first |
| IdentityLaws.PreImageIsSpelled | internal/fingerprint/fingerprint.go:60-89 | version, system, category, modules and evidence, in that order, every string after its length and every list after its size |
| Consensus.RunKeepsInv | internal/blocklist/consensus.go:95-184 | in every run, whatever fails, at most MaxEntries addresses are served and each was reported by at least MinSystems distinct systems within the window of some pass so far |
| Consensus.StartHoldsInv | internal/blocklist/consensus.go:95-184 | empty tables with nothing published satisfy the invariants of both kinds of run |
| Consensus.ServedIsCurrent | internal/blocklist/consensus.go:103-184 | what a completed pass serves is listed, unexpired, and covered by no allowlist entry active then; ConsensusLaws.ServedIsNotShielded reads that on the allowlist table |
| Consensus.FailedPassServesTheOldFeed | internal/blocklist/snapshot.go:38-43 | a pass that fails anywhere leaves the served generation whole; a completed one marks it capped exactly when rows were left out |
| Consensus.FeedFits | internal/blocklist/consensus.go:160-177 | the feed never exceeds the cap |
| Consensus.FeedKeepsTheMostRecent | internal/blocklist/consensus.go:160-177 | what the cap leaves out was seen no later than anything it keeps |
| Consensus.CapBindsIff | internal/blocklist/consensus.go:160-177 | the cap binds exactly when there are more live rows than it allows |
| Consensus.PassRows | internal/store/threat/store.go:461-505 | every row after a pass is an old one or this pass's listing with its first_listed_at kept |
| Consensus.PromotedIffAgreed | internal/blocklist/consensus.go:259-333 | an address is promoted exactly when enough systems reported it in the window and no entry exempts it |
| ConsensusLaws.PromotionMeans | internal/blocklist/consensus.go:259-333 | on the tables: at least MinSystems systems reported the address within the window, and no allowlist entry that is permanent or not yet over covers it; entries whose time has come hold nothing back |
| ConsensusLaws.ListingMeans | internal/blocklist/consensus.go:286-320 | a listing is seen when the latest of those events was dated, but not after now, runs for the TTL from then, and has their systems, scenarios and hits |
| ConsensusLaws.RowsAfterPass | internal/blocklist/consensus.go:103-184 | after a pass exactly the rows that were there or are promoted, have time left and are not covered by an entry in force |
| ConsensusLaws.EventsAfterPass | internal/store/threat/store.go:642-655 | events go only by a pruning that succeeds, and only those older than the retention |
| ConsensusLaws.CompletionMeans | internal/blocklist/consensus.go:103-222 | a pass completes exactly if no step but the pruning fails and every entry in force is well formed |
| ConsensusLaws.FeedMeans | internal/store/threat/store.go:597-609 | the rows with time left that fewer than MaxEntries such rows precede, by last sighting and then by text |
| ConsensusLaws.GenerationMeans | internal/blocklist/snapshot.go:57-128 | a generation is ready, dated by its pass, lists the feed in canonical spelling, and is capped exactly if more rows have time left than fit |
| ConsensusLaws.ServedIsNotShielded | internal/store/threat/store.go:419-426 | no completed pass serves an address that a permanent or unexpired allowlist entry covers |
| ConsensusLaws.AgreedIsServed | internal/blocklist/consensus.go:103-184 | what enough systems reported and no such entry covers is listed, and served if the cap leaves room; an expired entry keeps nothing off |
| Consensus.RefreshNeverGoesBack | internal/blocklist/consensus.go:297-316 | with a clock that does not go back and retention no shorter than the window, a refresh keeps first_listed_at and moves neither last_seen_at nor expires_at back |
| Consensus.ListingNeverGoesBack | internal/blocklist/consensus.go:297-316 | the same over any run, for as long as an address stays listed |
| Consensus.ExpiryIsBounded | internal/blocklist/consensus.go:297-316 | a listing ends at most the TTL after the pass that made it, even for sightings dated in the future |
| ConsensusSteps.PassIsEightCalls | internal/blocklist/consensus.go:95-184 | the eight store calls of a pass with nothing in between do exactly what the one-step pass does, wherever it fails |
| ConsensusSteps.TicksKeepSafe | internal/blocklist/consensus.go:95-184 | in every interleaving of the calls with ingests, allowlist edits and restarts, at most MaxEntries addresses are served and each was agreed on in some pass |
| ConsensusSteps.ServedWasPermitted | internal/blocklist/consensus.go:208-253 | the served generation changes only by the last call of a pass, whole, and no entry of the allowlist that pass read covers an address it then serves |
| ConsensusLaws.ServedWasNotShielded | internal/store/threat/store.go:419-426 | in every interleaving, what a pass publishes is covered by no entry that was permanent or unexpired when that pass read the allowlist |
| ConsensusSteps.TicksRecall | internal/blocklist/consensus.go:297-316 | in every interleaving with a clock that does not go back, each row still has the sighting its last_seen_at came from, or that one is too old for any window |
| ConsensusSteps.TickNeverGoesBack | internal/blocklist/consensus.go:297-316 | no call moves a listed address's last sighting or expiry back or changes when it was first listed, whatever came in since the pass read the events |
| ConsensusSteps.ListingNeverGoesBackInSteps | internal/blocklist/consensus.go:297-316 | the same over any interleaving, for as long as the address stays listed |
| ConsensusSteps.StartIsSafe | internal/blocklist/consensus.go:95-184 | empty tables satisfy both invariants |
| ThreatStore.Store.InsertThreatEvents | internal/store/threat/store.go:311-354 | new keys are stored, known ones counted as duplicates |
| ThreatStore.InsertIsIngest | internal/store/threat/store.go:304-354 | a batch adds its new rows and never changes a stored one |
| ThreatStore.RedeliveryChangesNothing | internal/store/threat/store.go:304-310 | redelivering any of a stored batch changes no row |
| ThreatStore.Store.ConsensusCandidates | internal/store/threat/store.go:389-411 | one row per address, scenario and system in the window, with total hits and latest time |
| ThreatStore.FoldIsEvidence | internal/blocklist/consensus.go:259-285 | folding those rows per address gives its distinct reporters, scenarios, hits and last sighting |
| ThreatStore.Store.UpsertBlocklistEntries | internal/store/threat/store.go:461-505 | refreshes or inserts, never touching first_listed_at |
| ThreatStore.Store.ExpireBlocklist | internal/store/threat/store.go:507-523 | exactly the rows whose TTL ran out go |
| ThreatStore.Store.ListBlocklistIPs | internal/store/threat/store.go:525-549 | every live address |
| ThreatStore.Store.DeleteBlocklistEntries | internal/store/threat/store.go:559-590 | exactly the named rows go |
| ThreatStore.Store.ListBlocklist | internal/store/threat/store.go:592-609 | live rows, most recently seen first, up to the limit |
| ThreatStore.Store.PruneThreatEvents | internal/store/threat/store.go:642-655 | exactly the events before the cutoff go |
| Blocklist.Runner.Promote | internal/blocklist/consensus.go:257-333 | the entries are exactly the agreed listings, each once |
| Blocklist.Runner.Unlist | internal/blocklist/consensus.go:204-255 | exactly the live rows the allowlist covers go |
| Blocklist.Runner.Run | internal/blocklist/consensus.go:95-184 | promote, expire, unlist, prune, publish, for every pattern of failures: the tables ConsensusLaws.RowsAfterPass and EventsAfterPass read row by row, and the snapshot ConsensusLaws.FeedMeans reads |
| Blocklist.Published.Generate | internal/blocklist/snapshot.go:57-128 | every field swapped at once; the body is the parsed rows in numeric order |
| ThreatSanitize.Sanitize | internal/threat/sanitize.go:148-250 | the merged events in key order with the tally of drops |
| ThreatSanitize.SanitizeConserves | internal/threat/sanitize.go:149-250 | counters sum to the number of decisions, hits to the accepted ones, keys are pairwise distinct |
| ThreatLaws.JudgeMeans | internal/threat/sanitize.go:169-219 | which report falls to which filter: the kind is not ban, the scope not ip, the origin none of crowdsec, cscli and banip, in any case of letters; the address does not parse; it is not public unicast, has a zone or is the reporter's own; the time does not parse or is too old; and otherwise what key it is accepted under |
| ThreatLaws.AcceptedMeans | internal/threat/sanitize.go:169-219 | every accepted report is a local ban of a public address, dated no more than a day ahead and not too old |
| ThreatLaws.TakenMeans | internal/threat/sanitize.go:155-166 | the first reports up to the cap, 500 if none is set |
| ThreatLaws.CountersMean | internal/threat/sanitize.go:160-231 | each counter is the number of reports with that verdict |
| ThreatLaws.MergedMeans | internal/threat/sanitize.go:218-231 | an event counts the reports accepted under its key, and takes the length of the ban from the first |
| ThreatLaws.SanitizedMeans | internal/threat/sanitize.go:154-250 | one event for each key with an accepted report, in order of address, scenario and time |
| ThreatSanitize.EventsAreCredible | internal/threat/sanitize.go:194-209 | every event is public, not the reporter's own address, and dated within the allowed span |
| ThreatSanitize.StoringAgainChangesNothing | internal/store/threat/store.go:304-310 | storing the same sanitized events again changes nothing |
| ThreatSanitize.ResendFallsOnTheSameEventIff | internal/threat/sanitize.go:306-326 | one decision accepted twice, from whatever addresses, falls on its old event exactly when its time was not clamped the first time |
| ThreatSanitize.ResendChangesNothingIff | internal/store/threat/store.go:304-354 | a whole batch sanitized and stored again later, from the same address or another, whatever the table held and however keys merge: it changes nothing if and only if no decision that was clamped, or named the address it was sent from, comes back under a row not there; from the same address and with nothing clamped it never does |
| ThreatSanitize.ResendAddsHits | internal/store/threat/store.go:304-310 | where it does change the table, the candidate of that pair has more hits than before; a pair accepted before was a candidate already |
| ThreatSanitize.ARetryAddsARow | internal/store/threat/store.go:304-354 | one decision dated four days ahead, retried a minute later, becomes two rows, under any options and parsers that read it |
| ThreatSanitize.ARetryFromElsewhereAddsARow | internal/threat/sanitize.go:192-201 | one decision naming the address it is sent from is dropped, and stored when it is sent again from another |
| Pressure.Evaluate | internal/sizing/score.go:187-311 | the score, axes, top axis and reasons of a node-day |
| Pressure.PressureIsMonotone | internal/sizing/score.go:143-150 | worsening any measurements or adding some never lowers the pressure |
| Pressure.PressureBounds | internal/sizing/score.go:276-305 | between 0 and 100, never below the worst axis capped at 100, present exactly when covered and measured |
| Pressure.PressureHasReasons | internal/sizing/score.go:204-311 | positive exactly when a reason fired |
| Pressure.RampShape | internal/sizing/score.go:171-185 | zero up to the knee, the ceiling from the full point, never falling |
| Pressure.AxesRise | internal/sizing/score.go:207-277 | no axis falls when measurements worsen or are added |
| Pressure.Axis.Consider | internal/sizing/score.go:322-330 | the greatest term so far, and that something was measured |
| SizingLaws.RampsMean | internal/sizing/score.go:207-268 | memory in use counts from 85 to 97 percent up to 60, pages swapped in from 1 to 200 up to 60, processor from 80 to 95 percent and load from 1 to 4 per core up to 40, waiting from 5 to 40 percent up to 40 |
| SizingLaws.StepsMean | internal/sizing/score.go:220-277 | a kill is worth 40 and up to 60 more; a filesystem up to 70 from 85 to 97 percent and 100 from 98 on; one full in less than 90 days up to 60 |
| SizingLaws.AxesMean | internal/sizing/score.go:207-277 | each axis is the worst of its measurements that were made |
| SizingLaws.PressureMeans | internal/sizing/score.go:193-305 | the worst axis in full and half of the others, at most 100; exactly for node-days with coverage, known hardware and something measured |
| SizingLaws.ReasonsMean | internal/sizing/score.go:207-277 | each reason is given exactly for its measurement past where it starts to count |
| SizingLaws.TopIsFirstWorst | internal/sizing/score.go:283-305 | the axis named is one of the worst, and the first of those |
| Verdict.EvaluateVerdict | internal/sizing/score.go:393-432 | days present, bad and at risk, the state with hysteresis, and the leading axis |
| Verdict.DominantAxis | internal/sizing/score.go:434-452 | the axis that led on the most bad days, first by name on a tie |
| SizingLaws.VerdictMeans | internal/sizing/score.go:400-431 | on the days: insufficient data below the minimum of measured ones; undersized with seven of pressure 50 or more, or more than three while it was; at risk otherwise with fourteen of 25 or more; and else ok |
| SizingLaws.TopAxisMeans | internal/sizing/score.go:434-452 | the axis named led on the most bad days, first by name among equals; none when ok or without data |
| Verdict.UndersizedHolds | internal/sizing/score.go:363-366 | once undersized, a node with enough days stays so while more than three are bad |
| Verdict.FlappingTakesFourDays | internal/baseline/pass.go:349-388 | between a release and the next flag at least four days turned bad |
| Cohort.Quantile | internal/sizing/cohort.go:157-183 | the interpolated value over the sorted values |
| Cohort.QuantileIgnoresOrder | internal/sizing/cohort.go:157-183 | independent of input order |
| Cohort.QuantileRises | internal/sizing/cohort.go:164-183 | monotone in q |
| Cohort.QuantileBetween | internal/sizing/cohort.go:164-183 | between the least and the greatest value |
| Cohort.Reduce | internal/baseline/pass.go:422-441 | a node's contribution: reduced demand, censoring, eligibility |
| SizingLaws.ReducedMeans | internal/baseline/pass.go:422-441 | a node is left out if its hardware changed or it has no usable day; its demand is a 90th percentile; it is censored at 90 percent of memory in use or at any swapping or kill; the platform families are not business, but samba is with shares |
| SizingLaws.GatheredMeans | internal/baseline/pass.go:443-474 | a cohort counts its members, the censored ones apart, holds the demand of each of the others in order, and the systems they belong to |
| SizingLaws.QuantileMeans | internal/sizing/cohort.go:164-183 | of sorted values, at a whole place the value there, and between two places in proportion |
| Cohort.AddNode | internal/baseline/pass.go:443-474 | the node joins the cohort of every family it runs, and a solo one only if that family is its whole business |
| Cohort.CohortConserves | internal/baseline/pass.go:443-459 | nodes are censored or sampled, and sampled equally in all four measures |
| Cohort.CohortSystems | internal/baseline/pass.go:479-490 | the floor counts each system once |
| Cohort.OneSoloCohort | internal/sizing/cohort.go:105-108 | a node is in at most one solo cohort |
| Cohort.PublishCohorts | internal/baseline/pass.go:479-527 | one row per cohort that clears the floor, in order, and no other |
| SizingLaws.FloorMeans | internal/baseline/pass.go:485-490 | a cohort is published exactly if its members are enough nodes of enough systems |
| SizingLaws.RowMeans | internal/baseline/pass.go:491-516 | the 50th, 75th and 90th percentiles of what is used, the 50th and 90th of what is installed, with the counts |
| SizingLaws.RowsInOrder | internal/baseline/pass.go:520-525 | family cohorts before solo ones, each by family name |
| Cohort.PublishedRowsAreOrdered | internal/baseline/pass.go:502-517 | P50 <= P75 <= P90 in every row, which accounts for all its nodes |
| Rollup.MonthRanges | internal/store/sizing/store.go:1188-1208 | the calendar months touching the days, by a cursor that terminates |
| Rollup.RangesTile | internal/store/sizing/store.go:1188-1208 | whole months, contiguous and disjoint, covering the range |
| Rollup.CalendarMeans | internal/store/sizing/store.go:1188-1208 | the months have their Gregorian lengths, and a year 365 or 366 days |
| Rollup.RunKeepsInv | internal/baseline/pass.go:164-177 | with complete rollups at most 30 days apart and retention of at least 75, every month that can no longer receive rows is counted in full |
| Rollup.NoHistoryIsLost | internal/store/sizing/store.go:1293-1297 | every node-day that ever arrived is still stored or counted with the whole of its month |
| Rollup.NoPartialMonth | internal/store/sizing/store.go:1155-1181 | no month is recomputed from a partly pruned set of days |
| Rollup.AGapOf31LosesHistory | internal/baseline/pass.go:71-74 | the 30 days are exact: one more loses a row that arrived 15 days late |
| Rollup.ARetentionOf74RecomputesAPartialMonth | internal/baseline/pass.go:71-74 | the 75 days are exact: a run with a retention of 74 in which two passes on one day leave a partial count |
| Rollup.Store.UpsertSizingDays | internal/store/sizing/store.go:508-542 | a day reported again replaces its row |
| Rollup.Store.RollMonth | internal/store/sizing/store.go:1214-1290 | each node with rows in the month gets its count |
| Rollup.Store.RollupSizingMonthly | internal/store/sizing/store.go:1167-1181 | the months in order, as far as it gets |
| Rollup.Store.PruneSizingDaily | internal/store/sizing/store.go:1298-1328 | exactly the rows before the cutoff go |
| Rollup.Store.Housekeep | internal/baseline/pass.go:164-177 | prune only after a complete rollup |
| Cohort.Gather | internal/baseline/pass.go:408-477 | every node counted once, in every cohort it belongs to and no other |
| LogsStore.Store.SetClassGroup | internal/store/logs/groups.go:116-141 | one group row, and no class or decision |
| Rollup.OneMonthOnly | internal/store/sizing/store.go:1188-1208 | a day is in one month only |
| Ledger.KnownAfterRecording | internal/store/logs/store.go:284-356 | after recording a window a key is known exactly if it was before or some line of the window brings it: its family and twice-canonicalized text give that key, with a positive time |
| LedgerLaws.KnownMeans | internal/store/logs/store.go:290-315 | a key is known since n if a row of the system whose family and text, canonicalized once more, give it was last seen at n, after time 0, and none later |
| LedgerLaws.RowsMean | internal/store/logs/store.go:317-356 | after a window a row is there if it was or a line falls on it; its total has grown by the counts of those lines, and without one it is as it was |
| LedgerLaws.WordingMeans | internal/store/logs/store.go:330-347 | text, priority and category are those of the last line that falls on the row |
| LedgerLaws.FirstSeenMeans | internal/store/logs/store.go:324-347 | first_seen is the row's own, or else the first such line's, or now if that has none |
| LedgerLaws.LastSeenMeans | internal/store/logs/store.go:324-347 | last_seen is the greatest of the row's own and those lines' |

## Left out

- HTTP, JSON, gzip, metrics, logging, configuration checks and the operator pages: plumbing.
- SQL text: each statement is its effect on a map or a sequence, and a failed statement has no effect.
- CanonicalTemplate: an arbitrary function of module family and text; nothing about its rewriting is claimed.
- SHA-256, HMAC, base64 and ULIDs: hashes are their pre-images, decoding is a parameter, generated ids are given and distinct.
- netip: parsing, prefixes and address order are parameters; publicUnicast is an arbitrary predicate.
- Floating point: pressures, quantiles, and the similarity threshold are reals; int64 overflow is not modelled.
- Text is one character per byte, and trimming and case folding are the ASCII ones.
- Pipeline.RunKeepsInv: findings are not part of the machine; the writes to systems, nodes and findings are steps that succeed or fail, and LogsStore has their effect.
- Pipeline.RetrySeesTheSameNovelty: record makes three separate store calls, so a failure after the first leaves the templates known and the window claimable; the lemma excludes a recorded window.
- Pipeline.RunKeepsMemory: excludes pruning of the system's own rows, whose effect is Ledger.PruningOnlyForgets and Gate.ForgettingSilent.
- Queue.Queue.Stop: no Publish is under way when the channel is closed; the program would panic.
- Queue.Queue.Publish: stated for an uninterrupted call; the interleaved one is covered step by step in Queue.RunKeepsInv.
- The daily and per-system spend caps: a retry reuses its window's ledger row, so rows do not count calls.
- FindingLife.OccurrencesCountInstants: the instants that reach the one finding do not go back, which two windows of its system on two workers can break; FindingLife.OccurrencesCountInstantsIff is without that condition.
- ReviewTrail.TrailReplays: replays in append order; the reader of the trail sorts by time and id.
- The grouping pass, ClassText's use in the operator pages, and audit rows of other pages.
- Auth.ForwardAuth.Check: one credential at a time; concurrent misses on one key are not interleaved.
- ConsensusSteps.TicksKeepSafe: listing and deleting the covered rows are one call; nothing else writes the blocklist.
- Consensus.ServedIsCurrent: a pass is one step here; ConsensusSteps.ServedWasPermitted has edits inside a pass, which take effect with the next one.
- Blocklist.Published.Generate: the rendered header, the compressed body and the ETag, which depend only on the listed addresses and the rule.
- Prunings of ingest counters and allowlist requests, and the allowlist review workflow.
- ThreatSanitize.Sanitize: CleanText, time parsing and duration parsing are parameters.
- Cohort.Gather: starts from nodes already folded over the window; foldNodes and attachFamilies only accumulate fields.
- Pressure recomputation batches, cluster placement and the threshold table.
- Rollup.Store.RollMonth: only days_present; the other monthly aggregates come from the same grouped query.
- Rollup.NoHistoryIsLost: operation starts with empty tables, and the clock does not go back.
- SanitizeFQDN, rosters, Render, the response schema, grouping suggestions and date formatting.
