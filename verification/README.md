# Verified model of the VendorEdge decision back end

This project models the parts of VendorEdge whose correctness is hardest to see
by reading one function, and proves properties of them for every input, every
run and every answer a language model might give.

- **The durable reasoning queue** (`JobRows`, `JobRuns`, `JobSafety`,
  `JobLiveness`, `JobDiscovery`, `ReasoningTables`, `ReasoningStore`,
  `Dispatcher`, `Heartbeat`). `JobRows` says what one SQL statement does to one
  decision row and its job row. `JobRuns` lets workers, request handlers, the
  dispatcher and the clock interleave freely and proves the reachable-state
  invariant; a worker may present any attempt id at any time, so one that wakes
  late is covered. `ReasoningStore` is the same statements as methods that
  update the tables in place, and `ReasoningTables` shows that a run over many
  decisions is, for each decision, a run of its own case.
- **Evidence grounding** (`Texts`, `Evidence`, `EvidenceStates`, `Synthesis`).
  Two untrusted readings of a text are reconciled, checks over the raw text
  override them, a state is assigned, and a synthesis stage may not exceed it.
  Every model answer is an arbitrary value that may be missing.
- **The signal decision engine** (`Signal`, `SignalTheorems`, `SignalFacts`,
  `SignalAdvice`). The list-building code is proved equal to closed forms over
  the facts.
- **Category strategy and roadmap** (`Roadmap`, `RoadmapOrder`,
  `RoadmapContents`, `CategoryDiagnosis`, `CategoryStrategy`, `CategoryTheorems`,
  `CategoryContents`, `CategoryMemory`, `CategoryWording`, `StableSorting`). The
  roadmap is a topological order, and retrieved history decides nothing.
- **Money** (`MoneyText`, `MoneyTheorems`, `Cents`, `Rounding`) and **the kernel
  check** (`Kernel`).

`dafny verify dfyconfig.toml` checks everything.

## Assumptions

- A newly generated attempt id has never been current before (version-4 UUIDs,
  section 5.4 of RFC 9562), and the database clock does not run backwards.
- Each transaction is one atomic step. `claim` holds the job row's lock for its
  whole decision (app/pipeline/job_queue.py:111-123).
- A new job row starts queued, with no attempts and `available_at` now
  (db/schema.sql:159-177); a completed position is guarded by the trigger at
  db/schema.sql:208-222; a new decision starts 'classifying' or, as a
  continuation, 'reasoning' under a new id (app/routes/decisions.py:785-792 and
  1367-1383); the routes otherwise only set 'awaiting_user_input' and
  'provider_unavailable' (app/routes/decisions.py:2756-2770).
- Region keys are single words (`Texts.RegionKeysAreWords`), every phrase for a
  supplier's outcome contains "supplier" (`Texts.SupplierPhrasesSaySupplier`), and the percentage
  pattern finds something exactly where a percent sign follows a digit
  (`CategoryMemory.FindsPercentages`).

## Where the code does not do what its documentation says

The model follows the code in each case; the lemma named gives the exact condition.

- A completed decision is not completed for ever: `claim` never looks at the
  decision's status when the heartbeat is stale
  (`JobSafety.CompletedIsLeftIff`, `JobSafety.CompletedCanBeReopened`).
- Two live workers can hold the same, current attempt id when a lease runs out
  under a fresh heartbeat, so fencing cannot tell them apart
  (`JobSafety.OneIdIsHandedOutTwice`, `JobSafety.ReclaimInstallsFreshId`).
- A later process is said to reclaim "without losing the case" (job_queue.py:3-5).
  `complete` is not fenced, so a worker whose attempt was replaced takes the new
  attempt's job off the queue; if that attempt then dies, nothing finds the case
  again (`JobSafety.AReclaimedCaseCanBeLost`, `Dispatcher.ReplacedWorkerStrandsTheCaseIff`).
- `requeue` describes itself as serving a real retry, but never resets the count:
  after the last attempt it queues a job nobody can claim
  (`JobSafety.RequeueRevivesIffAttemptsLeft`).
- A generic-triage failure is recorded as a completed job, so it is not retried
  (`Dispatcher.JobEndsAs`, in the contracts of `Dispatcher.WorkerOutcome` and
  `Dispatcher.RunQueuedJob`).
- At exactly 90 seconds of silence `is_stale` says stale and `try_reclaim`
  refuses; JOB_LIFECYCLE_DESIGN.md:167 calls that instant reclaimable, line 145
  does not (`JobLiveness.StalenessChecksDisagreeIff`).
- The grace period is justified as six missed ticks (JOB_LIFECYCLE_DESIGN.md:73).
  A live worker keeps its case exactly while one tick more than it misses fits
  into 90 seconds, so with ticks any later than every 15 seconds five misses lose
  it (`JobLiveness.BeatingAttemptIsNeverSuperseded`, `JobLiveness.LateScheduleLosesTheCase`).
- A geography "may narrow, must never broaden" (market_signal_intelligence.py:703-708).
  The check admits every region once the cited reading has none, and a second
  reading that disputes the region clears it, so distrust opens the check
  (`Synthesis.EveryRegionIsAdmittedIff`, `Synthesis.RegionsStayInTheTextIff`,
  `Synthesis.DisputeAdmitsEveryRegion`).
- The finding a translation's numbers are compared with is called the
  authoritative evidence (market_signal_intelligence.py:1154-1159), but it is a
  field of the same answer and is itself compared with nothing
  (`Synthesis.NumbersStayInTheTextIff`, `Synthesis.TranslationCanSurviveIff`).
- The advice to monitor instead of investigating is never given
  (`SignalTheorems.MonitorAdviceIsUnreachable`); the advice can read
  "sufficient to act on" while the state is INVESTIGATE
  (`SignalTheorems.AdviceAndStateDisagreeIff`); and WATCH, nothing "worth acting
  OR investigating on", can come with an investigation
  (`SignalTheorems.WatchAsksForWorkIff`).
- The numeric parser promises a value "stripping thousands separators", but an
  amount written without separators is cut to three digits: "1250/unit" reads as 125
  (`MoneyTheorems.UngroupedIsReadInFullIff`). It also drops a minus sign
  (`MoneyTheorems.RoundTripIff`).
- History is said never to alter a decision; it can still add a roadmap
  initiative, because the roadmap looks for a word in a text history was appended
  to (`CategoryWording.RoadmapIgnoresHistoryIff`, `CategoryWording.HistoryCanAddAnInitiative`).
- Two of the sentences written for a supplier's precedent, for a change over time
  and for a contradiction, never appear, because no business date is passed and
  only concentration and strategy facts become precedents; and
  the one for a recurrence only ever quotes a blank text
  (`CategoryMemory.SupplierPrecedentsAre`).
- The 50% and 25% share thresholds trip at 49.95% and 24.95%
  (`CategoryDiagnosis.ThresholdsTripEarly`).

## Model

| member | source | states |
|---|---|---|
| JobRuns.ReachableStatesAreSound | app/pipeline/job_queue.py:146-202 | In every reachable state: ids installed once each and the last is current; stored results in install order; 'completed' means the stored position is by the attempt still current; 'reasoning' or a heartbeat means an id; 'running' means a lease |
| JobRuns.StepKeepsInv | app/pipeline/attempt_fencing.py:37-98 | Every statement and every clock step keeps that invariant |
| JobSafety.SupersededAttemptIsInert | app/pipeline/attempt_fencing.py:127-186 | Once an id has been replaced, no heartbeat, result or failure write under it changes any field, in any later state of any run |
| ReasoningTables.SupersededAttemptIsInertInTables | app/pipeline/attempt_fencing.py:127-186 | The same over both tables: such a write changes no row at all, whatever all cases did in between |
| JobSafety.ResultsFollowInstallOrder | app/pipeline/attempt_fencing.py:151-170 | Results stored over a run come from attempts in the order those were installed |
| JobSafety.ClaimReturnsCurrentId | app/pipeline/job_queue.py:146-202 | In a reachable state claim never raises, succeeds exactly when eligible, and returns the id that is current from then on; the old one exactly when the heartbeat is fresh |
| JobSafety.ReclaimInstallsFreshId | app/pipeline/job_queue.py:156-202 | Two claims return different ids unless, between them, the lease ran out or requeue or fail_or_retry moved the job |
| JobSafety.OneIdIsHandedOutTwice | app/pipeline/job_queue.py:164-189 | A legal run in which two claims of one job return the same, still current id, although the first worker never missed a heartbeat |
| JobSafety.AReclaimedCaseCanBeLost | app/pipeline/job_queue.py:205-206 | A reachable run in which a worker, its case reclaimed and its result refused, completes the new attempt's job: nothing is stored, attempts are left, and no run without requeue or fail_or_retry makes the case due or claimable |
| JobSafety.InactiveJobStaysOff | app/pipeline/job_queue.py:156-167 | A job neither waiting nor running is never due or claimable in any run without requeue or fail_or_retry |
| JobSafety.FailedDecisionIsAlwaysRecoverable | app/routes/decisions.py:1222-1228 | In every reachable state a decision whose provider failed is reclaimed at once under a fresh id, and the failed attempt writes nothing from then on |
| JobSafety.OnlySilenceOrFailureIsReclaimed | app/pipeline/attempt_fencing.py:82-93 | A reclaim succeeds exactly on a provider failure, or on a decision in reasoning with no heartbeat or none within 90 seconds; otherwise nothing changes |
| JobSafety.JobLeavesTheQueueIff | app/pipeline/job_queue.py:205-254 | An active job leaves the queue exactly by complete, cancel, or the failure of its last attempt |
| JobSafety.ClaimsAreBounded | app/pipeline/job_queue.py:160-199 | No run claims a job more than three times, and the count column equals the number of claims |
| JobSafety.ExhaustedForGood | app/pipeline/job_queue.py:33-63 | After the last attempt no sequence of operations makes the job claimable |
| JobSafety.RequeueRevivesIffAttemptsLeft | app/pipeline/job_queue.py:33-63 | A requeued job can be claimed exactly when attempts were left |
| JobSafety.CancelledUntilRequeued | app/pipeline/job_queue.py:209-219 | After a cancel no claim succeeds until a requeue |
| JobSafety.CompletedIsLeftIff | app/pipeline/job_queue.py:178-189 | The three ways a decision leaves 'completed', and no other |
| JobSafety.CompletedPositionIsImmutable | db/schema.sql:208-222 | While a decision stays completed its position never changes |
| JobSafety.CompletedCanBeReopened | app/pipeline/job_queue.py:178-187 | A reachable finished decision that one legal claim puts back to 'reasoning' |
| JobLiveness.BeatingAttemptIsNeverSuperseded | app/pipeline/attempt_fencing.py:28-29 | With any tick period and number of misses in a row such that (misses + 1) * period is within 90 s, an attempt whose decision stays in 'reasoning' stays current in every run |
| JobLiveness.LateScheduleLosesTheCase | app/pipeline/attempt_fencing.py:82-93 | With any other period and number of misses, a ticker that keeps to them can have its case reclaimed: the condition is exact |
| JobLiveness.DeadWorkerIsRecoverable | app/pipeline/job_queue.py:156-167 | When heartbeats stop at t, the job is claimable exactly after t + 90 s or its lease, and that claim installs a new id exactly after t + 90 s |
| JobLiveness.StalenessChecksDisagreeIff | app/pipeline/attempt_fencing.py:101-124 | is_stale and try_reclaim disagree exactly at 90 seconds |
| JobDiscovery.DiscoveryRefinesClaiming | app/pipeline/job_queue.py:258-353 | Every reported job is claimable; the only claimable case never reported is characterised exactly |
| JobDiscovery.DueIff | app/pipeline/job_queue.py:295-312 | The due list, column by column |
| JobDiscovery.ClaimableIff | app/pipeline/job_queue.py:146-159 | What can be claimed in a reachable state, column by column |
| JobDiscovery.ClaimedCaseIsNotDue | app/pipeline/job_queue.py:156-202 | A due case is always claimed and is then off the due list |
| ReasoningTables.StatementTouchesOneCase | app/pipeline/job_queue.py:191-199 | A statement changes its own decision's rows as the one-case model says, and no other row |
| ReasoningTables.EachCaseRunsAlone | app/pipeline/job_queue.py:126-137 | A run over the tables is, for each decision, the run of its own case |
| ReasoningTables.OtherCasesDoNotMatter | app/pipeline/job_queue.py:126-137 | Statements on other decisions leave a case unchanged over any run |
| ReasoningStore.Database.StartNewAttempt | app/pipeline/attempt_fencing.py:37-65 | Won exactly by the caller that finds the expected status; whole new state |
| ReasoningStore.Database.TryReclaim | app/pipeline/attempt_fencing.py:68-98 | Won exactly when the status is provider_unavailable, or reasoning with no heartbeat or none within 90 seconds; every column of the new state |
| ReasoningStore.Database.IsStale | app/pipeline/attempt_fencing.py:101-124 | Stale and elapsed time, for a missing row and a missing heartbeat too |
| ReasoningStore.Database.WriteHeartbeat | app/pipeline/attempt_fencing.py:127-148 | Fenced, never raises, dropped when not delivered |
| ReasoningStore.Database.WriteFinalResult | app/pipeline/attempt_fencing.py:151-170 | Written, superseded, or refused by the trigger; whole new state |
| ReasoningStore.Database.WriteProviderUnavailable | app/pipeline/attempt_fencing.py:173-186 | Fenced failure mark |
| ReasoningStore.Database.Enqueue | app/pipeline/job_queue.py:21-30 | Inserts a fresh job, never overwrites one |
| ReasoningStore.Database.Requeue | app/pipeline/job_queue.py:33-63 | Inserts, or revives keeping the attempt count |
| ReasoningStore.Database.Claim | app/pipeline/job_queue.py:66-202 | Returns the protocol's answer, exactly when eligible, and updates every column of both rows in one step |
| ReasoningStore.Database.Complete | app/pipeline/job_queue.py:205-206 | Marks the job completed, unfenced |
| ReasoningStore.Database.Cancel | app/pipeline/job_queue.py:209-219 | True exactly for a waiting or running job |
| ReasoningStore.Database.IsCancelled | app/pipeline/job_queue.py:222-227 | A cancelled job is neither due nor claimable; a waiting job that is due with attempts left is claimable exactly when the answer is no |
| ReasoningStore.Database.FailOrRetry | app/pipeline/job_queue.py:230-246 | Failed exactly when attempts are exhausted or there is no job; otherwise a bounded delay |
| ReasoningStore.Database.RecoverableJobs | app/pipeline/job_queue.py:318-353 | Exactly the due jobs, each once |
| ReasoningStore.Database.FindNextDueJob | app/pipeline/job_queue.py:258-315 | A due job with the oldest available_at; none exactly when none is due |
| Dispatcher.ReachableRowsAreSound | app/pipeline/job_queue.py:191-199 | The dispatcher's assumption on rows follows from reachability |
| Dispatcher.RunQueuedJob | app/routes/decisions.py:1079-1135 | An unclaimable job is left alone; otherwise, after the claim and anything others do during the call, every column as the call's end demands: a current attempt's result stored and its job completed, a retry or failure only when the call raises or another answer is already stored |
| Dispatcher.WorkerOutcome | app/routes/decisions.py:1099-1135 | The same for every way a call can end and every state it can end in |
| Dispatcher.CurrentResultIsStored | app/routes/decisions.py:1126-1132 | A result of the attempt still current ends in a completed decision with exactly that position and provenance and a completed job; the job ends otherwise only when the decision already had another answer |
| Dispatcher.ReplacedWorkerLeavesTheDecision | app/routes/decisions.py:2740-2751 | A worker whose attempt was replaced during its call changes no decision row, however the call ends |
| Dispatcher.ReplacedWorkerStrandsTheCaseIff | app/routes/decisions.py:1130-1135 | It takes its successor's job off the queue exactly when it did not die and no retry is scheduled |
| Dispatcher.RunDispatcherLoop | app/pipeline/dispatcher.py:64-76 | With any waits and discovery failures: a poll dispatches exactly when discovery answers and something is due, each dispatch uses one attempt of its job and never more than are left, and back-to-back polls drain the due list, each job once |
| Dispatcher.Poll | app/pipeline/dispatcher.py:64-69 | A poll finds nothing exactly when nothing is due; otherwise it takes exactly one job off the due list |
| Heartbeat.HeartbeatTicker.TickLoop | app/pipeline/attempt_fencing.py:210-212 | The loop is exactly one run of the protocol: in each turn anything the clock and everyone else do for at least 15 s, then one fenced beat |
| Heartbeat.HeartbeatAgesByMisses | app/pipeline/attempt_fencing.py:210-212 | Undisturbed, the stored heartbeat is exactly as old as the ticks missed since the last delivery, and stale only past six |
| Heartbeat.TickerStopsMatteringOnceReplaced | app/pipeline/attempt_fencing.py:127-148 | From the turn on in which its attempt is replaced, both tables go exactly as they would without the ticker |
| Texts.WordNormalFormsAgree | app/pipeline/market_signal_intelligence.py:1142-1143 | The two text normal forms agree on single words, which the two geography checks rely on |
| Evidence.ClassifyEvidence | app/pipeline/market_signal_intelligence.py:588-783 | Each finding is classified from its own text and answers only |
| EvidenceStates.StateIs | app/pipeline/market_signal_intelligence.py:741-776 | The state in closed form over the three voices: negation by any, then whatever is unheard, unanswered, disputed or beside the question, then the verdict, then source and self-report |
| EvidenceStates.ContradictedIff | app/pipeline/market_signal_intelligence.py:741-768 | CONTRADICTED exactly on a negation by any voice, or on a settled finding whose verdict contradicts |
| EvidenceStates.NegationIff | app/pipeline/market_signal_intelligence.py:667-671 | The settled negation is the disjunction of the three voices |
| EvidenceStates.SelfReportIff | app/pipeline/market_signal_intelligence.py:672-674 | The settled attribution is a supplier's own claim exactly when one of the three suspects it or there was no second reading |
| EvidenceStates.QuantityIff | app/pipeline/market_signal_intelligence.py:676-681 | Exactly when the first reading's quantity survives both the second reading and the text |
| EvidenceStates.RegionIff | app/pipeline/market_signal_intelligence.py:709-712 | Exactly when its region does |
| EvidenceStates.ScopeIs | app/pipeline/market_signal_intelligence.py:691-700 | The less specific of the two scopes, a global one only if the text says so |
| EvidenceStates.SubjectAndTimeframeAre | app/pipeline/market_signal_intelligence.py:380-402 | Subject and time frame stand unless unheard or contradicted, and are never replaced |
| EvidenceStates.DisputeIff | app/pipeline/market_signal_intelligence.py:404-430 | The direction is in dispute exactly without a second reading, on opposed predicates, or when the text or the check behind it reverses the direction |
| Evidence.NegationMarkerContradicts | app/pipeline/market_signal_intelligence.py:667-671 | A negation marker in the text makes the finding CONTRADICTED whatever both readings say |
| Evidence.UnconfirmedOrReversedIsNeverTrusted | app/pipeline/market_signal_intelligence.py:744-764 | No second reading, or a direction the text reverses, is never a trusted state |
| Evidence.TrustedIff | app/pipeline/market_signal_intelligence.py:741-776 | Exactly which checks must all pass for each of the two trusted states |
| Evidence.DistrustNeverRaisesState | app/pipeline/market_signal_intelligence.py:314-447 | Turning on a second-reading negation or self-report flag, or losing that reading, never raises the state |
| Evidence.ScopeOnlyLoosens | app/pipeline/market_signal_intelligence.py:388-394 | The settled scope is never more specific than either reading's |
| Evidence.SurvivingQuantityIsGrounded | app/pipeline/market_signal_intelligence.py:676-681 | A surviving quantity stands in the text or was vouched for where the text is silent |
| Evidence.SurvivingGeographyIsGrounded | app/pipeline/market_signal_intelligence.py:709-712 | A surviving geography is grounded in the text |
| Synthesis.LastCarryingIsLast | app/pipeline/market_signal_intelligence.py:1364-1365 | The dictionaries keyed by state hold the last finding of that state |
| Synthesis.FilterImpacts | app/pipeline/market_signal_intelligence.py:1367-1416 | As many impacts as entries with a dimension and a carried state, in their order; each keeps dimension, finding and state, and its translation exactly when that passes every check |
| Synthesis.ImpactsFollowEntries | app/pipeline/market_signal_intelligence.py:1374-1416 | The same of the specification the other results speak of |
| Synthesis.SurvivesIff | app/pipeline/market_signal_intelligence.py:1189-1321 | A translation survives exactly when it passes every check, each over the fields of entry and cited reading |
| Synthesis.ImpactsAreJustified | app/pipeline/market_signal_intelligence.py:1374-1404 | Every impact cites a state some finding carries; a translation in it passed both layers |
| Synthesis.EveryTranslationIsVetted | app/pipeline/market_signal_intelligence.py:1364-1416 | Every impact that leaves the loop with a translation: a verifier denied causation and entitlement, its customer claims rest on the cited finding, its regions do while that has a non-universal region left, its implied quantity is the cited finding's, and its numbers stand in the finding text the same entry gives |
| Synthesis.CustomerClaimsNeedCustomerEvidence | app/pipeline/market_signal_intelligence.py:1238-1296 | A customer or category claim survives only on a finding read as customer-specific by the first pass and, for trusted states, the second |
| Synthesis.SurvivorsAreNeitherCausalNorEntitling | app/pipeline/market_signal_intelligence.py:1400-1404 | Survival needs a verifier that answered no to both, and a model that claimed neither |
| Synthesis.NarrowingComposes | app/pipeline/market_signal_intelligence.py:915-956 | Grounding and validation compose: what the implication claims is a subset of the regions the text names |
| Synthesis.GeographyOnlyNarrows | app/pipeline/market_signal_intelligence.py:1312-1320 | While the cited evidence has a region that is set and not universal, every region a surviving implication claims is named in that finding's source text |
| Synthesis.RegionsStayInTheTextIff | app/pipeline/market_signal_intelligence.py:1312-1320 | The regions of all survivors are bound to the cited text exactly when the cited reading's own region is |
| Synthesis.EveryRegionIsAdmittedIff | app/pipeline/market_signal_intelligence.py:1312-1320 | An entry that survives would survive with any region at all exactly when the cited reading has no region |
| Synthesis.DisputeAdmitsEveryRegion | app/pipeline/market_signal_intelligence.py:396-398 | When the second reading merely disputes the cited finding's region, every survivor still survives, with any region whatever |
| Evidence.DisputedRegionIsOnlyCleared | app/pipeline/market_signal_intelligence.py:396-398 | That dispute clears the region and changes neither the state nor any other field |
| Synthesis.QuantitiesOnlyNarrow | app/pipeline/market_signal_intelligence.py:1189-1209 | Every number of a surviving translation stands in the entry's own finding; a quantity its implication names is the cited finding's, traceable to the text or vouched for |
| Synthesis.NumbersStayInTheTextIff | app/pipeline/market_signal_intelligence.py:1377-1381 | Survivors with a given finding keep to the numbers of the cited text if that finding does, and, when the finding could itself be a translation, only then |
| Synthesis.TranslationCanSurviveIff | app/pipeline/market_signal_intelligence.py:1189-1321 | What the evidence decides about the wording of a translation is its tense only: any other text without a customer's outcome can be got through |
| Signal.BuildSignalAnswer | app/pipeline/commercial_signal_profile.py:195-651 | The step-by-step construction computes the specified answer |
| SignalFacts.PictureIs | app/pipeline/commercial_signal_profile.py:171-266 | Which fact each figure is read from: the first calculated change of a metric, the last calculated category figure, the first category spend |
| SignalFacts.StateIs | app/pipeline/commercial_signal_profile.py:642-651 | The decision state over the facts themselves |
| SignalFacts.ContradictionsAre | app/pipeline/commercial_signal_profile.py:465-502 | Which contradictions are listed, over the facts and stated text |
| SignalFacts.DimensionIff | app/pipeline/commercial_signal_profile.py:198-228 | Exactly which dimensions are listed, with entity and size |
| SignalFacts.HypothesisIff | app/pipeline/commercial_signal_profile.py:336-454 | Exactly which hypotheses are listed, with their status |
| SignalFacts.ScenarioImpactIs | app/pipeline/commercial_signal_profile.py:266-272 | The dollar impact is today's spend less the one that grows into it by the stated percentage; when it is unknown |
| SignalAdvice.AdviceIs | app/pipeline/commercial_signal_profile.py:521-609 | The ranked search in closed form: split an unknown price, else settle the specification change, else look into the movement known in money or else the largest, ties in a fixed order, and what is said when nothing is open |
| Signal.FirstLeast | app/pipeline/commercial_signal_profile.py:521-544 | The least hypothesis in the ranking, the earliest among equals |
| SignalTheorems.ActNowIff | app/pipeline/commercial_signal_profile.py:642-651 | ACT_NOW exactly under the closed form over figures and stated text |
| SignalTheorems.WatchIff | app/pipeline/commercial_signal_profile.py:642-651 | WATCH exactly when nothing is contradicted and nothing is material |
| SignalTheorems.OtherHypothesesAre | app/pipeline/commercial_signal_profile.py:444-454 | Which hypotheses the per-dimension loop adds |
| SignalTheorems.HypothesisShape | app/pipeline/commercial_signal_profile.py:352-454 | What status and dimension each generated hypothesis can have |
| SignalTheorems.GateComesFirst | app/pipeline/commercial_signal_profile.py:521-609 | A gating hypothesis, when present, is always the one investigated first, and only then |
| SignalTheorems.AdviceResolvesTheLeast | app/pipeline/commercial_signal_profile.py:579-609 | The chosen hypothesis is open and relevant, no other such one ranks ahead of it, and those listed before it all rank behind it: the earliest among ties |
| SignalTheorems.MonitorAdviceIsUnreachable | app/pipeline/commercial_signal_profile.py:598-605 | That advice is never given |
| SignalTheorems.AdviceAndStateDisagreeIff | app/pipeline/commercial_signal_profile.py:579-651 | Exactly when the advice says act and the state does not |
| SignalTheorems.AdviceAndStateCanDisagree | app/pipeline/commercial_signal_profile.py:579-651 | A concrete case of that |
| SignalTheorems.WatchAsksForWorkIff | app/pipeline/commercial_signal_profile.py:579-651 | WATCH comes with an investigation to run exactly when nothing is contradicted or material and the cost movement is unexplained |
| SignalTheorems.InvestigateWithoutWorkIff | app/pipeline/commercial_signal_profile.py:579-651 | INVESTIGATE comes with none exactly when the case contradicts itself and no question is open, in closed form |
| SignalTheorems.OpenQuestionIff | app/pipeline/commercial_signal_profile.py:579-580 | When some hypothesis stays open and relevant, in closed form over figures and stated text |
| SignalTheorems.ActNowAsksForNoWork | app/pipeline/commercial_signal_profile.py:579-651 | ACT_NOW always comes with the advice to act |
| Roadmap.BuildInitiatives | app/pipeline/dependency_roadmap.py:117-209 | The initiative list, piece by piece in order |
| RoadmapContents.InitiativeIff | app/pipeline/dependency_roadmap.py:117-209 | Exactly which initiatives are planned, each with area, horizon, reason and dependencies |
| RoadmapContents.RoadmapWaits | app/pipeline/dependency_roadmap.py:181-198 | In the roadmap the contract waits for leverage always and for the price check exactly when one is planned, and leverage waits for every qualification |
| RoadmapContents.ForSuppliersOfSum | app/pipeline/dependency_roadmap.py:151-169 | The suppliers' initiatives follow the strategies in order |
| Roadmap.BuildInvestigations | app/pipeline/dependency_roadmap.py:61-106 | One investigation per material driver and stated ESG requirement |
| Roadmap.BuildRoadmap | app/pipeline/dependency_roadmap.py:212-239 | Each horizon's bucket holds its initiatives in input order |
| RoadmapOrder.SlotHoldsInitiative | app/pipeline/dependency_roadmap.py:219-239 | Every initiative stands in the reading, at its slot |
| RoadmapOrder.EveryInitiativeOnce | app/pipeline/dependency_roadmap.py:219-239 | No two share a place; input order is kept inside a horizon |
| RoadmapOrder.EveryEntryIsAnInitiative | app/pipeline/dependency_roadmap.py:219-239 | Nothing else is in the reading |
| RoadmapOrder.ReadingIsTopological | app/pipeline/dependency_roadmap.py:117-239 | Every name an entry depends on is placed strictly earlier and nowhere later, even when names repeat |
| RoadmapOrder.BlocksMirrorDependencies | app/pipeline/dependency_roadmap.py:222-224 | blocks is the exact converse of depends_on |
| StableSorting.StableSortIsStable | app/pipeline/category_strategy_profile.py:386-389 | Each rank's items stay in input order |
| StableSorting.StableSortIsUnique | app/pipeline/category_strategy_profile.py:386-389 | Any list sorted by rank that keeps each rank's order is the one modelled |
| CategoryDiagnosis.BuildRows | app/pipeline/category_strategy_profile.py:79-86 | Every supplier a fact names has exactly one row, the category has none, and there are no other rows |
| CategoryDiagnosis.RowIs | app/pipeline/category_strategy_profile.py:79-86 | A row's share is its spend over the category's to the nearest tenth of a percent, and its growth is its own |
| CategoryDiagnosis.FirstValueIsFirst | app/pipeline/category_strategy_profile.py:73-83 | Each figure is the value of the first fact of that entity and metric |
| CategoryDiagnosis.ThresholdsTripEarly | app/pipeline/category_strategy_profile.py:84-84 | On unrounded spend the thresholds of 50% and 25% are 49.95% and 24.95% |
| CategoryStrategy.ClassifySupplier | app/pipeline/category_strategy_profile.py:107-215 | Each strategy exactly under its condition on current share, qualification and growth; the reason begins with the deciding branch's own sentence, and is that sentence without history |
| CategoryContents.GroundIs | app/pipeline/category_strategy_profile.py:147-165 | Which branch decides, over share, qualification, growth and capacity |
| CategoryContents.StrategyIs | app/pipeline/category_strategy_profile.py:147-165 | The strategy of each branch |
| CategoryContents.ReasonIs | app/pipeline/category_strategy_profile.py:167-213 | The reason: the branch's sentence, one for a comparable precedent, one for the first related item that says anything |
| CategoryStrategy.ClassifyAll | app/pipeline/category_strategy_profile.py:376-389 | Every profile classified, then stably ordered |
| CategoryContents.StrategiesByConsequence | app/pipeline/category_strategy_profile.py:386-389 | Challenge before develop before qualify before monitor |
| CategoryContents.EqualStrategiesKeepProfileOrder | app/pipeline/category_strategy_profile.py:376-389 | Inside each strategy the suppliers stand in the order of the profiles |
| CategoryStrategy.Build360Findings | app/pipeline/category_strategy_intelligence.py:146-437 | The findings in order, each with its own precedent attached |
| CategoryContents.FindingIff | app/pipeline/category_strategy_intelligence.py:146-371 | Exactly which findings are made, with dimension, state, impact and action |
| CategoryContents.HistoryIsAttached | app/pipeline/category_strategy_intelligence.py:373-431 | A precedent is attached and noted exactly when it is neither retired nor irrelevant; nothing else changes |
| CategoryStrategy.ApplyGuardrails | app/pipeline/category_strategy_intelligence.py:448-478 | No CONTRADICTED stays BACKGROUND, no SUPPLIER_CLAIM stays DECISION_CHANGING, nothing but the impact changes |
| CategoryStrategy.BuildSurfaced | app/pipeline/category_strategy_profile.py:585-587 | Findings, guardrails and filter in sequence |
| CategoryStrategy.BuildPriorities | app/pipeline/category_strategy_profile.py:495-542 | Priority headlines, recurring ones first |
| CategoryContents.HeadlinesAre | app/pipeline/category_strategy_profile.py:495-542 | Recurring suppliers first, then the others, each in strategy order and none monitored, then the contradiction and the price check |
| CategoryTheorems.StrategiesFollowEvidence | app/pipeline/category_strategy_profile.py:376-389 | The ordered (supplier, strategy) list is a function of current evidence alone |
| CategoryTheorems.StrategiesIgnoreHistory | app/pipeline/category_strategy_profile.py:376-389 | Any two histories give the same ordered (supplier, strategy) list |
| CategoryTheorems.StrategiesAreAllListedInOrder | app/pipeline/category_strategy_profile.py:386-389 | Sorted by consequence, and nobody is lost |
| CategoryTheorems.SurfacedFindingsIgnoreHistory | app/pipeline/category_strategy_intelligence.py:146-478 | Any two histories surface the same dimensions, findings, states and impacts in the same order |
| CategoryTheorems.GuardrailsAreIdle | app/pipeline/category_strategy_intelligence.py:448-478 | On the findings built here the guardrails correct nothing, as documented |
| CategoryTheorems.EveryContradictionSurfaces | app/pipeline/category_strategy_intelligence.py:440-478 | No finding list loses a contradiction on its way to the buyer |
| CategoryTheorems.DecisionChangingIffDominant | app/pipeline/category_strategy_intelligence.py:203-237 | A supplier is reported as decision-changing exactly when it holds half of the spend, with or without a profile, whatever the history |
| CategoryTheorems.PrioritiesArePermuted | app/pipeline/category_strategy_profile.py:495-542 | Any two histories give permutations of the same headlines |
| CategoryTheorems.RecurringPrioritiesLead | app/pipeline/category_strategy_profile.py:533-538 | Recurring ones lead, each half in strategy order, closing items last |
| CategoryWording.CapacityInitiativeIff | app/pipeline/dependency_roadmap.py:164-169 | A monitored supplier gets a capacity initiative exactly when its figure is unvalidated or its history text mentions capacity |
| CategoryWording.RoadmapIgnoresHistoryIff | app/pipeline/dependency_roadmap.py:117-209 | History leaves the initiatives and their order as they are without it exactly when for no profile of which nothing current speaks the history text mentions capacity |
| CategoryWording.RoadmapsAgreeIff | app/pipeline/dependency_roadmap.py:117-209 | Any two histories give the same roadmap exactly when they mention capacity for the same such suppliers |
| CategoryWording.HistoryCanAddAnInitiative | app/pipeline/dependency_roadmap.py:164-169 | A stored finding that the memory service reconciles and that adds an initiative |
| CategoryWording.SourceSentencesQualify | app/pipeline/category_strategy_profile.py:148-213 | The source's own sentences have the properties the roadmap results rest on |
| CategoryMemory.ReconcileMemory | app/pipeline/memory_service.py:511-572 | One pass gives every supplier its last matching item as precedent and its other items as related context, in order |
| CategoryMemory.ReconcileOneIs | app/pipeline/memory_service.py:386-460 | Equal figures confirm, different ones complement or, for a claim about its own moment, contradict; without figures the texts are compared; retired items are stale |
| CategoryMemory.PrecedentIsLast | app/pipeline/memory_service.py:547-561 | A supplier's precedent is its last concentration item, compared with its share of spend |
| CategoryMemory.RelatedOfSum | app/pipeline/memory_service.py:557-571 | Its related items come in the order retrieved |
| CategoryMemory.SupplierPrecedentsAre | app/pipeline/memory_service.py:389-464 | A supplier's precedent confirms, differs or is retired; it says neither change over time nor contradiction, and one without a difference has a blank text |
| MoneyTheorems.ParseOfFormatted | app/pipeline/numeric_parsing.py:12-39 | Reading a text with a printed amount in it gives the magnitude to the printed place: any amount, decimals, number of comma groups and text behind that does not continue the number |
| MoneyTheorems.RoundTripIff | app/pipeline/money.py:65-74 | The amount comes back exactly when it is not negative and exact at the printed place |
| MoneyTheorems.PrintsAgreeIff | app/pipeline/money.py:65-74 | Two print-outs are equal exactly for the same code or symbol, sign and amount shown |
| MoneyTheorems.ShownIsNearest | app/pipeline/money.py:71-71 | The amount shown is the nearest with that many decimals |
| MoneyTheorems.UnreadableIff | app/pipeline/numeric_parsing.py:12-39 | Nothing is read exactly from a text without a digit, never zero for want of one |
| MoneyTheorems.SymbolsAreIgnored | app/pipeline/numeric_parsing.py:28-28 | A currency symbol anywhere in a text changes nothing |
| MoneyTheorems.UnitWordsAreDropped | app/pipeline/numeric_parsing.py:29-29 | "per unit" and "/unit", in any case and with any gap, are read as if not there |
| MoneyTheorems.GroupedNumberMatchesWhole | app/pipeline/numeric_parsing.py:33-33 | The first alternative matches all of a grouped number with its fraction, and no more |
| MoneyTheorems.SecondAlternativeIsDead | app/pipeline/numeric_parsing.py:33-33 | The second alternative never decides |
| MoneyTheorems.UngroupedRunIsCut | app/pipeline/numeric_parsing.py:28-37 | Of more than three digits without commas only the first three are read, whatever stands before and behind |
| MoneyTheorems.UngroupedIsReadInFullIff | app/pipeline/numeric_parsing.py:28-37 | A number without commas, with or without a fraction and text behind, is read in full exactly with at most three digits before the point, or when zero |
| MoneyTheorems.SubtractUndoesAdd | app/pipeline/money.py:76-93 | Amounts combine exactly when currencies agree, and subtracting undoes adding |
| Rounding.RoundsToNearestTiesToEven | app/pipeline/commercial_answer.py:66-71 | The rounding used is to the nearest, ties to the even neighbour |
| Cents.HeadlineIsTheProduct | app/pipeline/commercial_answer.py:370-378 | The headline is spend times percent to half a cent, its month a twelfth of it to half a cent |
| Cents.TextScenarioIs | app/pipeline/commercial_answer.py:50-73 | When there is a text scenario, and that its six figures are spend times each percentage and their difference, to half a cent |
| Cents.EngineScenarioIs | app/pipeline/scenario_engine.py:67-125 | The engine's figures likewise, their difference exact |
| Cents.HeadlineMonthsMatchYear | app/pipeline/commercial_answer.py:370-378 | Twelve headline months are within six cents of the year |
| Cents.TextScenarioIsConsistent | app/pipeline/commercial_answer.py:50-73 | For each figure of a text scenario twelve months are within six cents, and the stated differences within one cent |
| Cents.EngineScenarioIsConsistent | app/pipeline/scenario_engine.py:67-125 | For an engine scenario the annual difference is exact and the monthly within one cent |
| Cents.BoundsAreReached | app/pipeline/commercial_answer.py:50-73 | Neither bound can be tightened |
| Kernel.ValidateKernel | app/pipeline/kernel.py:366-383 | The loop with its seen map reports the specified violations, duplicates numbering facts minus distinct keys |
| Kernel.ViolationIff | app/pipeline/kernel.py:366-383 | Exactly which violations are reported, for which fact and under which key |
| Kernel.DuplicatesCountRepeatedKeys | app/pipeline/kernel.py:374-381 | The same count, for the specification |
| Kernel.NoConflictIffAllAgree | app/pipeline/kernel.py:374-381 | No conflict exactly when all facts of a key agree pairwise, though each is compared only with the first |
| Kernel.FieldChecksIff | app/pipeline/kernel.py:370-373 | The entity and currency checks fire exactly on the facts that lack them |

## Left out

- PostgreSQL itself: SQL text, snapshot rules, the connection pool, row-level security and the organisation column; each transaction is one step.
- Language-model and search calls, their prompts and the recovery of JSON from their answers: arbitrary values.
- Threads: the ticker, the worker and the dispatcher take what happens while they wait as a list of events or outcomes.
- Phrase lists, region tables, temporal and direction vocabularies, stop words and source tiers by host name: parameters (`Lexicon`, flags), so theorems hold whatever they contain.
- Unicode: lower-casing and white space are ASCII.
- Floating point: amounts, percentages and shares are exact; `round` is exact half-even.
- Evidence spans and the audit fields of an extracted proposition: they do not reach the state.
- Headline text, materiality sentences, cockpit views and other prose of the signal answer; the closed form covers dimensions to state and advice.
- The order of suppliers by spend in the diagnosis: the theorems hold for rows in any order. Quick wins, notes, questions, archetype and the buyer's view are slices of modelled lists.
- How memory is extracted, stored, ranked and retrieved: any items. What is attached to findings, and a failure on the way, is any precedent; the precedents of suppliers are those of `CategoryMemory`.
- The sentences of findings: a finding says which sentence and what fills it. The wording is a parameter; `CategoryWording` gives the source's reasons, which the roadmap reads.
- Priority reasons, the placeholder texts of years 2 and 3, decision gates, trade-offs and the fixed parts of roadmap reasons: only names, horizons, areas, dependencies and blocks are modelled.
- How market and ESG reasoning derive drivers and claims: inputs of the roadmap.
- Dispatcher.RunDispatcherLoop: the runs it starts take no time and nobody else acts between its polls; a run that takes time and is interfered with is Dispatcher.RunQueuedJob.
- Dispatcher.RunQueuedJob: the reasoning call itself is one of four outcomes.
- MoneyTheorems.ParseOfFormatted: for currency codes without digits; a code with a digit is read as part of the number.
- Currency conversion and every other presentation, export and route module.
