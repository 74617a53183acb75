/** The background dispatcher (app/pipeline/dispatcher.py) and the worker it
    calls (`_run_queued_job`), over the database object. */
module Dispatcher {
  import opened Options
  import opened JobRows
  import opened JobRuns
  import opened JobSafety
  import opened JobDiscovery
  import opened ReasoningTables
  import opened ReasoningStore

  // How the reasoning call inside a claimed job ends: a result to store (the
  // generic path catches a refused write itself), a failure the generic path
  // records itself, an exception, or a dead process.
  datatype Work =
    | Finishes(position: Payload, provenance: Payload, generic: bool)
    | RecordsFailure
    | Raises(code: string, detail: string)
    | Dies

  predicate RowSound(c: Case) {
    && LeaseIsSet(c)
    && (c.decision.Some? && c.decision.value.lastHeartbeatAt.Some? ==> c.decision.value.currentAttempt.Some?)
  }

  predicate RowsSound(t: Tables) {
    ReferencesHold(t) && forall d :: d in t.decisions ==> RowSound(CaseOf(t, d))
  }

  /** The dispatcher's assumption on rows is a consequence of reachability. */
  lemma ReachableRowsAreSound(w: World)
    requires Reachable(w)
    ensures RowSound(w.c)
  {
    ReachableStatesAreSound(w);
  }

  lemma StatementKeepsRowsSound(t: Tables, d: DecisionId, s: Statement)
    requires RowsSound(t) && !s.InsertDecision?
    ensures RowsSound(After(t, d, s))
  {
    forall e | e in After(t, d, s).decisions ensures RowSound(CaseOf(After(t, d, s), e)) {
      StatementTouchesOneCase(t, d, s, e);
      assert RowSound(CaseOf(t, e));
    }
  }

  function DueJobs(t: Tables): set<DecisionId> {
    set d | d in t.jobs && Due(CaseOf(t, d), t.now)
  }

  lemma OnlyThisCaseLeavesTheList(t: Tables, d: DecisionId, s: Statement)
    requires ReferencesHold(t) && !Due(CaseOf(After(t, d, s), d), t.now)
    ensures DueJobs(After(t, d, s)) == DueJobs(t) - {d}
  {
    forall e ensures e in DueJobs(After(t, d, s)) <==> e in DueJobs(t) - {d} {
      StatementTouchesOneCase(t, d, s, e);
    }
  }

  // What one worker does after its claim, at the same clock reading.
  predicate IsWorkerWrite(s: Statement) {
    s.WriteFinalResult? || s.WriteProviderUnavailable? || s.Complete? || s.FailOrRetry?
  }

  predicate OffTheList(c: Case, now: Time) {
    && c.decision.Some? && c.job.Some? && c.job.value.attemptCount >= 1
    && !HeartbeatStale(c.decision.value, now) && !LeaseExpired(c.job.value, now)
    && (Waiting(c.job.value) ==> c.job.value.availableAt > now)
  }

  lemma WorkKeepsTheCaseOffTheList(c: Case, s: Statement, now: Time)
    requires OffTheList(c, now) && IsWorkerWrite(s)
    ensures OffTheList(Apply(c, s, now), now) && !Due(Apply(c, s, now), now)
  {}

  ghost predicate Handled(before: Tables, after: Tables, d: DecisionId) {
    && RowsSound(after) && after.now == before.now
    && OffTheList(CaseOf(after, d), after.now)
    && (forall e :: e != d ==> CaseOf(after, e) == CaseOf(before, e))
    && DueJobs(after) == DueJobs(before) - {d}
  }

  lemma WorkerWriteKeepsHandled(before: Tables, t: Tables, d: DecisionId, s: Statement)
    requires Handled(before, t, d) && IsWorkerWrite(s)
    ensures Handled(before, After(t, d, s), d)
    ensures CaseOf(After(t, d, s), d) == Apply(CaseOf(t, d), s, t.now)
  {
    forall e | e != d ensures CaseOf(After(t, d, s), e) == CaseOf(before, e) { StatementTouchesOneCase(t, d, s, e); }
    StatementTouchesOneCase(t, d, s, d);
    WorkKeepsTheCaseOffTheList(CaseOf(t, d), s, t.now);
    StatementKeepsRowsSound(t, d, s);
    OnlyThisCaseLeavesTheList(t, d, s);
  }

  /** The case a worker starts on: leased once more, under the id it was handed. */
  predicate ClaimLeases(before: Case, after: Case, newId: AttemptId, now: Time) {
    && before.job.Some? && after.job == Some(LeasedJob(before.job.value, now))
    && after.decision.Some? && after.decision.value.currentAttempt.Some?
    && ClaimAnswer(before, newId, now) == Claimed(after.job.value, after.decision.value.currentAttempt)
  }

  lemma ClaimHandles(t: Tables, d: DecisionId, newId: AttemptId)
    requires RowsSound(t) && d in t.jobs && Due(CaseOf(t, d), t.now)
    ensures ClaimAnswer(CaseOf(t, d), newId, t.now).Claimed?
    ensures ClaimAnswer(CaseOf(t, d), newId, t.now).attempt.Some?
    ensures Handled(t, After(t, d, Statement.Claim(newId)), d)
    ensures CaseOf(After(t, d, Statement.Claim(newId)), d).job.value.cancelRequestedAt.None?
    ensures CaseOf(After(t, d, Statement.Claim(newId)), d) == Apply(CaseOf(t, d), Statement.Claim(newId), t.now)
    ensures ClaimLeases(CaseOf(t, d), CaseOf(After(t, d, Statement.Claim(newId)), d), newId, t.now)
  {
    var s := Statement.Claim(newId);
    forall e | e != d ensures CaseOf(After(t, d, s), e) == CaseOf(t, e) { StatementTouchesOneCase(t, d, s, e); }
    assert RowSound(CaseOf(t, d));
    StatementTouchesOneCase(t, d, s, d);
    ClaimedCaseIsNotDue(CaseOf(t, d), newId, t.now);
    StatementKeepsRowsSound(t, d, s);
    OnlyThisCaseLeavesTheList(t, d, s);
  }

  /** How a claimed case looks when its worker is through.  A failure the generic
      path records itself leaves the job completed, so nothing retries it. */
  predicate Worked(after: Case, work: Work, leased: Job) {
    && after.decision.Some? && after.job.Some?
    && var d, j := after.decision.value, after.job.value;
    && j.attemptCount == leased.attemptCount && j.maxAttempts == leased.maxAttempts
    && match work
       case Dies => j.status.Running?
       case Finishes(position, _, generic) =>
         || (d.status.Completed? && d.position == Some(position) && j.status.Done?)
         || (generic && d.status.ProviderUnavailable? && j.status.Done?)
         || (!generic && EndsInRetry(d, j))
       case RecordsFailure => d.status.ProviderUnavailable? && j.status.Done?
       case Raises(code, detail) =>
         EndsInRetry(d, j) && j.lastError == Some(JobError(Truncate(code, 80), Truncate(detail, 2000)))
  }

  /** Another try is scheduled, or there is none left and the user is told. */
  predicate EndsInRetry(d: Decision, j: Job) {
    if Exhausted(j) then j.status.Failed? && d.status.ProviderUnavailable? else j.status.RetryScheduled?
  }

  // ----- the worker -----

  function FailureRecorded(t: Tables, d: DecisionId, attempt: AttemptId): Tables {
    After(After(t, d, Statement.WriteProviderUnavailable(attempt)), d, Statement.Complete)
  }

  function RetriedOrGivenUp(t: Tables, d: DecisionId, attempt: AttemptId, code: string, detail: string): Tables {
    var failed := After(t, d, Statement.FailOrRetry(code, detail));
    if d in t.jobs && !Exhausted(t.jobs[d]) then failed else After(failed, d, Statement.WriteProviderUnavailable(attempt))
  }

  /** What the worker of `attempt` does to the tables once its call has ended. */
  function WorkEnds(t: Tables, d: DecisionId, attempt: AttemptId, work: Work): Tables {
    match work
    case Dies => t
    case RecordsFailure => FailureRecorded(t, d, attempt)
    case Raises(code, detail) => RetriedOrGivenUp(t, d, attempt, code, detail)
    case Finishes(position, provenance, generic) =>
      var stored := After(t, d, Statement.WriteFinalResult(attempt, position, provenance));
      if d in t.decisions && FinalWriteOutcome(t.decisions[d], attempt, position).RefusedByTrigger? then
        if generic then FailureRecorded(stored, d, attempt)
        else RetriedOrGivenUp(stored, d, attempt, "RaiseException", "position already stored")
      else After(stored, d, Statement.Complete)
  }

  // ----- how a worker's call leaves the case, column by column -----

  /** Another try is scheduled, or the last one has failed. */
  predicate RetryOrFailure(before: Job, after: Job, now: Time) {
    && after.lastError.Some?
    && after == before.(lastError := after.lastError, updatedAt := now, status := after.status,
                        availableAt := after.availableAt, completedAt := after.completedAt)
    && (if before.attemptCount < before.maxAttempts
        then after.status.RetryScheduled? && after.completedAt.None? && after.availableAt >= now
        else after.status.Failed? && after.completedAt == Some(now) && after.availableAt == before.availableAt)
  }

  /** The decision after a worker's last write, when it still owns it and when not. */
  predicate DecisionEndsAs(before: Decision, after: Decision, attempt: AttemptId, work: Work, lastTry: bool, now: Time) {
    if before.currentAttempt != Some(attempt) then after == before else
    match work
    case Dies => after == before
    case RecordsFailure => after == before.(status := ProviderUnavailable)
    case Raises(_, _) => after == if lastTry then before.(status := ProviderUnavailable) else before
    case Finishes(position, provenance, generic) =>
      if before.status.Completed? && before.position != Some(position)
      then after == if generic || lastTry then before.(status := ProviderUnavailable) else before
      else after == before.(status := Completed, position := Some(position), provenance := Some(provenance), completedAt := Some(now))
  }

  predicate JobEndsAs(owned: Option<Decision>, before: Job, after: Job, work: Work, now: Time) {
    match work
    case Dies => after == before
    case RecordsFailure => after == before.(status := Done, completedAt := Some(now), updatedAt := now)
    case Raises(code, detail) =>
      && RetryOrFailure(before, after, now)
      && after.lastError == Some(JobError(Truncate(code, 80), Truncate(detail, 2000)))
    case Finishes(position, _, generic) =>
      if !generic && owned.Some? && owned.value.status.Completed? && owned.value.position != Some(position)
      then RetryOrFailure(before, after, now)
      else after == before.(status := Done, completedAt := Some(now), updatedAt := now)
  }

  /** A worker of `attempt` whose call ends on tables `t`: a result of a current
      attempt is stored exactly as given and its job completed, unless the
      decision already has another answer; only then, or when the call raises,
      is the job retried or failed.  Nothing else changes. */
  predicate EndsAs(t: Tables, after: Tables, d: DecisionId, attempt: AttemptId, work: Work) {
    && d in t.decisions && d in t.jobs && d in after.decisions && d in after.jobs
    && after == Tables(t.now, t.decisions[d := after.decisions[d]], t.jobs[d := after.jobs[d]])
    && DecisionEndsAs(t.decisions[d], after.decisions[d], attempt, work, t.jobs[d].attemptCount >= t.jobs[d].maxAttempts, t.now)
    && JobEndsAs(if t.decisions[d].currentAttempt == Some(attempt) then Some(t.decisions[d]) else None,
                 t.jobs[d], after.jobs[d], work, t.now)
  }

  lemma FailureRecordedEndsAs(t: Tables, d: DecisionId, attempt: AttemptId)
    requires d in t.decisions && d in t.jobs
    ensures EndsAs(t, FailureRecorded(t, d, attempt), d, attempt, RecordsFailure)
  {}

  lemma RetriedEndsAs(t: Tables, d: DecisionId, attempt: AttemptId, code: string, detail: string)
    requires d in t.decisions && d in t.jobs
    ensures EndsAs(t, RetriedOrGivenUp(t, d, attempt, code, detail), d, attempt, Raises(code, detail))
  {}

  /** What `WorkEnds` does, for every way a call can end. */
  lemma WorkerOutcome(t: Tables, d: DecisionId, attempt: AttemptId, work: Work)
    requires d in t.decisions && d in t.jobs
    ensures EndsAs(t, WorkEnds(t, d, attempt, work), d, attempt, work)
  {
    match work
    case Dies => assert t.decisions[d := t.decisions[d]] == t.decisions && t.jobs[d := t.jobs[d]] == t.jobs;
    case RecordsFailure => FailureRecordedEndsAs(t, d, attempt);
    case Raises(code, detail) => RetriedEndsAs(t, d, attempt, code, detail);
    case Finishes(position, provenance, generic) =>
      if FinalWriteOutcome(t.decisions[d], attempt, position).RefusedByTrigger? {
        RefusedWriteChangesNothing(t, d, attempt, position, provenance);
        FailureRecordedEndsAs(t, d, attempt);
        RetriedEndsAs(t, d, attempt, "RaiseException", "position already stored");
      }
  }

  lemma RefusedWriteChangesNothing(t: Tables, d: DecisionId, attempt: AttemptId, position: Payload, provenance: Payload)
    requires d in t.decisions && d in t.jobs && FinalWriteOutcome(t.decisions[d], attempt, position).RefusedByTrigger?
    ensures After(t, d, Statement.WriteFinalResult(attempt, position, provenance)) == t
  {
    assert t.decisions[d := t.decisions[d]] == t.decisions && t.jobs[d := t.jobs[d]] == t.jobs;
  }

  /** A worker whose attempt is still current stores exactly its result and
      completes its job; its job ends otherwise only when the decision already
      had another answer. */
  lemma CurrentResultIsStored(t: Tables, d: DecisionId, attempt: AttemptId, position: Payload, provenance: Payload, generic: bool)
    requires d in t.decisions && d in t.jobs && t.decisions[d].currentAttempt == Some(attempt)
    ensures var before, after := t.decisions[d], WorkEnds(t, d, attempt, Finishes(position, provenance, generic));
            && d in after.decisions && d in after.jobs
            && (before.status != Completed || before.position == Some(position) ==>
                  && after.decisions[d].status == Completed && after.decisions[d].position == Some(position)
                  && after.decisions[d].provenance == Some(provenance) && after.decisions[d].completedAt == Some(t.now)
                  && after.decisions[d].currentAttempt == Some(attempt)
                  && after.jobs[d].status == Done)
            && (after.jobs[d].status != Done || after.decisions[d].status == ProviderUnavailable ==>
                  before.status == Completed && before.position != Some(position))
  {
    WorkerOutcome(t, d, attempt, Finishes(position, provenance, generic));
  }

  lemma {:induction false} RowsStay(t: Tables, es: seq<TableEvent>, d: DecisionId)
    requires ReferencesHold(t) && d in t.jobs
    ensures d in TableExec(t, es).decisions && d in TableExec(t, es).jobs
    decreases |es|
  {
    if es != [] {
      if es[0].On? { StatementTouchesOneCase(t, es[0].d, es[0].s, d); }
      assert d in TableStep(t, es[0]).jobs;
      RowsStay(TableStep(t, es[0]), es[1..], d);
    }
  }

  /** After the claim, the call, and whatever everyone else did `meanwhile`. */
  ghost predicate RanQueuedJob(before: Tables, after: Tables, d: DecisionId, newId: AttemptId, work: Work, meanwhile: seq<TableEvent>) {
    var answer := ClaimAnswer(CaseOf(before, d), newId, before.now);
    if answer.Claimed? then
      && answer.attempt.Some?
      && EndsAs(TableExec(After(before, d, Statement.Claim(newId)), meanwhile), after, d, answer.attempt.value, work)
    else after == before
  }

  lemma ClaimNamesAnAttempt(t: Tables, d: DecisionId, newId: AttemptId)
    requires RowsSound(t)
    ensures !ClaimAnswer(CaseOf(t, d), newId, t.now).ClaimRaised?
    ensures ClaimAnswer(CaseOf(t, d), newId, t.now).Claimed? ==> ClaimAnswer(CaseOf(t, d), newId, t.now).attempt.Some?
  {
    if d in t.decisions { assert RowSound(CaseOf(t, d)); }
  }

  lemma ClaimedAndUncancelled(t: Tables, d: DecisionId, newId: AttemptId)
    requires ReferencesHold(t) && ClaimAnswer(CaseOf(t, d), newId, t.now).Claimed?
    ensures ReferencesHold(After(t, d, Statement.Claim(newId)))
    ensures var job := CaseOf(After(t, d, Statement.Claim(newId)), d).job; job.Some? && job.value.cancelRequestedAt.None?
  {
    StatementTouchesOneCase(t, d, Statement.Claim(newId), d);
  }

  /** `_run_queued_job`: a job that cannot be claimed is left alone; otherwise the
      claim, then whatever happens while the reasoning call lasts, time and other
      workers included, then the worker's own writes as its call ended.  When the
      job was due and nothing happened meanwhile, it is off the due list, no other
      case changed, and this one ends as its work ended. */
  method RunQueuedJob(db: Database, d: DecisionId, newId: AttemptId, work: Work, meanwhile: seq<TableEvent>)
    requires RowsSound(db.Contents())
    requires ClockRunsForward(After(db.Contents(), d, Statement.Claim(newId)), meanwhile)
    modifies db
    ensures db.Valid() && RanQueuedJob(old(db.Contents()), db.Contents(), d, newId, work, meanwhile)
    ensures old(Due(CaseOf(db.Contents(), d), db.now)) && meanwhile == [] ==>
              && Handled(old(db.Contents()), db.Contents(), d)
              && Worked(CaseOf(db.Contents(), d), work, LeasedJob(old(db.jobs[d]), old(db.now)))
  {
    ghost var start := db.Contents();
    ClaimNamesAnAttempt(start, d, newId);
    var claim := db.Claim(d, newId);
    if !claim.Claimed? {
      if Due(CaseOf(start, d), start.now) { ClaimHandles(start, d, newId); }
      return;
    }
    ClaimedAndUncancelled(start, d, newId);
    var cancelled := db.IsCancelled(d);
    if cancelled { return; }
    db.ExecuteAll(meanwhile);
    ghost var ended := db.Contents();
    RowsStay(After(start, d, Statement.Claim(newId)), meanwhile, d);
    DoWork(db, d, claim.attempt.value, work);
    WorkerOutcome(ended, d, claim.attempt.value, work);
    if Due(CaseOf(start, d), start.now) && meanwhile == [] {
      ClaimHandles(start, d, newId);
      WorkEndsHandled(start, After(start, d, Statement.Claim(newId)), d, claim.attempt.value, work);
    }
  }

  /** Between the end of the call and the return. */
  method DoWork(db: Database, d: DecisionId, attempt: AttemptId, work: Work)
    requires db.Valid()
    modifies db
    ensures db.Valid() && db.Contents() == WorkEnds(old(db.Contents()), d, attempt, work)
  {
    match work
    case Dies =>
    case Finishes(position, provenance, generic) => StoreResult(db, d, attempt, position, provenance, generic);
    case RecordsFailure => RecordFailure(db, d, attempt);
    case Raises(code, detail) => RetryOrGiveUp(db, d, attempt, code, detail);
  }

  method StoreResult(db: Database, d: DecisionId, attempt: AttemptId, position: Payload, provenance: Payload, generic: bool)
    requires db.Valid()
    modifies db
    ensures db.Valid() && db.Contents() == WorkEnds(old(db.Contents()), d, attempt, Finishes(position, provenance, generic))
  {
    var outcome := db.WriteFinalResult(d, attempt, position, provenance);
    if !outcome.RefusedByTrigger? {
      db.Complete(d);
    } else if generic {
      RecordFailure(db, d, attempt);
    } else {
      RetryOrGiveUp(db, d, attempt, "RaiseException", "position already stored");
    }
  }

  method RecordFailure(db: Database, d: DecisionId, attempt: AttemptId)
    requires db.Valid()
    modifies db
    ensures db.Valid() && db.Contents() == FailureRecorded(old(db.Contents()), d, attempt)
  {
    var _ := db.WriteProviderUnavailable(d, attempt);
    db.Complete(d);
  }

  method RetryOrGiveUp(db: Database, d: DecisionId, attempt: AttemptId, code: string, detail: string)
    requires db.Valid()
    modifies db
    ensures db.Valid() && db.Contents() == RetriedOrGivenUp(old(db.Contents()), d, attempt, code, detail)
  {
    var status := db.FailOrRetry(d, code, detail);
    if status.Failed? {
      var _ := db.WriteProviderUnavailable(d, attempt);
    }
  }

  predicate Holds(c: Case, attempt: AttemptId) {
    && c.decision.Some? && c.job.Some?
    && c.decision.value.currentAttempt == Some(attempt) && c.job.value.status.Running?
  }

  lemma FailureRecordedHandled(start: Tables, t: Tables, d: DecisionId, attempt: AttemptId)
    requires Handled(start, t, d) && Holds(CaseOf(t, d), attempt)
    ensures Handled(start, FailureRecorded(t, d, attempt), d)
    ensures Worked(CaseOf(FailureRecorded(t, d, attempt), d), RecordsFailure, CaseOf(t, d).job.value)
  {
    WorkerWriteKeepsHandled(start, t, d, Statement.WriteProviderUnavailable(attempt));
    WorkerWriteKeepsHandled(start, After(t, d, Statement.WriteProviderUnavailable(attempt)), d, Statement.Complete);
  }

  lemma RetriedHandled(start: Tables, t: Tables, d: DecisionId, attempt: AttemptId, code: string, detail: string)
    requires Handled(start, t, d) && Holds(CaseOf(t, d), attempt)
    ensures Handled(start, RetriedOrGivenUp(t, d, attempt, code, detail), d)
    ensures Worked(CaseOf(RetriedOrGivenUp(t, d, attempt, code, detail), d), Raises(code, detail), CaseOf(t, d).job.value)
  {
    var s := Statement.FailOrRetry(code, detail);
    WorkerWriteKeepsHandled(start, t, d, s);
    WorkerWriteKeepsHandled(start, After(t, d, s), d, Statement.WriteProviderUnavailable(attempt));
  }

  lemma StoredHandled(start: Tables, t: Tables, d: DecisionId, attempt: AttemptId, position: Payload, provenance: Payload, generic: bool)
    requires Handled(start, t, d) && Holds(CaseOf(t, d), attempt)
    ensures Handled(start, WorkEnds(t, d, attempt, Finishes(position, provenance, generic)), d)
    ensures Worked(CaseOf(WorkEnds(t, d, attempt, Finishes(position, provenance, generic)), d),
                   Finishes(position, provenance, generic), CaseOf(t, d).job.value)
  {
    var s := Statement.WriteFinalResult(attempt, position, provenance);
    WorkerWriteKeepsHandled(start, t, d, s);
    var stored := After(t, d, s);
    if FinalWriteOutcome(t.decisions[d], attempt, position).RefusedByTrigger? {
      if generic {
        FailureRecordedHandled(start, stored, d, attempt);
      } else {
        RetriedHandled(start, stored, d, attempt, "RaiseException", "position already stored");
      }
    } else {
      WorkerWriteKeepsHandled(start, stored, d, Statement.Complete);
    }
  }

  lemma WorkEndsHandled(start: Tables, t: Tables, d: DecisionId, attempt: AttemptId, work: Work)
    requires Handled(start, t, d) && Holds(CaseOf(t, d), attempt)
    ensures Handled(start, WorkEnds(t, d, attempt, work), d)
    ensures Worked(CaseOf(WorkEnds(t, d, attempt, work), d), work, CaseOf(t, d).job.value)
  {
    match work
    case Dies =>
    case Finishes(position, provenance, generic) => StoredHandled(start, t, d, attempt, position, provenance, generic);
    case RecordsFailure => FailureRecordedHandled(start, t, d, attempt);
    case Raises(code, detail) => RetriedHandled(start, t, d, attempt, code, detail);
  }

  // ----- a worker whose attempt was replaced during its call -----

  /** It stores nothing and leaves the decision as it is. */
  lemma ReplacedWorkerLeavesTheDecision(t: Tables, d: DecisionId, attempt: AttemptId, work: Work)
    requires ReferencesHold(t) && d in t.decisions && !Owns(t.decisions[d], attempt)
    ensures WorkEnds(t, d, attempt, work).decisions == t.decisions
  {}

  /** But its last writes to the job row are not fenced: it takes the job its
      successor is working on off the queue, unless it died or another try is
      scheduled for it. */
  lemma ReplacedWorkerStrandsTheCaseIff(t: Tables, d: DecisionId, attempt: AttemptId, work: Work)
    requires ReferencesHold(t) && d in t.jobs && !Owns(t.decisions[d], attempt)
    requires t.decisions[d].status.Reasoning? && Active(t.jobs[d])
    ensures Stranded(CaseOf(WorkEnds(t, d, attempt, work), d)) <==>
            !work.Dies? && (work.Raises? ==> Exhausted(t.jobs[d]))
  {
    ReplacedWorkerLeavesTheDecision(t, d, attempt, work);
  }

  // One poll: how long the loop waited before it, whether discovery answered,
  // and what the run it may start brings.
  datatype Round = Round(wait: nat, discovers: bool, newId: AttemptId, work: Work)

  /** The time waited in the first `n` rounds. */
  function Waited(rounds: seq<Round>, n: nat): nat
    requires n <= |rounds|
  {
    if n == 0 then 0 else Waited(rounds, n - 1) + rounds[n - 1].wait
  }

  lemma {:induction false} WaitedBefore(rounds: seq<Round>, round: Round, n: nat)
    requires n <= |rounds|
    ensures Waited(rounds + [round], n) == Waited(rounds, n)
  {
    if n > 0 { WaitedBefore(rounds, round, n - 1); }
  }

  lemma NothingDue(t: Tables)
    requires forall d :: d in t.jobs ==> !Due(CaseOf(t, d), t.now)
    ensures DueJobs(t) == {}
  {}

  lemma ClockKeepsRowsSound(t: Tables, to: Time)
    requires RowsSound(t)
    ensures RowsSound(t.(now := to))
  {
    forall d | d in t.decisions ensures RowSound(CaseOf(t.(now := to), d)) { assert RowSound(CaseOf(t, d)); }
  }

  /** One of the attempts left to job `d` was used, and no other case changed. */
  ghost predicate UsedOneAttempt(before: Tables, after: Tables, d: DecisionId) {
    && d in before.jobs && d in after.jobs && after.now == before.now
    && after.jobs[d].attemptCount == before.jobs[d].attemptCount + 1 <= after.jobs[d].maxAttempts == before.jobs[d].maxAttempts
    && forall e :: e != d ==> CaseOf(after, e) == CaseOf(before, e)
  }

  /** Discover at most one due job and run it. */
  method Poll(db: Database, round: Round) returns (dispatched: Option<DecisionId>)
    requires RowsSound(db.Contents())
    modifies db
    ensures RowsSound(db.Contents()) && db.now == old(db.now)
    ensures dispatched.None? <==> DueJobs(old(db.Contents())) == {}
    ensures dispatched.None? ==> db.Contents() == old(db.Contents())
    ensures dispatched.Some? ==> dispatched.value in DueJobs(old(db.Contents()))
                                 && DueJobs(db.Contents()) == DueJobs(old(db.Contents())) - {dispatched.value}
                                 && UsedOneAttempt(old(db.Contents()), db.Contents(), dispatched.value)
  {
    dispatched := db.FindNextDueJob();
    if dispatched.Some? {
      assert dispatched.value in DueJobs(db.Contents());
      RunQueuedJob(db, dispatched.value, round.newId, round.work, []);
    } else {
      NothingDue(db.Contents());
    }
  }

  // ----- the loop -----

  /** Every poll of job `d` used one of its attempts, and nothing else did. */
  predicate AttemptsMatchPolls(before: Tables, after: Tables, polls: seq<Option<DecisionId>>) {
    && after.jobs.Keys == before.jobs.Keys
    && forall d :: d in before.jobs ==>
         && after.jobs[d].attemptCount == before.jobs[d].attemptCount + multiset(polls)[Some(d)]
         && after.jobs[d].maxAttempts == before.jobs[d].maxAttempts
         && (Some(d) in polls ==> after.jobs[d].attemptCount <= after.jobs[d].maxAttempts)
  }

  lemma OneMorePoll(before: Tables, middle: Tables, after: Tables, polls: seq<Option<DecisionId>>, d: DecisionId)
    requires AttemptsMatchPolls(before, middle, polls) && UsedOneAttempt(middle, after, d)
    ensures AttemptsMatchPolls(before, after, polls + [Some(d)])
  {
    forall e ensures e in after.jobs <==> e in middle.jobs {
      assert e != d ==> CaseOf(after, e) == CaseOf(middle, e);
    }
    forall e | e in before.jobs && e != d ensures after.jobs[e] == middle.jobs[e] {
      assert CaseOf(after, e) == CaseOf(middle, e);
    }
  }

  lemma OneIdlePoll(before: Tables, after: Tables, polls: seq<Option<DecisionId>>)
    requires AttemptsMatchPolls(before, after, polls)
    ensures AttemptsMatchPolls(before, after, polls + [None])
  {}

  /** What each poll met: the tables as they were, and what it took off the list. */
  ghost predicate PollsAnswer(rounds: seq<Round>, seen: seq<Tables>, polls: seq<Option<DecisionId>>, start: Time) {
    && |polls| == |seen| == |rounds|
    && forall n :: 0 <= n < |polls| ==>
         && seen[n].now == start + Waited(rounds, n + 1)
         && (polls[n].Some? <==> rounds[n].discovers && DueJobs(seen[n]) != {})
         && (polls[n].Some? ==> polls[n].value in DueJobs(seen[n]))
  }

  /** Back-to-back polls that all get an answer. */
  predicate Immediate(rounds: seq<Round>) {
    forall n :: 0 <= n < |rounds| ==> rounds[n].wait == 0 && rounds[n].discovers
  }

  /** The due list shrinks by exactly the jobs polled, one a poll until it is empty. */
  ghost predicate Drains(before: Tables, after: Tables, polls: seq<Option<DecisionId>>) {
    && after.now == before.now
    && (forall n :: 0 <= n < |polls| ==> (polls[n].Some? <==> n < |DueJobs(before)|))
    && (forall d :: multiset(polls)[Some(d)] <= 1)
    && (forall d :: d in DueJobs(after) <==> d in DueJobs(before) && Some(d) !in polls)
    && |DueJobs(after)| == |DueJobs(before)| - Min(|polls|, |DueJobs(before)|)
  }

  lemma DrainsOneMore(before: Tables, middle: Tables, after: Tables, polls: seq<Option<DecisionId>>, poll: Option<DecisionId>)
    requires Drains(before, middle, polls) && after.now == middle.now
    requires poll.None? <==> DueJobs(middle) == {}
    requires poll.None? ==> after == middle
    requires poll.Some? ==> poll.value in DueJobs(middle) && DueJobs(after) == DueJobs(middle) - {poll.value}
    ensures Drains(before, after, polls + [poll])
  {
    assert DueJobs(middle) == {} <==> |DueJobs(middle)| == 0;
    assert forall x :: x in polls + [poll] <==> x in polls || x == poll;
    if poll.Some? { assert poll !in polls; }
  }

  /** What one round does to the tables it meets once it has waited. */
  ghost predicate RoundAnswered(met: Tables, after: Tables, round: Round, poll: Option<DecisionId>) {
    && RowsSound(after) && after.now == met.now
    && (poll.Some? <==> round.discovers && DueJobs(met) != {})
    && (if poll.None? then after == met
        else && poll.value in DueJobs(met) && DueJobs(after) == DueJobs(met) - {poll.value}
             && UsedOneAttempt(met, after, poll.value))
  }

  /** What is known of the loop after these rounds. */
  ghost predicate Followed(start: Tables, after: Tables, rounds: seq<Round>, polls: seq<Option<DecisionId>>, seen: seq<Tables>) {
    && after.now == start.now + Waited(rounds, |rounds|)
    && PollsAnswer(rounds, seen, polls, start.now)
    && AttemptsMatchPolls(start, after, polls)
    && (Immediate(rounds) ==> Drains(start, after, polls))
  }

  lemma {:induction false} AnswersOneMore(start: Time, rounds: seq<Round>, round: Round, polls: seq<Option<DecisionId>>, poll: Option<DecisionId>,
                       seen: seq<Tables>, met: Tables)
    requires PollsAnswer(rounds, seen, polls, start) && met.now == start + Waited(rounds, |rounds|) + round.wait
    requires poll.Some? <==> round.discovers && DueJobs(met) != {}
    requires poll.Some? ==> poll.value in DueJobs(met)
    ensures PollsAnswer(rounds + [round], seen + [met], polls + [poll], start)
    ensures Waited(rounds + [round], |rounds| + 1) == Waited(rounds, |rounds|) + round.wait
  {
    WaitedBefore(rounds, round, |rounds|);
    forall n | 0 <= n < |rounds| ensures (seen + [met])[n].now == start + Waited(rounds + [round], n + 1) {
      WaitedBefore(rounds, round, n + 1);
    }
  }

  lemma AttemptsOneMore(start: Tables, met: Tables, after: Tables, polls: seq<Option<DecisionId>>, round: Round, poll: Option<DecisionId>)
    requires AttemptsMatchPolls(start, met, polls) && RoundAnswered(met, after, round, poll)
    ensures AttemptsMatchPolls(start, after, polls + [poll])
  {
    if poll.Some? { OneMorePoll(start, met, after, polls, poll.value); } else { OneIdlePoll(start, met, polls); }
  }

  lemma DrainingOneMore(start: Tables, met: Tables, after: Tables, rounds: seq<Round>, round: Round,
                        polls: seq<Option<DecisionId>>, poll: Option<DecisionId>)
    requires RoundAnswered(met, after, round, poll)
    requires Immediate(rounds) && round.wait == 0 ==> Drains(start, met, polls)
    ensures Immediate(rounds + [round]) ==> Drains(start, after, polls + [poll])
  {
    if Immediate(rounds + [round]) {
      assert (rounds + [round])[|rounds|] == round;
      assert forall n :: 0 <= n < |rounds| ==> (rounds + [round])[n] == rounds[n];
      DrainsOneMore(start, met, after, polls, poll);
    }
  }

  lemma {:induction false} FollowedOneMore(start: Tables, before: Tables, after: Tables, rounds: seq<Round>, round: Round,
                        polls: seq<Option<DecisionId>>, poll: Option<DecisionId>, seen: seq<Tables>)
    requires Followed(start, before, rounds, polls, seen)
    requires RoundAnswered(before.(now := before.now + round.wait), after, round, poll)
    ensures Followed(start, after, rounds + [round], polls + [poll], seen + [before.(now := before.now + round.wait)])
  {
    var met := before.(now := before.now + round.wait);
    AnswersOneMore(start.now, rounds, round, polls, poll, seen, met);
    AttemptsOneMore(start, met, after, polls, round, poll);
    if round.wait == 0 { assert met == before; }
    DrainingOneMore(start, met, after, rounds, round, polls, poll);
  }

  lemma NothingFollowedYet(start: Tables)
    ensures Followed(start, start, [], [], [])
  {
    assert Drains(start, start, []);
  }

  /** One round, after those `done`: wait, and poll unless discovery fails. */
  method OneRound(db: Database, round: Round, ghost start: Tables, ghost done: seq<Round>,
                  ghost polls: seq<Option<DecisionId>>, ghost seen: seq<Tables>)
    returns (poll: Option<DecisionId>, ghost met: Tables)
    requires RowsSound(db.Contents()) && Followed(start, db.Contents(), done, polls, seen)
    modifies db
    ensures RowsSound(db.Contents()) && Followed(start, db.Contents(), done + [round], polls + [poll], seen + [met])
  {
    ghost var before := db.Contents();
    ClockKeepsRowsSound(before, db.now + round.wait);
    db.AdvanceClock(db.now + round.wait);
    met := db.Contents();
    poll := None;
    if round.discovers {
      poll := Poll(db, round);
    }
    FollowedOneMore(start, before, db.Contents(), done, round, polls, poll, seen);
  }

  /** `run_dispatcher_loop`, stopped after |rounds| polls.  Whatever the waits,
      whether discovery fails and however each run ends: a poll dispatches exactly
      when discovery answers and something is due, every dispatch uses up one
      attempt of its job and never more than are left, and polls that follow one
      another at once drain the due list, each job once. */
  method RunDispatcherLoop(db: Database, rounds: seq<Round>)
    returns (polls: seq<Option<DecisionId>>, ghost seen: seq<Tables>)
    requires RowsSound(db.Contents())
    modifies db
    ensures RowsSound(db.Contents()) && Followed(old(db.Contents()), db.Contents(), rounds, polls, seen)
  {
    ghost var start, done := db.Contents(), rounds[..0];
    polls, seen := [], [];
    NothingFollowedYet(start);
    for n := 0 to |rounds|
      invariant RowsSound(db.Contents()) && done == rounds[..n] && Followed(start, db.Contents(), done, polls, seen)
    {
      ghost var met;
      var poll;
      poll, met := OneRound(db, rounds[n], start, done, polls, seen);
      done, polls, seen := done + [rounds[n]], polls + [poll], seen + [met];
    }
    assert done == rounds;
  }
}
