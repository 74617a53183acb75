/** The two table rows of the durable reasoning queue, and what each SQL
    statement of app/pipeline/job_queue.py and app/pipeline/attempt_fencing.py
    does to them.  A `Case` is one commercial decision together with its job
    row; the schema allows at most one job per decision (db/schema.sql:161). */
module JobRows {
  import opened Options

  // Microseconds, PostgreSQL's own timestamp resolution.
  type Time = int
  // Version-4 UUIDs (section 5.4 of RFC 9562); all that matters is equality.
  type AttemptId = nat
  type Payload = string

  const SECOND: Time := 1_000_000
  const HEARTBEAT_TICK_INTERVAL: Time := 15 * SECOND
  const RECOVERY_GRACE_PERIOD: Time := 6 * HEARTBEAT_TICK_INTERVAL
  const LEASE: Time := 20 * 60 * SECOND
  const MAX_ATTEMPTS: nat := 3

  datatype DecisionStatus =
    | Created | Classifying | AwaitingUserInput | Reasoning | Completed | ProviderUnavailable

  datatype Decision = Decision(
    status: DecisionStatus,
    currentAttempt: Option<AttemptId>,
    lastHeartbeatAt: Option<Time>,
    stage: Option<string>,
    reasoningStartedAt: Option<Time>,
    position: Option<Payload>,
    provenance: Option<Payload>,
    completedAt: Option<Time>)

  datatype JobStatus = Queued | Running | RetryScheduled | Done | Failed | Cancelled

  datatype JobKind = Specialist | GenericTriage

  datatype JobError = JobError(code: string, detail: string)

  datatype Job = Job(
    kind: JobKind,
    status: JobStatus,
    attemptCount: nat,
    maxAttempts: nat,
    availableAt: Time,
    startedAt: Option<Time>,
    timeoutAt: Option<Time>,
    completedAt: Option<Time>,
    cancelRequestedAt: Option<Time>,
    lastError: Option<JobError>,
    updatedAt: Time)

  datatype Case = Case(decision: Option<Decision>, job: Option<Job>)

  const NO_CASE := Case(None, None)

  // ----- Decision rows: attempt_fencing.py and the routes' own inserts -----

  /** A fresh case starts in 'classifying' (app/routes/decisions.py:785-792); a
      continuation is inserted already 'reasoning' under a new attempt id
      (app/routes/decisions.py:1367-1383). */
  function NewDecision(continuation: Option<AttemptId>, now: Time): Decision {
    match continuation
    case None => Decision(Classifying, None, None, None, None, None, None, None)
    case Some(id) => Decision(Reasoning, Some(id), Some(now), Some("starting"), Some(now), None, None, None)
  }

  /** The assignment list shared by `start_new_attempt`, `try_reclaim` and the
      recovery branch of `claim`. */
  function Install(d: Decision, id: AttemptId, now: Time): Decision {
    d.(status := Reasoning, reasoningStartedAt := Some(now), currentAttempt := Some(id),
       lastHeartbeatAt := Some(now), stage := Some("starting"))
  }

  predicate HeartbeatStale(d: Decision, now: Time) {
    d.lastHeartbeatAt.None? || d.lastHeartbeatAt.value < now - RECOVERY_GRACE_PERIOD
  }

  predicate Reclaimable(d: Decision, now: Time) {
    d.status.ProviderUnavailable? || (d.status.Reasoning? && HeartbeatStale(d, now))
  }

  /** `is_stale` compares with `>=`, where every writer compares with `<`. */
  predicate ReportedStale(d: Decision, now: Time) {
    && d.status.Reasoning?
    && (d.lastHeartbeatAt.None? || now - d.lastHeartbeatAt.value >= RECOVERY_GRACE_PERIOD)
  }

  /** The fence: SQL's `current_attempt_id = %s`, which NULL never satisfies. */
  predicate Owns(d: Decision, id: AttemptId) {
    d.currentAttempt == Some(id)
  }

  /** The trigger fn_prevent_completed_position_tampering raises here. */
  predicate TamperGuardFires(d: Decision, position: Payload) {
    d.status.Completed? && d.position != Some(position)
  }

  datatype WriteOutcome = Written | Superseded | RefusedByTrigger

  function FinalWriteOutcome(d: Decision, id: AttemptId, position: Payload): WriteOutcome {
    if !Owns(d, id) then Superseded
    else if TamperGuardFires(d, position) then RefusedByTrigger
    else Written
  }

  // ----- Job rows: job_queue.py -----

  function NewJob(kind: JobKind, now: Time): Job {
    Job(kind, Queued, 0, MAX_ATTEMPTS, now, None, None, None, None, None, now)
  }

  function RequeuedJob(j: Job, kind: JobKind, now: Time): Job {
    j.(status := Queued, availableAt := now, cancelRequestedAt := None, lastError := None,
       kind := kind, updatedAt := now)
  }

  function LeasedJob(j: Job, now: Time): Job {
    j.(status := Running, attemptCount := j.attemptCount + 1, startedAt := Some(now),
       timeoutAt := Some(now + LEASE), updatedAt := now)
  }

  predicate Exhausted(j: Job) {
    j.attemptCount >= j.maxAttempts
  }

  predicate Waiting(j: Job) {
    j.status.Queued? || j.status.RetryScheduled?
  }

  function Min(a: int, b: int): int { if a <= b then a else b }

  function Truncate(s: string, limit: nat): string { if |s| <= limit then s else s[..limit] }

  function FailedJob(j: Job, code: string, detail: string, now: Time): Job {
    var failed := j.(lastError := Some(JobError(Truncate(code, 80), Truncate(detail, 2000))), updatedAt := now);
    if Exhausted(j) then failed.(status := Failed, completedAt := Some(now))
    else failed.(status := RetryScheduled, completedAt := None,
                 availableAt := now + Min(300, 15 * j.attemptCount) * SECOND)
  }

  predicate Cancellable(j: Job) {
    Waiting(j) || j.status.Running?
  }

  function CancelledJob(j: Job, now: Time): Job {
    j.(cancelRequestedAt := Some(now), status := Cancelled, completedAt := Some(now), updatedAt := now)
  }

  function CompletedJob(j: Job, now: Time): Job {
    j.(status := Done, completedAt := Some(now), updatedAt := now)
  }

  predicate LeaseExpired(j: Job, now: Time) {
    j.timeoutAt.Some? && j.timeoutAt.value < now
  }

  // ----- claim -----

  /** `claim` compares the lease column in Python, so a running row without one
      would raise; no reachable row is like that (ClaimReturnsCurrentId). */
  predicate LeaseComparisonRaises(j: Job) {
    && j.cancelRequestedAt.None? && !Exhausted(j)
    && j.status.Running? && j.timeoutAt.None?
  }

  predicate Eligible(d: Decision, j: Job, now: Time) {
    && j.cancelRequestedAt.None?
    && !Exhausted(j)
    && ((Waiting(j) && j.availableAt <= now)
        || (j.status.Running? && (LeaseExpired(j, now) || HeartbeatStale(d, now))))
  }

  predicate Claimable(c: Case, now: Time) {
    && c.decision.Some? && c.job.Some?
    && !LeaseComparisonRaises(c.job.value)
    && Eligible(c.decision.value, c.job.value, now)
  }

  datatype ClaimOutcome = NotClaimed | Claimed(job: Job, attempt: Option<AttemptId>) | ClaimRaised

  function ClaimAnswer(c: Case, newId: AttemptId, now: Time): ClaimOutcome {
    if c.decision.None? || c.job.None? then NotClaimed
    else if LeaseComparisonRaises(c.job.value) then ClaimRaised
    else if !Eligible(c.decision.value, c.job.value, now) then NotClaimed
    else Claimed(LeasedJob(c.job.value, now),
                 if HeartbeatStale(c.decision.value, now) then Some(newId)
                 else c.decision.value.currentAttempt)
  }

  // ----- discovery: the WHERE clause of find_next_due_job and recoverable_jobs -----

  predicate Due(c: Case, now: Time) {
    && c.decision.Some? && c.job.Some?
    && var d, j := c.decision.value, c.job.value;
    && j.cancelRequestedAt.None?
    && !Exhausted(j)
    && ((Waiting(j) && j.availableAt <= now)
        || (j.status.Running?
            && (LeaseExpired(j, now) || (d.status.Reasoning? && HeartbeatStale(d, now)))))
  }

  // ----- one atomic statement applied to one case -----

  datatype Statement =
    | InsertDecision(continuation: Option<AttemptId>)
    | StartNewAttempt(from: DecisionStatus, id: AttemptId)
    | TryReclaim(id: AttemptId)
    | WriteHeartbeat(id: AttemptId, stage: string, delivered: bool)
    | WriteFinalResult(id: AttemptId, position: Payload, provenance: Payload)
    | WriteProviderUnavailable(id: AttemptId)
    | RouteStatus(status: DecisionStatus)
    | Enqueue(kind: JobKind)
    | Requeue(kind: JobKind)
    | Claim(id: AttemptId)
    | Complete
    | Cancel
    | FailOrRetry(code: string, detail: string)

  /** The decision row after a statement that finds the row.  A heartbeat whose
      write fails is absorbed (app/pipeline/attempt_fencing.py:137-148). */
  function DecisionAfter(d: Decision, j: Option<Job>, s: Statement, now: Time): Decision {
    match s
    case StartNewAttempt(from, id) => if d.status == from then Install(d, id, now) else d
    case TryReclaim(id) => if Reclaimable(d, now) then Install(d, id, now) else d
    case WriteHeartbeat(id, stage, delivered) =>
      if delivered && Owns(d, id) then d.(lastHeartbeatAt := Some(now), stage := Some(stage)) else d
    case WriteFinalResult(id, position, provenance) =>
      if FinalWriteOutcome(d, id, position).Written?
      then d.(status := Completed, position := Some(position), provenance := Some(provenance), completedAt := Some(now))
      else d
    case WriteProviderUnavailable(id) => if Owns(d, id) then d.(status := ProviderUnavailable) else d
    case RouteStatus(status) => d.(status := status)
    case Claim(id) =>
      if Claimable(Case(Some(d), j), now) && HeartbeatStale(d, now) then Install(d, id, now) else d
    case _ => d
  }

  /** The job row after a statement that finds the row, for a case whose decision is `d`. */
  function JobAfter(d: Decision, j: Job, s: Statement, now: Time): Job {
    match s
    case Requeue(kind) => RequeuedJob(j, kind, now)
    case Claim(_) => if Claimable(Case(Some(d), Some(j)), now) then LeasedJob(j, now) else j
    case Complete => CompletedJob(j, now)
    case Cancel => if Cancellable(j) then CancelledJob(j, now) else j
    case FailOrRetry(code, detail) => FailedJob(j, code, detail, now)
    case _ => j
  }

  /** One statement on one case.  A job row needs its decision row (foreign key),
      and inserts never overwrite (ON CONFLICT DO NOTHING). */
  function Apply(c: Case, s: Statement, now: Time): Case {
    if c.decision.None? then
      if s.InsertDecision? then c.(decision := Some(NewDecision(s.continuation, now))) else c
    else
      Case(Some(DecisionAfter(c.decision.value, c.job, s, now)),
           if c.job.Some? then Some(JobAfter(c.decision.value, c.job.value, s, now))
           else if s.Enqueue? || s.Requeue? then Some(NewJob(s.kind, now))
           else None)
  }
}
