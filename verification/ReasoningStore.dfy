/** The functions of app/pipeline/job_queue.py and app/pipeline/attempt_fencing.py
    as operations that update the tables in place.  Each method is one
    transaction; its contract gives the whole new state twice: column by column,
    and as the protocol's `After`, which the theorems about runs speak of. */
module ReasoningStore {
  import opened Options
  import opened JobRows
  import opened ReasoningTables

  /** No heartbeat at all, or none within the last 90 seconds. */
  predicate SilentFor90Seconds(lastHeartbeatAt: Option<Time>, now: Time) {
    lastHeartbeatAt.None? || lastHeartbeatAt.value < now - 90 * SECOND
  }

  class Database {
    var now: Time
    var decisions: map<DecisionId, Decision>
    var jobs: map<DecisionId, Job>

    function Contents(): Tables
      reads this
    {
      Tables(now, decisions, jobs)
    }

    predicate Valid()
      reads this
    {
      ReferencesHold(Contents())
    }

    constructor (start: Time)
      ensures Valid() && Contents() == Tables(start, map[], map[])
    {
      now, decisions, jobs := start, map[], map[];
    }

    method AdvanceClock(to: Time)
      requires Valid() && now <= to
      modifies this
      ensures Valid() && Contents() == old(Contents()).(now := to)
    {
      now := to;
    }

    // ----- attempt_fencing.py -----

    /** Returns the new attempt id to the one caller that finds `from`. */
    method StartNewAttempt(d: DecisionId, from: DecisionStatus, id: AttemptId) returns (won: Option<AttemptId>)
      requires Valid()
      modifies this
      ensures Valid() && Contents() == After(old(Contents()), d, Statement.StartNewAttempt(from, id))
      ensures won == if d in old(decisions) && old(decisions)[d].status == from then Some(id) else None
      ensures won.None? ==> Contents() == old(Contents())
      ensures won.Some? ==> now == old(now) && jobs == old(jobs) && decisions == old(decisions)[d := old(decisions)[d].(
                status := Reasoning, currentAttempt := Some(id), lastHeartbeatAt := Some(now),
                stage := Some("starting"), reasoningStartedAt := Some(now))]
    {
      won := None;
      if d in decisions && decisions[d].status == from {
        var row := decisions[d];
        row := row.(status := Reasoning, reasoningStartedAt := Some(now));
        row := row.(currentAttempt := Some(id), lastHeartbeatAt := Some(now), stage := Some("starting"));
        decisions := decisions[d := row];
        won := Some(id);
      }
    }

    method TryReclaim(d: DecisionId, id: AttemptId) returns (won: Option<AttemptId>)
      requires Valid()
      modifies this
      ensures Valid() && Contents() == After(old(Contents()), d, Statement.TryReclaim(id))
      ensures won == if d in old(decisions)
                        && (old(decisions)[d].status.ProviderUnavailable?
                            || (old(decisions)[d].status.Reasoning?
                                && SilentFor90Seconds(old(decisions)[d].lastHeartbeatAt, now)))
                     then Some(id) else None
      ensures won.None? ==> Contents() == old(Contents())
      ensures won.Some? ==> now == old(now) && jobs == old(jobs) && decisions == old(decisions)[d := old(decisions)[d].(
                status := Reasoning, currentAttempt := Some(id), lastHeartbeatAt := Some(now),
                stage := Some("starting"), reasoningStartedAt := Some(now))]
    {
      won := None;
      if d in decisions && Reclaimable(decisions[d], now) {
        var row := decisions[d];
        row := row.(status := Reasoning, reasoningStartedAt := Some(now));
        row := row.(currentAttempt := Some(id), lastHeartbeatAt := Some(now), stage := Some("starting"));
        decisions := decisions[d := row];
        won := Some(id);
      }
    }

    method IsStale(d: DecisionId) returns (stale: bool, elapsed: Option<Time>)
      ensures stale <==> d in decisions && decisions[d].status.Reasoning?
                         && (decisions[d].lastHeartbeatAt.None? || decisions[d].lastHeartbeatAt.value <= now - 90 * SECOND)
      ensures stale <==> d in decisions && ReportedStale(decisions[d], now)
      ensures elapsed.Some? <==>
                d in decisions && decisions[d].status.Reasoning? && decisions[d].lastHeartbeatAt.Some?
      ensures elapsed.Some? ==> decisions[d].lastHeartbeatAt == Some(now - elapsed.value)
    {
      stale, elapsed := false, None;
      if d in decisions && decisions[d].status.Reasoning? {
        match decisions[d].lastHeartbeatAt
        case None => stale := true;
        case Some(beat) =>
          elapsed := Some(now - beat);
          stale := now - beat >= RECOVERY_GRACE_PERIOD;
      }
    }

    /** Never raises: a write that is not `delivered` is silently dropped. */
    method WriteHeartbeat(d: DecisionId, id: AttemptId, stage: string, delivered: bool)
      requires Valid()
      modifies this
      ensures Valid() && Contents() == After(old(Contents()), d, Statement.WriteHeartbeat(id, stage, delivered))
      ensures now == old(now) && jobs == old(jobs)
      ensures decisions == if delivered && d in old(decisions) && old(decisions)[d].currentAttempt == Some(id)
                           then old(decisions)[d := old(decisions)[d].(lastHeartbeatAt := Some(now), stage := Some(stage))]
                           else old(decisions)
    {
      if delivered && d in decisions && Owns(decisions[d], id) {
        decisions := decisions[d := decisions[d].(lastHeartbeatAt := Some(now), stage := Some(stage))];
      }
    }

    method WriteFinalResult(d: DecisionId, id: AttemptId, position: Payload, provenance: Payload)
      returns (outcome: WriteOutcome)
      requires Valid()
      modifies this
      ensures Valid() && Contents() == After(old(Contents()), d, Statement.WriteFinalResult(id, position, provenance))
      ensures outcome == if d in old(decisions) then FinalWriteOutcome(old(decisions)[d], id, position) else Superseded
      ensures outcome.Superseded? <==> !(d in old(decisions) && old(decisions)[d].currentAttempt == Some(id))
      ensures outcome.RefusedByTrigger? <==>
                && d in old(decisions) && old(decisions)[d].currentAttempt == Some(id)
                && old(decisions)[d].status.Completed? && old(decisions)[d].position != Some(position)
      ensures !outcome.Written? ==> Contents() == old(Contents())
      ensures outcome.Written? ==> now == old(now) && jobs == old(jobs) && decisions == old(decisions)[d := old(decisions)[d].(
                status := Completed, position := Some(position), provenance := Some(provenance), completedAt := Some(now))]
    {
      outcome := Superseded;
      if d in decisions && Owns(decisions[d], id) {
        if TamperGuardFires(decisions[d], position) {
          outcome := RefusedByTrigger;
        } else {
          var row := decisions[d].(status := Completed, completedAt := Some(now));
          row := row.(position := Some(position), provenance := Some(provenance));
          decisions := decisions[d := row];
          outcome := Written;
        }
      }
    }

    method WriteProviderUnavailable(d: DecisionId, id: AttemptId) returns (written: bool)
      requires Valid()
      modifies this
      ensures Valid() && Contents() == After(old(Contents()), d, Statement.WriteProviderUnavailable(id))
      ensures written <==> d in old(decisions) && old(decisions)[d].currentAttempt == Some(id)
      ensures !written ==> Contents() == old(Contents())
      ensures written ==> now == old(now) && jobs == old(jobs)
                          && decisions == old(decisions)[d := old(decisions)[d].(status := ProviderUnavailable)]
    {
      written := false;
      if d in decisions && Owns(decisions[d], id) {
        decisions := decisions[d := decisions[d].(status := ProviderUnavailable)];
        written := true;
      }
    }

    // ----- job_queue.py -----

    method Enqueue(d: DecisionId, kind: JobKind)
      requires Valid()
      modifies this
      ensures Valid() && Contents() == After(old(Contents()), d, Statement.Enqueue(kind))
      ensures now == old(now) && decisions == old(decisions)
      ensures jobs == if d in old(decisions) && d !in old(jobs)
                      then old(jobs)[d := Job(kind, Queued, 0, 3, now, None, None, None, None, None, now)] else old(jobs)
    {
      if d in decisions && d !in jobs {
        jobs := jobs[d := NewJob(kind, now)];
      }
    }

    method Requeue(d: DecisionId, kind: JobKind)
      requires Valid()
      modifies this
      ensures Valid() && Contents() == After(old(Contents()), d, Statement.Requeue(kind))
      ensures now == old(now) && decisions == old(decisions)
      ensures d !in old(decisions) ==> jobs == old(jobs)
      ensures d in old(decisions) && d !in old(jobs) ==>
                jobs == old(jobs)[d := Job(kind, Queued, 0, 3, now, None, None, None, None, None, now)]
      ensures d in old(jobs) ==> jobs == old(jobs)[d := old(jobs)[d].(
                status := Queued, availableAt := now, cancelRequestedAt := None, lastError := None,
                kind := kind, updatedAt := now)]
    {
      if d in decisions {
        if d !in jobs {
          jobs := jobs[d := NewJob(kind, now)];
        } else {
          var row := jobs[d].(status := Queued, availableAt := now, cancelRequestedAt := None);
          row := row.(lastError := None, kind := kind, updatedAt := now);
          jobs := jobs[d := row];
        }
      }
    }

    /** Leases one due job and, when the heartbeat is stale, installs a new
        attempt id in the same transaction. */
    method Claim(d: DecisionId, newId: AttemptId) returns (outcome: ClaimOutcome)
      requires Valid()
      modifies this
      ensures Valid() && Contents() == After(old(Contents()), d, Statement.Claim(newId))
      ensures outcome == ClaimAnswer(CaseOf(old(Contents()), d), newId, now)
      ensures outcome.ClaimRaised? <==>
                && d in old(jobs) && old(jobs)[d].status.Running? && old(jobs)[d].timeoutAt.None?
                && old(jobs)[d].cancelRequestedAt.None? && old(jobs)[d].attemptCount < old(jobs)[d].maxAttempts
      ensures outcome.Claimed? <==>
                && !outcome.ClaimRaised? && d in old(jobs)
                && old(jobs)[d].cancelRequestedAt.None? && old(jobs)[d].attemptCount < old(jobs)[d].maxAttempts
                && (if old(jobs)[d].status.Running?
                    then old(jobs)[d].timeoutAt.value < now || SilentFor90Seconds(old(decisions)[d].lastHeartbeatAt, now)
                    else (old(jobs)[d].status.Queued? || old(jobs)[d].status.RetryScheduled?) && old(jobs)[d].availableAt <= now)
      ensures !outcome.Claimed? ==> Contents() == old(Contents())
      ensures outcome.Claimed? ==>
                var silent := SilentFor90Seconds(old(decisions)[d].lastHeartbeatAt, now);
                && now == old(now) && outcome.job == jobs[d]
                && outcome.attempt == (if silent then Some(newId) else old(decisions)[d].currentAttempt)
                && jobs == old(jobs)[d := old(jobs)[d].(
                     status := Running, attemptCount := old(jobs)[d].attemptCount + 1, startedAt := Some(now),
                     timeoutAt := Some(now + 20 * 60 * SECOND), updatedAt := now)]
                && decisions == if !silent then old(decisions) else old(decisions)[d := old(decisions)[d].(
                     status := Reasoning, currentAttempt := Some(newId), lastHeartbeatAt := Some(now),
                     stage := Some("starting"), reasoningStartedAt := Some(now))]
    {
      outcome := NotClaimed;
      if d !in jobs { return; }
      var job, decision := jobs[d], decisions[d];
      var heartbeatStale := HeartbeatStale(decision, now);
      if job.cancelRequestedAt.Some? || job.attemptCount >= job.maxAttempts { return; }
      var due := false;
      if Waiting(job) && job.availableAt <= now {
        due := true;
      } else if job.status.Running? {
        if job.timeoutAt.None? { return ClaimRaised; }
        due := job.timeoutAt.value < now || heartbeatStale;
      }
      if !due { return; }

      var attempt := decision.currentAttempt;
      if heartbeatStale {
        attempt := Some(newId);
        decision := decision.(currentAttempt := attempt, lastHeartbeatAt := Some(now), status := Reasoning);
        decision := decision.(reasoningStartedAt := Some(now), stage := Some("starting"));
        decisions := decisions[d := decision];
      }
      job := job.(status := Running, attemptCount := job.attemptCount + 1, startedAt := Some(now));
      job := job.(timeoutAt := Some(now + LEASE), updatedAt := now);
      jobs := jobs[d := job];
      outcome := Claimed(job, attempt);
    }

    method Complete(d: DecisionId)
      requires Valid()
      modifies this
      ensures Valid() && Contents() == After(old(Contents()), d, Statement.Complete)
      ensures now == old(now) && decisions == old(decisions)
      ensures jobs == if d in old(jobs)
                      then old(jobs)[d := old(jobs)[d].(status := Done, completedAt := Some(now), updatedAt := now)] else old(jobs)
    {
      if d in jobs {
        jobs := jobs[d := jobs[d].(status := Done, completedAt := Some(now), updatedAt := now)];
      }
    }

    method Cancel(d: DecisionId) returns (cancelled: bool)
      requires Valid()
      modifies this
      ensures Valid() && Contents() == After(old(Contents()), d, Statement.Cancel)
      ensures cancelled <==> d in old(jobs) && (old(jobs)[d].status.Queued? || old(jobs)[d].status.RetryScheduled?
                                                || old(jobs)[d].status.Running?)
      ensures !cancelled ==> Contents() == old(Contents())
      ensures cancelled ==> now == old(now) && decisions == old(decisions) && jobs == old(jobs)[d := old(jobs)[d].(
                cancelRequestedAt := Some(now), status := Cancelled, completedAt := Some(now), updatedAt := now)]
    {
      cancelled := false;
      if d in jobs && (jobs[d].status.Queued? || jobs[d].status.RetryScheduled? || jobs[d].status.Running?) {
        var row := jobs[d].(cancelRequestedAt := Some(now), status := Cancelled);
        jobs := jobs[d := row.(completedAt := Some(now), updatedAt := now)];
        cancelled := true;
      }
    }

    /** What the answer is good for: a cancelled job cannot be claimed now, and a
        waiting job that is due with attempts left can be claimed exactly when
        it is not cancelled. */
    method IsCancelled(d: DecisionId) returns (cancelled: bool)
      requires Valid()
      ensures cancelled <==> d in jobs && jobs[d].cancelRequestedAt.Some?
      ensures cancelled ==> !Claimable(CaseOf(Contents(), d), now) && !Due(CaseOf(Contents(), d), now)
      ensures d in jobs && Waiting(jobs[d]) && jobs[d].availableAt <= now && !Exhausted(jobs[d]) ==>
                (Claimable(CaseOf(Contents(), d), now) <==> !cancelled)
    {
      cancelled := d in jobs && jobs[d].cancelRequestedAt.Some?;
    }

    /** Returns the job's new status, or 'failed' when there is no job. */
    method FailOrRetry(d: DecisionId, code: string, detail: string) returns (status: JobStatus)
      requires Valid()
      modifies this
      ensures Valid() && Contents() == After(old(Contents()), d, Statement.FailOrRetry(code, detail))
      ensures now == old(now) && decisions == old(decisions)
      ensures status == if d in old(jobs) && old(jobs)[d].attemptCount < old(jobs)[d].maxAttempts then RetryScheduled else Failed
      ensures d !in old(jobs) ==> jobs == old(jobs)
      ensures d in old(jobs) ==>
                && d in jobs && jobs == old(jobs)[d := jobs[d]]
                && jobs[d].lastError.Some? && jobs[d].lastError.value.code <= code && jobs[d].lastError.value.detail <= detail
                && |jobs[d].lastError.value.code| == Min(|code|, 80) && |jobs[d].lastError.value.detail| == Min(|detail|, 2000)
                && jobs[d] == old(jobs)[d].(
                     status := status, lastError := jobs[d].lastError, updatedAt := now,
                     completedAt := if status.Failed? then Some(now) else None,
                     availableAt := if status.Failed? then old(jobs)[d].availableAt
                                    else if old(jobs)[d].attemptCount <= 20 then now + 15 * old(jobs)[d].attemptCount * SECOND
                                    else now + 300 * SECOND)
    {
      status := Failed;
      if d in jobs {
        var row := jobs[d];
        if row.attemptCount >= row.maxAttempts {
          row := row.(status := Failed, completedAt := Some(now));
        } else {
          row := row.(status := RetryScheduled, completedAt := None);
          row := row.(availableAt := now + Min(300, 15 * row.attemptCount) * SECOND);
        }
        row := row.(lastError := Some(JobError(Truncate(code, 80), Truncate(detail, 2000))), updatedAt := now);
        jobs := jobs[d := row];
        status := row.status;
      }
    }

    // ----- the routes' own writes, and any statement at all -----

    method InsertDecision(d: DecisionId, continuation: Option<AttemptId>)
      requires Valid()
      modifies this
      ensures Valid() && Contents() == After(old(Contents()), d, Statement.InsertDecision(continuation))
      ensures now == old(now) && jobs == old(jobs)
      ensures decisions == if d in old(decisions) then old(decisions) else old(decisions)[d :=
                if continuation.None? then Decision(Classifying, None, None, None, None, None, None, None)
                else Decision(Reasoning, continuation, Some(now), Some("starting"), Some(now), None, None, None)]
    {
      if d !in decisions {
        decisions := decisions[d := NewDecision(continuation, now)];
      }
    }

    method RouteStatus(d: DecisionId, status: DecisionStatus)
      requires Valid()
      modifies this
      ensures Valid() && Contents() == After(old(Contents()), d, Statement.RouteStatus(status))
      ensures now == old(now) && jobs == old(jobs)
      ensures decisions == if d in old(decisions) then old(decisions)[d := old(decisions)[d].(status := status)] else old(decisions)
    {
      if d in decisions {
        decisions := decisions[d := decisions[d].(status := status)];
      }
    }

    /** What some other worker or request handler does. */
    method Execute(d: DecisionId, s: Statement)
      requires Valid()
      modifies this
      ensures Valid() && Contents() == After(old(Contents()), d, s)
    {
      match s
      case InsertDecision(continuation) => InsertDecision(d, continuation);
      case StartNewAttempt(from, id) => var _ := StartNewAttempt(d, from, id);
      case TryReclaim(id) => var _ := TryReclaim(d, id);
      case WriteHeartbeat(id, stage, delivered) => WriteHeartbeat(d, id, stage, delivered);
      case WriteFinalResult(id, position, provenance) => var _ := WriteFinalResult(d, id, position, provenance);
      case WriteProviderUnavailable(id) => var _ := WriteProviderUnavailable(d, id);
      case RouteStatus(status) => RouteStatus(d, status);
      case Enqueue(kind) => Enqueue(d, kind);
      case Requeue(kind) => Requeue(d, kind);
      case Claim(id) => var _ := Claim(d, id);
      case Complete => Complete(d);
      case Cancel => var _ := Cancel(d);
      case FailOrRetry(code, detail) => var _ := FailOrRetry(d, code, detail);
    }

    /** Any events, in order, as long as the clock does not run backwards. */
    method ExecuteAll(es: seq<TableEvent>)
      requires Valid() && ClockRunsForward(Contents(), es)
      modifies this
      ensures Valid() && Contents() == TableExec(old(Contents()), es)
    {
      ghost var start := Contents();
      for i := 0 to |es|
        invariant Valid() && Contents() == TableExec(start, es[..i])
      {
        ClockForwardAt(start, es, i);
        TableExecOneMore(start, es[..i], es[i]);
        assert es[..i + 1] == es[..i] + [es[i]];
        match es[i]
        case ClockMoves(to) => AdvanceClock(to);
        case On(d, s) => Execute(d, s);
      }
      assert es[..|es|] == es;
    }

    /** Every due job, in no particular order, each once. */
    method RecoverableJobs() returns (due: seq<DecisionId>)
      requires Valid()
      ensures forall d :: d in due <==> d in jobs && Due(CaseOf(Contents(), d), now)
      ensures forall d :: d in due ==> jobs[d].cancelRequestedAt.None? && jobs[d].attemptCount < jobs[d].maxAttempts
      ensures forall i, j :: 0 <= i < j < |due| ==> due[i] != due[j]
    {
      due := [];
      var left := jobs.Keys;
      while left != {}
        invariant left <= jobs.Keys
        invariant forall d :: d in due <==> d in jobs && d !in left && Due(CaseOf(Contents(), d), now)
        invariant forall i, j :: 0 <= i < j < |due| ==> due[i] != due[j]
        decreases left
      {
        var d :| d in left;
        left := left - {d};
        if Due(CaseOf(Contents(), d), now) {
          due := due + [d];
        }
      }
    }

    /** A due job with the oldest `available_at`; ties are the database's choice. */
    method FindNextDueJob() returns (next: Option<DecisionId>)
      requires Valid()
      ensures next.None? <==> forall d :: d in jobs ==> !Due(CaseOf(Contents(), d), now)
      ensures next.Some? ==> next.value in jobs && Due(CaseOf(Contents(), next.value), now)
      ensures next.Some? ==> forall d :: d in jobs && Due(CaseOf(Contents(), d), now) ==>
                jobs[next.value].availableAt <= jobs[d].availableAt
    {
      next := None;
      var left := jobs.Keys;
      while left != {}
        invariant left <= jobs.Keys
        invariant next.None? ==> forall d :: d in jobs && d !in left ==> !Due(CaseOf(Contents(), d), now)
        invariant next.Some? ==> next.value in jobs && Due(CaseOf(Contents(), next.value), now)
        invariant next.Some? ==> forall d :: d in jobs && d !in left && Due(CaseOf(Contents(), d), now) ==>
                    jobs[next.value].availableAt <= jobs[d].availableAt
        decreases left
      {
        var d :| d in left;
        left := left - {d};
        if Due(CaseOf(Contents(), d), now)
           && (next.None? || jobs[d].availableAt < jobs[next.value].availableAt) {
          next := Some(d);
        }
      }
    }
  }
}
