/** Safety of whole runs: fencing, the order of stored results, the bounded
    number of claims, and what `completed` does and does not promise. */
module JobSafety {
  import opened Options
  import opened JobRows
  import opened JobRuns

  // ----- fencing -----

  lemma {:induction false} InstalledOnlyGrows(w: World, es: seq<Event>)
    ensures w.h.installed <= Exec(w, es).h.installed
    decreases |es|
  {
    if es != [] { InstalledOnlyGrows(Step(w, es[0]), es[1..]); }
  }

  predicate WritesAs(s: Statement, id: AttemptId) {
    || (s.WriteHeartbeat? && s.id == id)
    || (s.WriteFinalResult? && s.id == id)
    || (s.WriteProviderUnavailable? && s.id == id)
  }

  /** Once an attempt id has been replaced, no write under it ever changes a
      field of the case again, however long the run goes on. */
  lemma SupersededAttemptIsInert(w: World, es: seq<Event>, id: AttemptId, s: Statement)
    requires Reachable(w) && LegalRun(w, es)
    requires id in w.h.installed && Current(w.c) != Some(id)
    requires WritesAs(s, id)
    ensures Apply(Exec(w, es).c, s, Exec(w, es).now) == Exec(w, es).c
    ensures s.WriteFinalResult? && Exec(w, es).c.decision.Some? ==>
              FinalWriteOutcome(Exec(w, es).c.decision.value, id, s.position).Superseded?
  {
    ReachableStatesAreSound(w);
    RunKeepsInv(w, es);
    InstalledOnlyGrows(w, es);
    var k :| 0 <= k < |w.h.installed| && w.h.installed[k] == id;
    assert Exec(w, es).h.installed[k] == id;
  }

  /** The results stored over a run come from attempts in the order those
      attempts were installed: never an older attempt's after a newer one's. */
  lemma ResultsFollowInstallOrder(w: World, i: nat, j: nat, p: nat, q: nat)
    requires Reachable(w)
    requires i <= j < |w.h.results| && p < |w.h.installed| && q < |w.h.installed|
    requires w.h.results[i].writer == w.h.installed[p] && w.h.results[j].writer == w.h.installed[q]
    ensures p <= q
  {
    ReachableStatesAreSound(w);
    RankOfMember(w.h.installed, w.h.installed[p]);
    RankOfMember(w.h.installed, w.h.installed[q]);
  }

  // ----- who holds which id -----

  /** A successful claim never raises and always hands out the id that is
      current from then on; it is the id that was already current exactly when
      the heartbeat is not stale. */
  lemma ClaimReturnsCurrentId(w: World, newId: AttemptId)
    requires Reachable(w) && Legal(w, Executes(Claim(newId)))
    ensures !ClaimAnswer(w.c, newId, w.now).ClaimRaised?
    ensures ClaimAnswer(w.c, newId, w.now).Claimed? <==> Claimable(w.c, w.now)
    ensures Claimable(w.c, w.now) ==>
              var attempt := ClaimAnswer(w.c, newId, w.now).attempt;
              && attempt.Some? && attempt == Current(Apply(w.c, Claim(newId), w.now))
              && (attempt == Current(w.c) <==> !HeartbeatStale(w.c.decision.value, w.now))
  {
    ReachableStatesAreSound(w);
  }

  predicate LeavesRunning(e: Event) {
    e.Executes? && (e.s.Requeue? || e.s.FailOrRetry?)
  }

  predicate NeverRevived(es: seq<Event>) {
    forall k :: 0 <= k < |es| ==> !LeavesRunning(es[k])
  }

  lemma {:induction false} OnlyRequeueOrFailureMakesWaiting(w: World, es: seq<Event>)
    requires w.c.decision.Some? && w.c.job.Some? && !Waiting(w.c.job.value)
    requires NeverRevived(es)
    ensures Exec(w, es).c.decision.Some? && Exec(w, es).c.job.Some? && !Waiting(Exec(w, es).c.job.value)
    decreases |es|
  {
    if es != [] {
      assert !LeavesRunning(es[0]);
      OnlyRequeueOrFailureMakesWaiting(Step(w, es[0]), es[1..]);
    }
  }

  /** Two successful claims hand out different ids unless, between them, the
      lease ran out or `requeue` or `fail_or_retry` moved the job: any other
      reclaim installs the id generated for it. */
  lemma ReclaimInstallsFreshId(w: World, first: AttemptId, between: seq<Event>, second: AttemptId)
    requires Reachable(w) && Legal(w, Executes(Claim(first))) && Claimable(w.c, w.now)
    requires LegalRun(Step(w, Executes(Claim(first))), between)
    requires var v := Exec(Step(w, Executes(Claim(first))), between);
             && Legal(v, Executes(Claim(second))) && Claimable(v.c, v.now)
             && !LeaseExpired(v.c.job.value, v.now)
    requires NeverRevived(between)
    ensures var v := Exec(Step(w, Executes(Claim(first))), between);
            && ClaimAnswer(v.c, second, v.now).attempt == Some(second)
            && ClaimAnswer(v.c, second, v.now).attempt != ClaimAnswer(w.c, first, w.now).attempt
  {
    ReachableStatesAreSound(w);
    ClaimReturnsCurrentId(w, first);
    var w1 := Step(w, Executes(Claim(first)));
    StepKeepsInv(w, Executes(Claim(first)));
    OnlyRequeueOrFailureMakesWaiting(w1, between);
    InstalledOnlyGrows(w1, between);
    assert Last(w1.h.installed) in Exec(w1, between).h.installed;
  }

  /** The exception, for every reachable world: with the lease expired and the
      heartbeat fresh, a claim hands out the live worker's own id and leaves the
      decision row as it was, so fencing cannot tell the two workers apart. */
  lemma LiveWorkerPastItsLeaseIsDoubled(w: World, newId: AttemptId)
    requires Reachable(w) && Legal(w, Executes(Claim(newId)))
    requires w.c.job.Some? && w.c.job.value.status.Running? && LeaseExpired(w.c.job.value, w.now)
    requires w.c.job.value.cancelRequestedAt.None? && !Exhausted(w.c.job.value)
    requires w.c.decision.Some? && !HeartbeatStale(w.c.decision.value, w.now)
    ensures ClaimAnswer(w.c, newId, w.now).Claimed?
    ensures ClaimAnswer(w.c, newId, w.now).attempt == Current(w.c)
    ensures Apply(w.c, Claim(newId), w.now).decision == w.c.decision
  {
    ReachableStatesAreSound(w);
  }

  /** And it happens: in one legal run two claims of one job return the same id,
      which is current throughout, although the first worker never stopped
      beating; it has only outlived its lease. */
  lemma OneIdIsHandedOutTwice() returns (w: World)
    ensures Reachable(w)
    ensures w.h.claims == [Some(1), Some(1)] && w.h.installed == [1] && Current(w.c) == Some(1)
    ensures w.h.beat.misses == 0 && w.c.decision.Some? && !HeartbeatStale(w.c.decision.value, w.now)
  {
    w := BeatingPastTheLease();
    var e := Executes(Claim(3));
    LiveWorkerPastItsLeaseIsDoubled(w, 3);
    ReachableStep(w, e);
    w := Step(w, e);
  }

  lemma BeatingPastTheLease() returns (w: World)
    ensures Reachable(w) && w.now == LEASE + SECOND
    ensures w.h.claims == [Some(1)] && w.h.installed == [1] && w.h.beat == Beat(LEASE + SECOND, 0)
    ensures w.c == Case(
              Some(Install(NewDecision(None, 0), 1, 0).(lastHeartbeatAt := Some(LEASE + SECOND), stage := Some("reasoning"))),
              Some(LeasedJob(NewJob(Specialist, 0), 0)))
  {
    w := ClaimedOnce();
    var e := ClockAdvances(LEASE + SECOND);
    ReachableStep(w, e);
    w := Step(w, e);
    e := Executes(WriteHeartbeat(1, "reasoning", true));
    ReachableStep(w, e);
    w := Step(w, e);
  }

  // ----- losing the case -----

  predicate Active(j: Job) { Waiting(j) || j.status.Running? }

  /** Reasoning is under way, and no job row will ever bring a worker to it. */
  predicate Stranded(c: Case) {
    c.decision.Some? && c.decision.value.status.Reasoning? && c.job.Some? && !Active(c.job.value)
  }

  /** Which statements take an active job off the queue: `complete`, by whichever
      worker, a cancel, and the failure of the last attempt. */
  lemma JobLeavesTheQueueIff(w: World, s: Statement)
    requires Reachable(w) && w.c.decision.Some? && w.c.job.Some? && Active(w.c.job.value)
    ensures Apply(w.c, s, w.now).job.Some?
    ensures !Active(Apply(w.c, s, w.now).job.value) <==> s.Complete? || s.Cancel? || (s.FailOrRetry? && Exhausted(w.c.job.value))
  {}

  /** A job neither waiting nor running is never due or claimable again, in any
      run without `requeue` or `fail_or_retry`. */
  lemma {:induction false} InactiveJobStaysOff(w: World, es: seq<Event>)
    requires w.c.decision.Some? && w.c.job.Some? && !Active(w.c.job.value) && NeverRevived(es)
    ensures !Due(Exec(w, es).c, Exec(w, es).now) && !Claimable(Exec(w, es).c, Exec(w, es).now)
    decreases |es|
  {
    if es != [] {
      assert !LeavesRunning(es[0]);
      InactiveJobStaysOff(Step(w, es[0]), es[1..]);
    }
  }

  /** The queue promises that a later process can reclaim "without losing the
      case" (app/pipeline/job_queue.py:3-5).  `complete` is not fenced, so the
      first worker, waking after its case was reclaimed, has its result refused
      and then marks the new attempt's job completed: should that attempt die,
      nothing is stored and no discovery or claim finds the case again. */
  lemma AReclaimedCaseCanBeLost() returns (w: World)
    ensures Reachable(w) && Stranded(w.c) && w.h.claims == [Some(1), Some(3)] && Current(w.c) == Some(3)
    ensures w.h.results == [] && w.c.decision.value.position.None?
    ensures w.c.job.value.cancelRequestedAt.None? && !Exhausted(w.c.job.value)
    ensures forall es :: NeverRevived(es) ==>
              !Due(Exec(w, es).c, Exec(w, es).now) && !Claimable(Exec(w, es).c, Exec(w, es).now)
  {
    w := ReclaimedAfterSilence();
    ReachableStep(w, Executes(WriteFinalResult(1, "answer", "sources")));
    assert Step(w, Executes(WriteFinalResult(1, "answer", "sources"))) == w;
    ReachableStep(w, Executes(Complete));
    w := Step(w, Executes(Complete));
    forall es | NeverRevived(es)
      ensures !Due(Exec(w, es).c, Exec(w, es).now) && !Claimable(Exec(w, es).c, Exec(w, es).now)
    {
      InactiveJobStaysOff(w, es);
    }
  }

  lemma ReclaimedAfterSilence() returns (w: World)
    ensures Reachable(w) && w.now == 91 * SECOND
    ensures w.h == History([1, 3], [], [Some(1), Some(3)], Beat(91 * SECOND, 0))
    ensures w.c == Case(
              Some(Install(Install(NewDecision(None, 0), 1, 0), 3, 91 * SECOND)),
              Some(LeasedJob(LeasedJob(NewJob(Specialist, 0), 0), 91 * SECOND)))
  {
    w := ClaimedOnce();
    ReachableStep(w, ClockAdvances(91 * SECOND));
    w := Step(w, ClockAdvances(91 * SECOND));
    ReachableStep(w, Executes(Claim(3)));
    w := Step(w, Executes(Claim(3)));
  }

  // ----- recovery on request -----

  /** "A genuine, recorded failure is always safely retriable"
      (app/routes/decisions.py:1222-1224): in every reachable state a request to
      recover a decision whose provider failed succeeds at once, whatever its
      heartbeat, and from then on the failed attempt writes nothing. */
  lemma FailedDecisionIsAlwaysRecoverable(w: World, newId: AttemptId, es: seq<Event>, id: AttemptId, s: Statement)
    requires Reachable(w) && Legal(w, Executes(TryReclaim(newId)))
    requires w.c.decision.Some? && w.c.decision.value.status.ProviderUnavailable?
    ensures var v := Step(w, Executes(TryReclaim(newId)));
            && v.c == w.c.(decision := v.c.decision) && v.c.decision.Some?
            && v.c.decision.value.status == Reasoning && Current(v.c) == Some(newId)
            && v.c.decision.value.lastHeartbeatAt == Some(w.now) && v.c.decision.value.position == w.c.decision.value.position
            && (Current(w.c) == Some(id) && WritesAs(s, id) && LegalRun(v, es) ==>
                  Apply(Exec(v, es).c, s, Exec(v, es).now) == Exec(v, es).c)
  {
    var v := Step(w, Executes(TryReclaim(newId)));
    ReachableStatesAreSound(w);
    ReachableStep(w, Executes(TryReclaim(newId)));
    if Current(w.c) == Some(id) && WritesAs(s, id) && LegalRun(v, es) {
      assert id in w.h.installed && id in v.h.installed;
      SupersededAttemptIsInert(v, es, id, s);
    }
  }

  /** A decision that is being reasoned about can be reclaimed exactly when it
      has no heartbeat or none within 90 seconds; in any other state it cannot. */
  lemma OnlySilenceOrFailureIsReclaimed(w: World, newId: AttemptId)
    requires Reachable(w) && Legal(w, Executes(TryReclaim(newId))) && w.c.decision.Some?
    ensures var d, v := w.c.decision.value, Apply(w.c, TryReclaim(newId), w.now);
            && (Current(v) == Some(newId) <==>
                  || d.status == ProviderUnavailable
                  || (d.status == Reasoning && (d.lastHeartbeatAt.None? || d.lastHeartbeatAt.value < w.now - 90 * SECOND)))
            && (Current(v) != Some(newId) ==> v == w.c)
  {
    ReachableStatesAreSound(w);
  }

  // ----- bounded retry and cancellation -----

  /** No run claims a job more than `max_attempts` times. */
  lemma ClaimsAreBounded(w: World)
    requires Reachable(w)
    ensures |w.h.claims| <= MAX_ATTEMPTS
    ensures w.c.job.Some? ==> |w.h.claims| == w.c.job.value.attemptCount
    ensures forall k :: 0 <= k < |w.h.claims| ==> w.h.claims[k].Some?
  {
    ReachableStatesAreSound(w);
    var start, es :| LegalRun(Newborn(start), es) && Exec(Newborn(start), es) == w;
    ClaimsStayNonNull(Newborn(start), es);
  }

  lemma {:induction false} ClaimsStayNonNull(w: World, es: seq<Event>)
    requires Inv(w) && LegalRun(w, es)
    requires forall k :: 0 <= k < |w.h.claims| ==> w.h.claims[k].Some?
    ensures forall k :: 0 <= k < |Exec(w, es).h.claims| ==> Exec(w, es).h.claims[k].Some?
    decreases |es|
  {
    if es != [] {
      StepKeepsInv(w, es[0]);
      ClaimsStayNonNull(Step(w, es[0]), es[1..]);
    }
  }

  /** After the last attempt no sequence of operations, `requeue` included,
      makes the job claimable again. */
  lemma {:induction false} ExhaustedForGood(w: World, es: seq<Event>)
    requires w.c.decision.Some? && w.c.job.Some? && Exhausted(w.c.job.value)
    ensures Exec(w, es).c.decision.Some? && Exec(w, es).c.job.Some? && Exhausted(Exec(w, es).c.job.value)
    ensures !Claimable(Exec(w, es).c, Exec(w, es).now)
    decreases |es|
  {
    if es != [] { ExhaustedForGood(Step(w, es[0]), es[1..]); }
  }

  /** `requeue` is written to serve "a real retry of an existing, already-tracked
      job" (app/pipeline/job_queue.py:47-51), but it never resets the count: the
      job it leaves 'queued' can be claimed exactly when attempts were left. */
  lemma RequeueRevivesIffAttemptsLeft(w: World, kind: JobKind)
    requires Reachable(w) && w.c.job.Some?
    ensures var c := Apply(w.c, Requeue(kind), w.now);
            && c.job.Some? && c.job.value.status.Queued? && c.job.value.cancelRequestedAt.None?
            && (Claimable(c, w.now) <==> w.c.job.value.attemptCount < w.c.job.value.maxAttempts)
  {
    ReachableStatesAreSound(w);
  }

  /** After a cancel no claim succeeds until a `requeue`. */
  lemma {:induction false} CancelledUntilRequeued(w: World, es: seq<Event>)
    requires w.c.decision.Some? && w.c.job.Some? && w.c.job.value.cancelRequestedAt.Some?
    requires forall k :: 0 <= k < |es| ==> !(es[k].Executes? && es[k].s.Requeue?)
    ensures Exec(w, es).c.decision.Some? && Exec(w, es).c.job.Some?
    ensures Exec(w, es).c.job.value.cancelRequestedAt.Some? && !Claimable(Exec(w, es).c, Exec(w, es).now)
    decreases |es|
  {
    if es != [] {
      assert !(es[0].Executes? && es[0].s.Requeue?);
      CancelledUntilRequeued(Step(w, es[0]), es[1..]);
    }
  }

  // ----- what 'completed' means -----

  predicate Finished(c: Case) {
    c.decision.Some? && c.decision.value.status.Completed?
  }

  /** A completed decision leaves 'completed' in one step exactly when a claim
      succeeds on a stale heartbeat, its own attempt reports a provider failure,
      or a route overwrites the status. */
  lemma CompletedIsLeftIff(w: World, s: Statement)
    requires Reachable(w) && Finished(w.c) && Legal(w, Executes(s))
    ensures !Finished(Apply(w.c, s, w.now)) <==>
            || (s.Claim? && Claimable(w.c, w.now) && HeartbeatStale(w.c.decision.value, w.now))
            || (s.WriteProviderUnavailable? && Owns(w.c.decision.value, s.id))
            || s.RouteStatus?
  {}

  ghost predicate FinishedThroughout(w: World, es: seq<Event>)
    decreases |es|
  {
    Finished(w.c) && (es == [] || FinishedThroughout(Step(w, es[0]), es[1..]))
  }

  /** While a decision stays completed its stored position never changes. */
  lemma {:induction false} CompletedPositionIsImmutable(w: World, es: seq<Event>)
    requires FinishedThroughout(w, es)
    ensures Exec(w, es).c.decision.Some? && Exec(w, es).c.decision.value.position == w.c.decision.value.position
    decreases |es|
  {
    if es != [] { CompletedPositionIsImmutable(Step(w, es[0]), es[1..]); }
  }

  /** "Completed is for ever" is false: a worker that stores its result and dies
      before `complete` leaves a running job, and 90 silent seconds later a
      claim puts the finished decision back into 'reasoning'. */
  lemma CompletedCanBeReopened() returns (w: World, newId: AttemptId)
    ensures Reachable(w) && Legal(w, Executes(Claim(newId)))
    ensures Finished(w.c) && w.c.decision.value.position == Some("answer")
    ensures var v := Step(w, Executes(Claim(newId)));
            v.c.decision.value.status.Reasoning? && Current(v.c) == Some(newId)
  {
    w := StoredButNotCompleted();
    newId := 3;
    ReachableStep(w, ClockAdvances(91 * SECOND));
    w := Step(w, ClockAdvances(91 * SECOND));
  }

  lemma StoredButNotCompleted() returns (w: World)
    ensures Reachable(w) && w.now == 0 && w.h.installed == [1]
    ensures w.c == Case(
              Some(Decision(Completed, Some(1), Some(0), Some("starting"), Some(0), Some("answer"), Some("sources"), Some(0))),
              Some(LeasedJob(NewJob(Specialist, 0), 0)))
  {
    w := ClaimedOnce();
    ReachableStep(w, Executes(WriteFinalResult(1, "answer", "sources")));
    w := Step(w, Executes(WriteFinalResult(1, "answer", "sources")));
  }

  lemma ClaimedOnce() returns (w: World)
    ensures Reachable(w) && w.now == 0 && w.h == History([1], [], [Some(1)], Beat(0, 0))
    ensures w.c == Case(Some(Install(NewDecision(None, 0), 1, 0)), Some(LeasedJob(NewJob(Specialist, 0), 0)))
  {
    NewbornReachable(0);
    w := Newborn(0);
    var e := Executes(InsertDecision(None));
    ReachableStep(w, e);
    w, e := Step(w, e), Executes(StartNewAttempt(Classifying, 1));
    assert w.c == Case(Some(NewDecision(None, 0)), None) && w.h == History([], [], [], Beat(0, 0));
    ReachableStep(w, e);
    w, e := Step(w, e), Executes(Enqueue(Specialist));
    assert w.c == Case(Some(Install(NewDecision(None, 0), 1, 0)), None) && w.h == History([1], [], [], Beat(0, 0));
    ReachableStep(w, e);
    w, e := Step(w, e), Executes(Claim(2));
    assert w.c.job == Some(NewJob(Specialist, 0)) && w.h == History([1], [], [], Beat(0, 0));
    ReachableStep(w, e);
    w := Step(w, e);
  }
}
