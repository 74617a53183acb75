/** Discovery (`find_next_due_job`, `recoverable_jobs`) against the authority,
    `claim`: what discovery reports can be claimed, and what it overlooks. */
module JobDiscovery {
  import opened Options
  import opened JobRows
  import opened JobRuns

  /** The due list, column by column. */
  lemma DueIff(c: Case, now: Time)
    ensures Due(c, now) <==>
            && c.decision.Some? && c.job.Some?
            && var d, j := c.decision.value, c.job.value;
            && j.cancelRequestedAt.None? && j.attemptCount < j.maxAttempts
            && (|| (j.status in {Queued, RetryScheduled} && j.availableAt <= now)
                || (j.status == Running && j.timeoutAt.Some? && j.timeoutAt.value < now)
                || (j.status == Running && d.status == Reasoning
                    && (d.lastHeartbeatAt.None? || d.lastHeartbeatAt.value < now - 90 * SECOND)))
  {}

  /** What can be claimed, column by column. */
  lemma ClaimableIff(w: World)
    requires Reachable(w)
    ensures Claimable(w.c, w.now) <==>
            && w.c.decision.Some? && w.c.job.Some?
            && var d, j := w.c.decision.value, w.c.job.value;
            && j.cancelRequestedAt.None? && j.attemptCount < 3
            && (|| (j.status in {Queued, RetryScheduled} && j.availableAt <= w.now)
                || (j.status == Running && j.timeoutAt.Some? && j.timeoutAt.value < w.now)
                || (j.status == Running && (d.lastHeartbeatAt.None? || d.lastHeartbeatAt.value < w.now - 90 * SECOND)))
  {
    ReachableStatesAreSound(w);
  }

  /** Discovery reports a case only if `claim` would take it in that state; the
      one claimable case it never reports is a running job on an unexpired
      lease whose heartbeat is stale and whose decision is not 'reasoning'. */
  lemma DiscoveryRefinesClaiming(w: World)
    requires Reachable(w)
    ensures Due(w.c, w.now) ==> Claimable(w.c, w.now)
    ensures Claimable(w.c, w.now) && !Due(w.c, w.now) <==>
            && w.c.decision.Some? && w.c.job.Some?
            && var d, j := w.c.decision.value, w.c.job.value;
            && j.cancelRequestedAt.None? && !Exhausted(j) && j.status.Running?
            && !LeaseExpired(j, w.now) && HeartbeatStale(d, w.now) && !d.status.Reasoning?
  {
    ReachableStatesAreSound(w);
  }

  predicate LeaseIsSet(c: Case) {
    c.job.Some? && c.job.value.status.Running? ==> c.job.value.timeoutAt.Some?
  }

  /** A claim takes the case off the due list at that clock reading, and nothing
      the worker then does at that reading puts it back. */
  lemma ClaimedCaseIsNotDue(c: Case, newId: AttemptId, now: Time)
    requires Due(c, now) && LeaseIsSet(c)
    ensures var c' := Apply(c, Claim(newId), now);
            && ClaimAnswer(c, newId, now).Claimed?
            && c'.job.Some? && c'.job.value.status.Running? && c'.job.value.attemptCount >= 1
            && !Due(c', now) && LeaseIsSet(c')
  {}
}
