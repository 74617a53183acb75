/** The liveness margin behind RECOVERY_GRACE_PERIOD_SECONDS.  A ticker that
    tries at least every `tick` and misses at most `misses` writes in a row is
    never taken for dead exactly when (misses + 1) * tick is within 90 seconds;
    a worker that falls silent is recoverable after 90 seconds. */
module JobLiveness {
  import opened Options
  import opened JobRows
  import opened JobRuns

  // How often a ticker really tries, and how many failures in a row are met.
  datatype Schedule = Schedule(tick: nat, misses: nat)

  predicate WithinGrace(sch: Schedule) {
    (sch.misses + 1) * sch.tick <= RECOVERY_GRACE_PERIOD
  }

  predicate InReasoning(c: Case) {
    c.decision.Some? && c.decision.value.status.Reasoning?
  }

  predicate TickerKept(w: World, sch: Schedule) {
    w.now - w.h.beat.triedAt <= sch.tick && w.h.beat.misses <= sch.misses
  }

  /** The decision is in 'reasoning' and the ticker on schedule at every point of the run. */
  predicate LiveRun(w: World, es: seq<Event>, sch: Schedule)
    decreases |es|
  {
    InReasoning(w.c) && TickerKept(w, sch) && (es == [] || LiveRun(Step(w, es[0]), es[1..], sch))
  }

  predicate BeatBound(w: World, sch: Schedule) {
    && w.c.decision.Some? && w.c.decision.value.lastHeartbeatAt.Some?
    && w.h.beat.triedAt - w.c.decision.value.lastHeartbeatAt.value <= w.h.beat.misses * sch.tick
  }

  lemma OneMoreTick(n: nat, tick: nat)
    ensures (n + 1) * tick == n * tick + tick
  {}

  lemma FewerTicks(m: nat, n: nat, tick: nat)
    requires m <= n
    ensures m * tick <= n * tick
  {}

  lemma KeptTickerIsFresh(w: World, sch: Schedule)
    requires WithinGrace(sch) && BeatBound(w, sch) && TickerKept(w, sch)
    ensures !HeartbeatStale(w.c.decision.value, w.now)
  {
    FewerTicks(w.h.beat.misses, sch.misses, sch.tick);
    OneMoreTick(sch.misses, sch.tick);
  }

  lemma LiveStep(w: World, e: Event, sch: Schedule)
    requires Inv(w) && Legal(w, e) && WithinGrace(sch) && BeatBound(w, sch)
    requires InReasoning(w.c) && TickerKept(w, sch) && TickerKept(Step(w, e), sch)
    ensures BeatBound(Step(w, e), sch) && Step(w, e).h.installed == w.h.installed
    ensures Current(Step(w, e).c) == Current(w.c)
  {
    KeptTickerIsFresh(w, sch);
    OneMoreTick(w.h.beat.misses, sch.tick);
  }

  lemma {:induction false} LiveRunKeepsOwner(w: World, es: seq<Event>, sch: Schedule)
    requires Inv(w) && LegalRun(w, es) && WithinGrace(sch) && LiveRun(w, es, sch) && BeatBound(w, sch)
    ensures BeatBound(Exec(w, es), sch) && TickerKept(Exec(w, es), sch)
    ensures Current(Exec(w, es).c) == Current(w.c) && Exec(w, es).h.installed == w.h.installed
    decreases |es|
  {
    if es != [] {
      StepKeepsInv(w, es[0]);
      LiveStep(w, es[0], sch);
      LiveRunKeepsOwner(Step(w, es[0]), es[1..], sch);
    }
  }

  /** From the statement that installs an attempt on: as long as the decision
      stays in 'reasoning' and the ticker keeps a schedule within the grace
      period, such as every 15 seconds with five misses or every 18 with four,
      that attempt stays current in every run, and neither `try_reclaim` nor a
      stale-heartbeat claim could replace it. */
  lemma BeatingAttemptIsNeverSuperseded(w: World, s: Statement, es: seq<Event>, other: AttemptId, sch: Schedule)
    requires WithinGrace(sch)
    requires Reachable(w) && Legal(w, Executes(s)) && Installs(w.c, s, w.now)
    requires LegalRun(Step(w, Executes(s)), es) && LiveRun(Step(w, Executes(s)), es, sch)
    ensures var v := Exec(Step(w, Executes(s)), es);
            && Current(v.c) == Current(Step(w, Executes(s)).c)
            && v.h.installed == w.h.installed + [Current(v.c).value]
            && v.c.decision.Some? && !HeartbeatStale(v.c.decision.value, v.now)
            && !Installs(v.c, TryReclaim(other), v.now)
            && !Installs(v.c, Claim(other), v.now)
  {
    ReachableStatesAreSound(w);
    var w1 := Step(w, Executes(s));
    StepKeepsInv(w, Executes(s));
    LiveRunKeepsOwner(w1, es, sch);
    KeptTickerIsFresh(Exec(w1, es), sch);
    LiveRunEnds(w1, es, sch);
  }

  lemma {:induction false} LiveRunEnds(w: World, es: seq<Event>, sch: Schedule)
    requires LiveRun(w, es, sch)
    ensures InReasoning(Exec(w, es).c) && TickerKept(Exec(w, es), sch)
    decreases |es|
  {
    if es != [] { LiveRunEnds(Step(w, es[0]), es[1..], sch); }
  }

  // ----- the margin cannot be widened -----

  /** `n` ticks of attempt `id` after time `t`, none of them delivered, up to the
      moment the next one is due. */
  function MissedTicks(id: AttemptId, t: Time, n: nat, tick: nat): seq<Event>
    decreases n
  {
    if n == 0 then [ClockAdvances(t + tick)] else
    [ClockAdvances(t + tick), Executes(WriteHeartbeat(id, "reasoning", false))] + MissedTicks(id, t + tick, n - 1, tick)
  }

  lemma {:induction false} MissedTicksOnlyPassTime(w: World, id: AttemptId, n: nat, sch: Schedule)
    requires InReasoning(w.c) && Current(w.c) == Some(id)
    requires w.h.beat.triedAt == w.now && w.h.beat.misses + n <= sch.misses
    ensures var es := MissedTicks(id, w.now, n, sch.tick);
            && LegalRun(w, es) && LiveRun(w, es, sch)
            && Exec(w, es).c == w.c && Exec(w, es).now == w.now + (n + 1) * sch.tick
            && Exec(w, es).h.installed == w.h.installed
    decreases n
  {
    var es := MissedTicks(id, w.now, n, sch.tick);
    var w1 := Step(w, es[0]);
    if n == 0 {
      assert es[1..] == [];
      assert Exec(w, es) == Exec(w1, []) == w1;
      assert LegalRun(w1, []) && LiveRun(w1, [], sch);
    } else {
      var w2 := Step(w1, es[1]);
      assert es[1..][1..] == MissedTicks(id, w2.now, n - 1, sch.tick);
      assert w2.c == w.c;
      OneMoreTick(n, sch.tick);
      MissedTicksOnlyPassTime(w2, id, n - 1, sch);
      assert Exec(w, es) == Exec(w1, es[1..]) == Exec(w2, es[1..][1..]);
      assert LegalRun(w1, es[1..]) && LiveRun(w1, es[1..], sch);
    }
  }

  /** On any schedule beyond the grace period an attempt that keeps it can lose
      its case: with five misses, as soon as the period is longer than 15 seconds. */
  lemma LateScheduleLosesTheCase(w: World, id: AttemptId, other: AttemptId, sch: Schedule) returns (es: seq<Event>)
    requires !WithinGrace(sch)
    requires Reachable(w) && InReasoning(w.c) && Current(w.c) == Some(id) && other !in w.h.installed
    requires w.c.decision.value.lastHeartbeatAt == Some(w.now) && w.h.beat == Beat(w.now, 0)
    ensures LegalRun(w, es) && LiveRun(w, es, sch) && Current(Exec(w, es).c) == Some(id)
    ensures Legal(Exec(w, es), Executes(TryReclaim(other)))
    ensures Current(Apply(Exec(w, es).c, TryReclaim(other), Exec(w, es).now)) == Some(other)
  {
    es := MissedTicks(id, w.now, sch.misses, sch.tick);
    MissedTicksOnlyPassTime(w, id, sch.misses, sch);
  }

  /** At exactly 90 seconds, and only then, `is_stale` says stale while
      `try_reclaim` still refuses. */
  lemma StalenessChecksDisagreeIff(d: Decision, now: Time)
    ensures ReportedStale(d, now) && !Reclaimable(d, now)
       <==> d.status.Reasoning? && d.lastHeartbeatAt == Some(now - RECOVERY_GRACE_PERIOD)
    ensures d.status.Reasoning? && Reclaimable(d, now) ==> ReportedStale(d, now)
  {}

  // ----- a dead worker is recoverable -----

  predicate Silent(e: Event) {
    e.ClockAdvances? || (e.s.WriteHeartbeat? && !e.s.delivered)
  }

  lemma {:induction false} SilenceChangesNothing(w: World, es: seq<Event>)
    requires forall k :: 0 <= k < |es| ==> Silent(es[k])
    ensures Exec(w, es).c == w.c
    decreases |es|
  {
    if es != [] {
      assert Silent(es[0]);
      SilenceChangesNothing(Step(w, es[0]), es[1..]);
    }
  }

  /** A running, uncancelled job with attempts left whose last heartbeat was at
      `t`: once nothing is delivered any more it is claimable exactly after
      `t` + 90 seconds (or its lease), and the claim then installs a new attempt
      exactly after `t` + 90 seconds. */
  lemma DeadWorkerIsRecoverable(w: World, es: seq<Event>, t: Time, newId: AttemptId)
    requires Reachable(w) && LegalRun(w, es) && forall k :: 0 <= k < |es| ==> Silent(es[k])
    requires w.c.job.Some? && w.c.job.value.status.Running?
    requires w.c.job.value.cancelRequestedAt.None? && !Exhausted(w.c.job.value)
    requires w.c.decision.Some? && w.c.decision.value.lastHeartbeatAt == Some(t)
    requires newId !in w.h.installed
    ensures var v := Exec(w, es);
            && (Claimable(v.c, v.now) <==>
                  v.now > t + RECOVERY_GRACE_PERIOD || LeaseExpired(w.c.job.value, v.now))
            && (Claimable(v.c, v.now) ==>
                  (Current(Apply(v.c, Claim(newId), v.now)) == Some(newId) <==> v.now > t + RECOVERY_GRACE_PERIOD))
  {
    ReachableStatesAreSound(w);
    SilenceChangesNothing(w, es);
  }
}
