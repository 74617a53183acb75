/** Runs of the reasoning-job protocol on one case.  Workers, request handlers,
    the dispatcher and the clock interleave freely; each SQL transaction is one
    event.  Nothing restricts which attempt id a writer presents, so a worker
    may hold an old id and wake at any point. */
module JobRuns {
  import opened Options
  import opened JobRows

  datatype Event = ClockAdvances(to: Time) | Executes(s: Statement)

  datatype StoredResult = StoredResult(writer: AttemptId, position: Payload)

  // When the current attempt's ticker last tried to write, and how many tries
  // in a row have failed since one was delivered.
  datatype Beat = Beat(triedAt: Time, misses: nat)

  // What an observer of the case would have written down so far.
  datatype History = History(
    installed: seq<AttemptId>,
    results: seq<StoredResult>,
    claims: seq<Option<AttemptId>>,
    beat: Beat)

  datatype World = World(now: Time, c: Case, h: History)

  function Newborn(now: Time): World {
    World(now, NO_CASE, History([], [], [], Beat(now, 0)))
  }

  function Current(c: Case): Option<AttemptId> {
    if c.decision.Some? then c.decision.value.currentAttempt else None
  }

  // ----- one event -----

  predicate Installs(c: Case, s: Statement, now: Time) {
    Current(Apply(c, s, now)) != Current(c) && Current(Apply(c, s, now)).Some?
  }

  predicate Stores(c: Case, s: Statement) {
    && s.WriteFinalResult? && c.decision.Some?
    && FinalWriteOutcome(c.decision.value, s.id, s.position).Written?
  }

  predicate Ticks(c: Case, s: Statement) {
    s.WriteHeartbeat? && Current(c) == Some(s.id)
  }

  function BeatAfter(w: World, s: Statement): Beat {
    if Installs(w.c, s, w.now) then Beat(w.now, 0)
    else if Ticks(w.c, s) then Beat(w.now, if s.delivered then 0 else w.h.beat.misses + 1)
    else w.h.beat
  }

  function Recorded(w: World, s: Statement): History {
    History(
      if Installs(w.c, s, w.now) then w.h.installed + [Current(Apply(w.c, s, w.now)).value] else w.h.installed,
      if Stores(w.c, s) then w.h.results + [StoredResult(s.id, s.position)] else w.h.results,
      if s.Claim? && Claimable(w.c, w.now) then w.h.claims + [ClaimAnswer(w.c, s.id, w.now).attempt] else w.h.claims,
      BeatAfter(w, s))
  }

  function Step(w: World, e: Event): World {
    match e
    case ClockAdvances(to) => w.(now := to)
    case Executes(s) => World(w.now, Apply(w.c, s, w.now), Recorded(w, s))
  }

  /** What the environment guarantees: the clock does not run backwards, an
      attempt id handed to a statement as new has never been current before,
      and the routes pass only the statuses they pass in the source. */
  predicate Legal(w: World, e: Event) {
    match e
    case ClockAdvances(to) => w.now <= to
    case Executes(InsertDecision(continuation)) => continuation.Some? ==> continuation.value !in w.h.installed
    case Executes(StartNewAttempt(from, id)) =>
      id !in w.h.installed && (from.Classifying? || from.AwaitingUserInput?)
    case Executes(TryReclaim(id)) => id !in w.h.installed
    case Executes(Claim(id)) => id !in w.h.installed
    case Executes(RouteStatus(status)) => status.AwaitingUserInput? || status.ProviderUnavailable?
    case _ => true
  }

  // ----- runs -----

  function Exec(w: World, es: seq<Event>): World
    decreases |es|
  {
    if es == [] then w else Exec(Step(w, es[0]), es[1..])
  }

  predicate LegalRun(w: World, es: seq<Event>)
    decreases |es|
  {
    es == [] || (Legal(w, es[0]) && LegalRun(Step(w, es[0]), es[1..]))
  }

  // ----- the reachable-state invariant -----

  function Last<T>(s: seq<T>): T
    requires s != []
  {
    s[|s| - 1]
  }

  predicate Distinct<T(==)>(s: seq<T>) {
    forall i, j :: 0 <= i < j < |s| ==> s[i] != s[j]
  }

  /** Position of the first occurrence of `x`, or the length. */
  function Rank(s: seq<AttemptId>, x: AttemptId): nat {
    if s == [] || s[0] == x then 0 else 1 + Rank(s[1..], x)
  }

  predicate FenceHolds(w: World) {
    && Distinct(w.h.installed)
    && Current(w.c) == (if w.h.installed == [] then None else Some(Last(w.h.installed)))
  }

  predicate ResultsInOrder(h: History) {
    && (forall i :: 0 <= i < |h.results| ==> h.results[i].writer in h.installed)
    && (forall i, j :: 0 <= i <= j < |h.results| ==>
          Rank(h.installed, h.results[i].writer) <= Rank(h.installed, h.results[j].writer))
  }

  predicate DecisionOk(w: World) {
    if w.c.decision.None? then w.h.results == [] else
    var d := w.c.decision.value;
    && (d.status.Reasoning? || d.lastHeartbeatAt.Some? ==> d.currentAttempt.Some?)
    && (d.lastHeartbeatAt.Some? ==> d.lastHeartbeatAt.value <= w.now)
    && d.position == (if w.h.results == [] then None else Some(Last(w.h.results).position))
    && (d.status.Completed? ==> w.h.results != [] && Owns(d, Last(w.h.results).writer))
  }

  predicate JobOk(w: World) {
    if w.c.job.None? then w.h.claims == [] else
    var j := w.c.job.value;
    && w.c.decision.Some?
    && (j.status.Running? ==> j.timeoutAt.Some?)
    && |w.h.claims| == j.attemptCount <= j.maxAttempts == MAX_ATTEMPTS
  }

  predicate Inv(w: World) {
    FenceHolds(w) && ResultsInOrder(w.h) && DecisionOk(w) && JobOk(w)
  }

  lemma {:induction false} RankOfMember(s: seq<AttemptId>, x: AttemptId)
    ensures x in s ==> Rank(s, x) < |s| && s[Rank(s, x)] == x
  {
    if s != [] && s[0] != x { RankOfMember(s[1..], x); }
  }

  lemma {:induction false} RankOfLast(s: seq<AttemptId>)
    requires s != [] && Distinct(s)
    ensures Rank(s, Last(s)) == |s| - 1
  {
    if |s| > 1 {
      assert s[0] != Last(s);
      RankOfLast(s[1..]);
    }
  }

  lemma RankUnderAppend(s: seq<AttemptId>, x: AttemptId, y: AttemptId)
    requires x in s
    ensures Rank(s + [y], x) == Rank(s, x)
  {
    if s[0] != x {
      assert (s + [y])[1..] == s[1..] + [y];
      RankUnderAppend(s[1..], x, y);
    }
  }

  lemma ResultsStayInOrderOnInstall(h: History, id: AttemptId)
    requires ResultsInOrder(h)
    ensures ResultsInOrder(h.(installed := h.installed + [id]))
  {
    forall i | 0 <= i < |h.results|
      ensures Rank(h.installed + [id], h.results[i].writer) == Rank(h.installed, h.results[i].writer)
    {
      RankUnderAppend(h.installed, h.results[i].writer, id);
    }
  }

  lemma ResultsStayInOrderOnStore(h: History, r: StoredResult)
    requires ResultsInOrder(h) && Distinct(h.installed)
    requires h.installed != [] && r.writer == Last(h.installed)
    ensures ResultsInOrder(h.(results := h.results + [r]))
  {
    RankOfLast(h.installed);
    forall i | 0 <= i < |h.results| ensures Rank(h.installed, h.results[i].writer) <= |h.installed| - 1 {
      RankOfMember(h.installed, h.results[i].writer);
    }
  }

  lemma FenceKept(w: World, s: Statement)
    requires Inv(w) && Legal(w, Executes(s))
    ensures FenceHolds(Step(w, Executes(s)))
  {}

  lemma OrderKept(w: World, s: Statement)
    requires Inv(w) && Legal(w, Executes(s))
    ensures ResultsInOrder(Recorded(w, s))
  {
    if Installs(w.c, s, w.now) {
      ResultsStayInOrderOnInstall(w.h, Current(Apply(w.c, s, w.now)).value);
    } else if Stores(w.c, s) {
      ResultsStayInOrderOnStore(w.h, StoredResult(s.id, s.position));
    }
  }

  lemma DecisionKept(w: World, s: Statement)
    requires Inv(w) && Legal(w, Executes(s))
    ensures DecisionOk(Step(w, Executes(s)))
  {}

  lemma JobKept(w: World, s: Statement)
    requires Inv(w) && Legal(w, Executes(s))
    ensures JobOk(Step(w, Executes(s)))
  {}

  lemma StepKeepsInv(w: World, e: Event)
    requires Inv(w) && Legal(w, e)
    ensures Inv(Step(w, e))
  {
    if e.Executes? {
      FenceKept(w, e.s);
      OrderKept(w, e.s);
      DecisionKept(w, e.s);
      JobKept(w, e.s);
    }
  }

  lemma {:induction false} RunKeepsInv(w: World, es: seq<Event>)
    requires Inv(w) && LegalRun(w, es)
    ensures Inv(Exec(w, es))
    decreases |es|
  {
    if es != [] {
      StepKeepsInv(w, es[0]);
      RunKeepsInv(Step(w, es[0]), es[1..]);
    }
  }

  /** The states some legal run can bring a case to. */
  ghost predicate Reachable(w: World) {
    exists start, es :: LegalRun(Newborn(start), es) && Exec(Newborn(start), es) == w
  }

  /** Every reachable state has the invariant: `completed` means the stored
      position was written by the attempt that is still current; `reasoning` or
      a heartbeat means an attempt id is set; `running` means a lease is set. */
  lemma ReachableStatesAreSound(w: World)
    requires Reachable(w)
    ensures Inv(w)
  {
    var start, es :| LegalRun(Newborn(start), es) && Exec(Newborn(start), es) == w;
    RunKeepsInv(Newborn(start), es);
  }

  lemma {:induction false} RunOfSum(w: World, a: seq<Event>, b: seq<Event>)
    ensures Exec(w, a + b) == Exec(Exec(w, a), b)
    ensures LegalRun(w, a + b) <==> LegalRun(w, a) && LegalRun(Exec(w, a), b)
    decreases |a|
  {
    if a == [] {
      assert a + b == b;
    } else {
      assert (a + b)[1..] == a[1..] + b && (a + b)[0] == a[0];
      RunOfSum(Step(w, a[0]), a[1..], b);
    }
  }

  lemma ExecOneMore(w: World, es: seq<Event>, e: Event)
    requires LegalRun(w, es) && Legal(Exec(w, es), e)
    ensures LegalRun(w, es + [e]) && Exec(w, es + [e]) == Step(Exec(w, es), e)
  {
    RunOfSum(w, es, [e]);
    assert [e][1..] == [];
    assert LegalRun(Exec(w, es), [e]) && Exec(Exec(w, es), [e]) == Exec(Step(Exec(w, es), e), []);
  }

  lemma ReachableStep(w: World, e: Event)
    requires Reachable(w) && Legal(w, e)
    ensures Reachable(Step(w, e))
  {
    var start, es :| LegalRun(Newborn(start), es) && Exec(Newborn(start), es) == w;
    ExecOneMore(Newborn(start), es, e);
  }

  lemma ReachableRun(w: World, es: seq<Event>)
    requires Reachable(w) && LegalRun(w, es)
    ensures Reachable(Exec(w, es))
  {
    var start, before :| LegalRun(Newborn(start), before) && Exec(Newborn(start), before) == w;
    RunOfSum(Newborn(start), before, es);
  }

  lemma NewbornReachable(start: Time)
    ensures Reachable(Newborn(start))
  {
    assert LegalRun(Newborn(start), []) && Exec(Newborn(start), []) == Newborn(start);
  }
}
