/** The two tables together: many cases, one database clock.  Every statement of
    the queue names one decision, so a run over the tables is, seen from any one
    case, a run of that case alone. */
module ReasoningTables {
  import opened Options
  import opened JobRows
  import opened JobRuns
  import opened JobSafety

  type DecisionId = string

  datatype Tables = Tables(now: Time, decisions: map<DecisionId, Decision>, jobs: map<DecisionId, Job>)

  function Lookup<K, V>(m: map<K, V>, k: K): Option<V> {
    if k in m then Some(m[k]) else None
  }

  function Store<K, V>(m: map<K, V>, k: K, v: Option<V>): map<K, V> {
    if v.Some? then m[k := v.value] else m
  }

  function CaseOf(t: Tables, d: DecisionId): Case {
    Case(Lookup(t.decisions, d), Lookup(t.jobs, d))
  }

  function After(t: Tables, d: DecisionId, s: Statement): Tables {
    var c := Apply(CaseOf(t, d), s, t.now);
    Tables(t.now, Store(t.decisions, d, c.decision), Store(t.jobs, d, c.job))
  }

  /** A job row references its decision row. */
  predicate ReferencesHold(t: Tables) {
    t.jobs.Keys <= t.decisions.Keys
  }

  lemma StatementTouchesOneCase(t: Tables, d: DecisionId, s: Statement, other: DecisionId)
    requires ReferencesHold(t)
    ensures ReferencesHold(After(t, d, s))
    ensures CaseOf(After(t, d, s), d) == Apply(CaseOf(t, d), s, t.now)
    ensures other != d ==> CaseOf(After(t, d, s), other) == CaseOf(t, other)
  {}

  datatype TableEvent = ClockMoves(to: Time) | On(d: DecisionId, s: Statement)

  function TableStep(t: Tables, e: TableEvent): Tables {
    match e
    case ClockMoves(to) => t.(now := to)
    case On(d, s) => After(t, d, s)
  }

  function TableExec(t: Tables, es: seq<TableEvent>): Tables
    decreases |es|
  {
    if es == [] then t else TableExec(TableStep(t, es[0]), es[1..])
  }

  /** The clock does not run backwards. */
  predicate ClockRunsForward(t: Tables, es: seq<TableEvent>)
    decreases |es|
  {
    es == [] || ((es[0].ClockMoves? ==> t.now <= es[0].to) && ClockRunsForward(TableStep(t, es[0]), es[1..]))
  }

  lemma {:induction false} TableExecOfSum(t: Tables, a: seq<TableEvent>, b: seq<TableEvent>)
    ensures TableExec(t, a + b) == TableExec(TableExec(t, a), b)
    decreases |a|
  {
    if a == [] {
      assert a + b == b;
    } else {
      assert (a + b)[1..] == a[1..] + b;
      TableExecOfSum(TableStep(t, a[0]), a[1..], b);
    }
  }

  lemma TableExecOneMore(t: Tables, es: seq<TableEvent>, e: TableEvent)
    ensures TableExec(t, es + [e]) == TableStep(TableExec(t, es), e)
  {
    TableExecOfSum(t, es, [e]);
    assert [e][1..] == [];
    assert TableExec(TableExec(t, es), [e]) == TableExec(TableStep(TableExec(t, es), e), []);
  }

  lemma {:induction false} ClockForwardAt(t: Tables, es: seq<TableEvent>, i: nat)
    requires ClockRunsForward(t, es) && i < |es|
    ensures es[i].ClockMoves? ==> TableExec(t, es[..i]).now <= es[i].to
    decreases i
  {
    if i == 0 {
      assert es[..0] == [];
    } else {
      ClockForwardAt(TableStep(t, es[0]), es[1..], i - 1);
      assert es[..i][0] == es[0] && es[..i][1..] == es[1..][..i - 1];
    }
  }

  lemma {:induction false} ClockForwardOfSum(t: Tables, a: seq<TableEvent>, b: seq<TableEvent>)
    ensures ClockRunsForward(t, a + b) <==> ClockRunsForward(t, a) && ClockRunsForward(TableExec(t, a), b)
    decreases |a|
  {
    if a == [] {
      assert a + b == b;
    } else {
      assert (a + b)[1..] == a[1..] + b && (a + b)[0] == a[0];
      ClockForwardOfSum(TableStep(t, a[0]), a[1..], b);
    }
  }

  function SeenOf(e: TableEvent, d: DecisionId): seq<Event> {
    match e
    case ClockMoves(to) => [ClockAdvances(to)]
    case On(on, s) => if on == d then [Executes(s)] else []
  }

  /** What one case sees of a run over the tables. */
  function Seen(es: seq<TableEvent>, d: DecisionId): seq<Event> {
    if es == [] then [] else SeenOf(es[0], d) + Seen(es[1..], d)
  }

  /** Any run over the tables is, for each decision, the run of its own case: so
      every theorem about runs of one case holds of each case in the tables. */
  lemma {:induction false} EachCaseRunsAlone(t: Tables, es: seq<TableEvent>, d: DecisionId, w: World)
    requires ReferencesHold(t)
    requires w.now == t.now && w.c == CaseOf(t, d)
    ensures Exec(w, Seen(es, d)).now == TableExec(t, es).now
    ensures Exec(w, Seen(es, d)).c == CaseOf(TableExec(t, es), d)
    decreases |es|
  {
    if es != [] {
      var rest := Seen(es[1..], d);
      if es[0].On? {
        StatementTouchesOneCase(t, es[0].d, es[0].s, d);
      }
      if es[0].On? && es[0].d != d {
        assert Seen(es, d) == [] + rest == rest;
        EachCaseRunsAlone(TableStep(t, es[0]), es[1..], d, w);
      } else {
        var e := if es[0].On? then Executes(es[0].s) else ClockAdvances(es[0].to);
        assert Seen(es, d) == [e] + rest;
        assert Seen(es, d)[1..] == rest;
        EachCaseRunsAlone(TableStep(t, es[0]), es[1..], d, Step(w, e));
      }
    }
  }

  lemma {:induction false} SeenOfSum(a: seq<TableEvent>, b: seq<TableEvent>, d: DecisionId)
    ensures Seen(a + b, d) == Seen(a, d) + Seen(b, d)
    decreases |a|
  {
    if a == [] {
      assert a + b == b;
    } else {
      assert (a + b)[1..] == a[1..] + b && (a + b)[0] == a[0];
      SeenOfSum(a[1..], b, d);
      var head, rest, tail := SeenOf(a[0], d), Seen(a[1..], d), Seen(b, d);
      assert head + (rest + tail) == (head + rest) + tail;
    }
  }

  /** Cases never interfere, whatever other decisions' workers do in between. */
  lemma {:induction false} OtherCasesDoNotMatter(t: Tables, es: seq<TableEvent>, d: DecisionId)
    requires ReferencesHold(t)
    requires forall k :: 0 <= k < |es| ==> es[k].On? && es[k].d != d
    ensures CaseOf(TableExec(t, es), d) == CaseOf(t, d)
    decreases |es|
  {
    if es != [] {
      StatementTouchesOneCase(t, es[0].d, es[0].s, d);
      OtherCasesDoNotMatter(TableStep(t, es[0]), es[1..], d);
    }
  }

  /** Fencing over the whole database: a write by a replaced attempt changes no
      row of either table, whatever all cases did since. */
  lemma SupersededAttemptIsInertInTables(
      t: Tables, es: seq<TableEvent>, d: DecisionId, w: World, id: AttemptId, s: Statement)
    requires ReferencesHold(t) && Reachable(w) && w.now == t.now && w.c == CaseOf(t, d)
    requires LegalRun(w, Seen(es, d))
    requires id in w.h.installed && Current(w.c) != Some(id) && WritesAs(s, id)
    ensures After(TableExec(t, es), d, s) == TableExec(t, es)
  {
    EachCaseRunsAlone(t, es, d, w);
    SupersededAttemptIsInert(w, Seen(es, d), id, s);
    StoringWhatIsThere(TableExec(t, es).decisions, d);
    StoringWhatIsThere(TableExec(t, es).jobs, d);
  }

  lemma StoringWhatIsThere<K, V>(m: map<K, V>, k: K)
    ensures Store(m, k, Lookup(m, k)) == m
  {}
}
