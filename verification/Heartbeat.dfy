/** `HeartbeatTicker`: the thread that keeps one attempt alive while its worker
    blocks on a long call.  What happens while it waits, the passing of time
    included, is any list of events; whether a write reaches the database is up
    to the environment too. */
module Heartbeat {
  import opened Options
  import opened JobRows
  import opened JobRuns
  import opened ReasoningTables
  import opened ReasoningStore

  // One turn of the loop: what everyone else and the clock do while it waits,
  // and whether the write that follows is delivered.
  datatype Turn = Turn(others: seq<TableEvent>, delivered: bool)

  // The attempt a ticker beats for.
  datatype Beater = Beater(decisionId: DecisionId, attempt: AttemptId, stage: string)

  function BeatOf(b: Beater, delivered: bool): TableEvent {
    On(b.decisionId, Statement.WriteHeartbeat(b.attempt, b.stage, delivered))
  }

  /** The loop's turns as one run of the protocol. */
  function Turns(b: Beater, turns: seq<Turn>): seq<TableEvent> {
    if turns == [] then []
    else Turns(b, turns[..|turns| - 1]) + turns[|turns| - 1].others + [BeatOf(b, turns[|turns| - 1].delivered)]
  }

  /** The same without the ticker. */
  function OthersOf(turns: seq<Turn>): seq<TableEvent> {
    if turns == [] then [] else OthersOf(turns[..|turns| - 1]) + turns[|turns| - 1].others
  }

  /** `wait` returns no earlier than after its interval, and the clock never runs back. */
  predicate EachTurnWaits(t: Tables, b: Beater, turns: seq<Turn>) {
    turns == [] ||
    (var front, last := turns[..|turns| - 1], turns[|turns| - 1];
     var before := TableExec(t, Turns(b, front));
     && EachTurnWaits(t, b, front)
     && ClockRunsForward(before, last.others)
     && before.now + HEARTBEAT_TICK_INTERVAL <= TableExec(before, last.others).now)
  }

  lemma TurnsOneMore(t: Tables, b: Beater, turns: seq<Turn>, turn: Turn)
    ensures Turns(b, turns + [turn]) == Turns(b, turns) + turn.others + [BeatOf(b, turn.delivered)]
    ensures TableExec(t, Turns(b, turns + [turn]))
            == TableStep(TableExec(TableExec(t, Turns(b, turns)), turn.others), BeatOf(b, turn.delivered))
  {
    assert (turns + [turn])[..|turns|] == turns;
    TableExecOneMore(t, Turns(b, turns) + turn.others, BeatOf(b, turn.delivered));
    TableExecOfSum(t, Turns(b, turns), turn.others);
  }

  lemma {:induction false} PrefixWaits(t: Tables, b: Beater, turns: seq<Turn>, n: nat)
    requires EachTurnWaits(t, b, turns) && n <= |turns|
    ensures EachTurnWaits(t, b, turns[..n])
  {
    if n < |turns| {
      PrefixWaits(t, b, turns[..|turns| - 1], n);
      assert turns[..|turns| - 1][..n] == turns[..n];
    } else {
      assert turns[..n] == turns;
    }
  }

  class HeartbeatTicker {
    const b: Beater

    constructor (decisionId: DecisionId, attempt: AttemptId, stage: string)
      ensures b == Beater(decisionId, attempt, stage)
    {
      b := Beater(decisionId, attempt, stage);
    }

    /** The tick loop until the stop event is exactly this run of the protocol,
        whatever everyone else does between two beats. */
    method TickLoop(db: Database, turns: seq<Turn>)
      requires db.Valid() && EachTurnWaits(db.Contents(), b, turns)
      modifies db
      ensures db.Valid() && db.Contents() == TableExec(old(db.Contents()), Turns(b, turns))
    {
      ghost var start := db.Contents();
      for i := 0 to |turns|
        invariant db.Valid() && db.Contents() == TableExec(start, Turns(b, turns[..i]))
      {
        PrefixWaits(start, b, turns, i + 1);
        assert turns[..i + 1] == turns[..i] + [turns[i]];
        TurnsOneMore(start, b, turns[..i], turns[i]);
        assert turns[..i + 1][..i] == turns[..i];
        db.ExecuteAll(turns[i].others);
        db.WriteHeartbeat(b.decisionId, b.attempt, b.stage, turns[i].delivered);
      }
      assert turns[..|turns|] == turns;
    }
  }

  // ----- a ticker nobody disturbs -----

  /** Ticks missed since the last delivered one. */
  function TrailingMisses(delivered: seq<bool>): nat {
    if delivered == [] || delivered[|delivered| - 1] then 0
    else 1 + TrailingMisses(delivered[..|delivered| - 1])
  }

  /** Only time passes, 15 seconds a turn. */
  function Undisturbed(from: Time, delivered: seq<bool>): seq<Turn> {
    if delivered == [] then []
    else Undisturbed(from, delivered[..|delivered| - 1])
         + [Turn([ClockMoves(from + |delivered| * HEARTBEAT_TICK_INTERVAL)], delivered[|delivered| - 1])]
  }

  predicate Fresh(t: Tables, b: Beater) {
    && b.decisionId in t.decisions && Owns(t.decisions[b.decisionId], b.attempt)
    && t.decisions[b.decisionId].lastHeartbeatAt == Some(t.now)
  }

  /** After these ticks the stored heartbeat is as old as the ticks missed since
      the last delivery, and nothing but it and the stage has changed. */
  predicate AgedByMisses(t: Tables, b: Beater, delivered: seq<bool>, v: Tables)
    requires b.decisionId in t.decisions
  {
    && v.now == t.now + |delivered| * HEARTBEAT_TICK_INTERVAL && v.jobs == t.jobs
    && b.decisionId in v.decisions
    && var d := v.decisions[b.decisionId];
    && d == t.decisions[b.decisionId].(lastHeartbeatAt := d.lastHeartbeatAt, stage := d.stage)
    && d.lastHeartbeatAt == Some(v.now - TrailingMisses(delivered) * HEARTBEAT_TICK_INTERVAL)
    && v.decisions == t.decisions[b.decisionId := d]
  }

  /** Undisturbed, the heartbeat is stale only past six misses in a row. */
  lemma HeartbeatAgesByMisses(t: Tables, b: Beater, delivered: seq<bool>)
    requires Fresh(t, b)
    ensures EachTurnWaits(t, b, Undisturbed(t.now, delivered))
    ensures var v := TableExec(t, Turns(b, Undisturbed(t.now, delivered)));
            && AgedByMisses(t, b, delivered, v)
            && (HeartbeatStale(v.decisions[b.decisionId], v.now) <==> TrailingMisses(delivered) > 6)
  {
    UndisturbedTurnsAge(t, b, delivered);
    AgedIsStaleIff(t, b, delivered, TableExec(t, Turns(b, Undisturbed(t.now, delivered))));
  }

  lemma AgedIsStaleIff(t: Tables, b: Beater, delivered: seq<bool>, v: Tables)
    requires Fresh(t, b) && AgedByMisses(t, b, delivered, v)
    ensures HeartbeatStale(v.decisions[b.decisionId], v.now) <==> TrailingMisses(delivered) > 6
  {}

  lemma {:induction false} UndisturbedTurnsAge(t: Tables, b: Beater, delivered: seq<bool>)
    requires Fresh(t, b)
    ensures EachTurnWaits(t, b, Undisturbed(t.now, delivered))
    ensures AgedByMisses(t, b, delivered, TableExec(t, Turns(b, Undisturbed(t.now, delivered))))
  {
    if delivered == [] {
      assert Turns(b, []) == [];
    } else {
      var front, n := delivered[..|delivered| - 1], |delivered|;
      var turn := Turn([ClockMoves(t.now + n * HEARTBEAT_TICK_INTERVAL)], delivered[n - 1]);
      var turns := Undisturbed(t.now, front);
      UndisturbedTurnsAge(t, b, front);
      OneTurnAges(t, b, delivered, TableExec(t, Turns(b, turns)), turn);
      WaitsOneMore(t, b, turns, turn);
      TurnsOneMore(t, b, turns, turn);
      assert Undisturbed(t.now, delivered) == turns + [turn];
    }
  }

  lemma WaitsOneMore(t: Tables, b: Beater, turns: seq<Turn>, turn: Turn)
    requires EachTurnWaits(t, b, turns) && ClockRunsForward(TableExec(t, Turns(b, turns)), turn.others)
    requires var before := TableExec(t, Turns(b, turns));
             before.now + HEARTBEAT_TICK_INTERVAL <= TableExec(before, turn.others).now
    ensures EachTurnWaits(t, b, turns + [turn])
  {
    assert (turns + [turn])[..|turns|] == turns;
  }

  lemma OneTurnAges(t: Tables, b: Beater, delivered: seq<bool>, v: Tables, turn: Turn)
    requires delivered != [] && Fresh(t, b) && AgedByMisses(t, b, delivered[..|delivered| - 1], v)
    requires turn == Turn([ClockMoves(t.now + |delivered| * HEARTBEAT_TICK_INTERVAL)], delivered[|delivered| - 1])
    ensures ClockRunsForward(v, turn.others)
    ensures TableExec(v, turn.others).now == v.now + HEARTBEAT_TICK_INTERVAL
    ensures AgedByMisses(t, b, delivered, TableStep(TableExec(v, turn.others), BeatOf(b, turn.delivered)))
  {
    OneTurnUndisturbed(v, b, turn, t.now + |delivered| * HEARTBEAT_TICK_INTERVAL);
  }

  lemma OneTurnUndisturbed(t: Tables, b: Beater, turn: Turn, to: Time)
    requires turn.others == [ClockMoves(to)] && t.now <= to
    requires b.decisionId in t.decisions && Owns(t.decisions[b.decisionId], b.attempt)
    ensures ClockRunsForward(t, turn.others) && TableExec(t, turn.others) == t.(now := to)
    ensures var d := t.decisions[b.decisionId];
            TableStep(TableExec(t, turn.others), BeatOf(b, turn.delivered))
            == Tables(to, t.decisions[b.decisionId := if turn.delivered then d.(lastHeartbeatAt := Some(to), stage := Some(b.stage)) else d], t.jobs)
  {
    assert turn.others[1..] == [];
  }

  // ----- a ticker whose attempt was replaced -----

  /** From the moment its attempt is replaced, by whomever and however, the
      ticker might as well not run: both tables go as they go without it. */
  lemma {:induction false} ReplacedTickerIsInert(t: Tables, b: Beater, turns: seq<Turn>, w: World)
    requires ReferencesHold(t) && Reachable(w) && w.now == t.now && w.c == CaseOf(t, b.decisionId)
    requires LegalRun(w, Seen(Turns(b, turns), b.decisionId))
    requires b.attempt in w.h.installed && Current(w.c) != Some(b.attempt)
    ensures TableExec(t, Turns(b, turns)) == TableExec(t, OthersOf(turns))
    decreases |turns|
  {
    if turns != [] {
      var front, last := turns[..|turns| - 1], turns[|turns| - 1];
      var before, beat := Turns(b, front) + last.others, BeatOf(b, last.delivered);
      LegalUpTo(b, front, last, w);
      ReplacedTickerIsInert(t, b, front, w);
      SupersededAttemptIsInertInTables(t, before, b.decisionId, w, b.attempt, beat.s);
      TableExecOneMore(t, before, beat);
      TableExecOfSum(t, Turns(b, front), last.others);
      TableExecOfSum(t, OthersOf(front), last.others);
    }
  }

  lemma LegalUpTo(b: Beater, front: seq<Turn>, last: Turn, w: World)
    requires LegalRun(w, Seen(Turns(b, front) + last.others + [BeatOf(b, last.delivered)], b.decisionId))
    ensures LegalRun(w, Seen(Turns(b, front), b.decisionId))
    ensures LegalRun(w, Seen(Turns(b, front) + last.others, b.decisionId))
  {
    var d := b.decisionId;
    SeenOfSum(Turns(b, front) + last.others, [BeatOf(b, last.delivered)], d);
    SeenOfSum(Turns(b, front), last.others, d);
    RunOfSum(w, Seen(Turns(b, front) + last.others, d), Seen([BeatOf(b, last.delivered)], d));
    RunOfSum(w, Seen(Turns(b, front), d), Seen(last.others, d));
  }

  lemma {:induction false} TurnsOfSum(b: Beater, first: seq<Turn>, later: seq<Turn>)
    ensures Turns(b, first + later) == Turns(b, first) + Turns(b, later)
    decreases |later|
  {
    if later == [] {
      assert first + later == first;
    } else {
      var front, last := later[..|later| - 1], later[|later| - 1];
      assert (first + later)[..|first + later| - 1] == first + front;
      TurnsOfSum(b, first, front);
    }
  }

  /** One loop in which the attempt is replaced after some turns: what follows is
      what would follow without the ticker. */
  lemma TickerStopsMatteringOnceReplaced(t: Tables, b: Beater, first: seq<Turn>, later: seq<Turn>, w: World)
    requires ReferencesHold(t) && Reachable(w) && w.now == t.now && w.c == CaseOf(t, b.decisionId)
    requires LegalRun(w, Seen(Turns(b, first + later), b.decisionId))
    requires b.attempt in Exec(w, Seen(Turns(b, first), b.decisionId)).h.installed
    requires Current(Exec(w, Seen(Turns(b, first), b.decisionId)).c) != Some(b.attempt)
    ensures TableExec(t, Turns(b, first + later)) == TableExec(TableExec(t, Turns(b, first)), OthersOf(later))
  {
    var d := b.decisionId;
    TurnsOfSum(b, first, later);
    SeenOfSum(Turns(b, first), Turns(b, later), d);
    RunOfSum(w, Seen(Turns(b, first), d), Seen(Turns(b, later), d));
    ReachableRun(w, Seen(Turns(b, first), d));
    EachCaseRunsAlone(t, Turns(b, first), d, w);
    ReferencesKept(t, Turns(b, first));
    ReplacedTickerIsInert(TableExec(t, Turns(b, first)), b, later, Exec(w, Seen(Turns(b, first), d)));
    TableExecOfSum(t, Turns(b, first), Turns(b, later));
  }

  lemma {:induction false} ReferencesKept(t: Tables, es: seq<TableEvent>)
    requires ReferencesHold(t)
    ensures ReferencesHold(TableExec(t, es))
    decreases |es|
  {
    if es != [] {
      if es[0].On? { StatementTouchesOneCase(t, es[0].d, es[0].s, es[0].d); }
      ReferencesKept(TableStep(t, es[0]), es[1..]);
    }
  }
}
