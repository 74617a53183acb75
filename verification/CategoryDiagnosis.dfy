/** The rows supplier classification starts from: each supplier's share of the
    category's spend (app/pipeline/category_strategy_profile.py:71-96). */
module CategoryDiagnosis {
  import opened Options
  import opened Rounding
  import opened CategoryStrategy
  import opened CategoryTheorems

  datatype Metric = AnnualSpend | SpendGrowth | OtherMetric(name: string)

  datatype Fact = Fact(entity: string, metric: Metric, value: Option<real>)

  const CATEGORY := "category"

  /** The value of the first fact of an entity and metric. */
  function FirstValue(facts: seq<Fact>, entity: string, metric: Metric): Option<real> {
    if facts == [] then None
    else if facts[0].entity == entity && facts[0].metric == metric then facts[0].value
    else FirstValue(facts[1..], entity, metric)
  }

  /** `round(spend / category * 100, 1)`; no share of a missing or zero category. */
  function Share(spend: Option<real>, category: Option<real>): Option<real> {
    if spend.None? || category.None? || category.value == 0.0 then None
    else Some(RoundHalfEven(spend.value / category.value * 1000.0) as real / 10.0)
  }

  function RowFor(facts: seq<Fact>, entity: string, show: real -> string): Row {
    var share := Share(FirstValue(facts, entity, AnnualSpend), FirstValue(facts, CATEGORY, AnnualSpend));
    Row(entity, if share.Some? then Some(Percent(share.value, show(share.value))) else None,
        FirstValue(facts, entity, SpendGrowth))
  }

  ghost predicate Names(facts: seq<Fact>, e: string) { exists f :: f in facts && f.entity == e }

  /** Each entity but the category itself, once. */
  ghost predicate ListsSuppliers(facts: seq<Fact>, entities: seq<string>) {
    && (forall i, j :: 0 <= i < j < |entities| ==> entities[i] != entities[j])
    && (forall e :: e in entities <==> e != CATEGORY && Names(facts, e))
  }

  lemma NamesOneMore(front: seq<Fact>, last: Fact, e: string)
    ensures Names(front + [last], e) <==> Names(front, e) || e == last.entity
  {
    if f :| f in front && f.entity == e { assert f in front + [last]; }
    if e == last.entity { assert last in front + [last]; }
  }

  /** The entities the facts name, each once and without the category. */
  method CollectSuppliers(facts: seq<Fact>) returns (entities: seq<string>)
    ensures ListsSuppliers(facts, entities)
  {
    entities := [];
    for n := 0 to |facts|
      invariant ListsSuppliers(facts[..n], entities)
    {
      var e := facts[n].entity;
      assert facts[..n + 1] == facts[..n] + [facts[n]];
      forall x ensures Names(facts[..n + 1], x) <==> Names(facts[..n], x) || x == e {
        NamesOneMore(facts[..n], facts[n], x);
      }
      if e != CATEGORY && e !in entities {
        entities := entities + [e];
      }
    }
    assert facts[..|facts|] == facts;
  }

  /** The supplier loop of `build_category_diagnosis`: every supplier a fact names
      has exactly one row, and the category has none. */
  method BuildRows(facts: seq<Fact>, show: real -> string) returns (rows: seq<Row>)
    ensures DistinctSuppliers(rows)
    ensures forall i :: 0 <= i < |rows| ==> rows[i].supplier != CATEGORY && rows[i] == RowFor(facts, rows[i].supplier, show)
    ensures forall f :: f in facts && f.entity != CATEGORY ==> RowFor(facts, f.entity, show) in rows
    ensures forall i :: 0 <= i < |rows| ==> Names(facts, rows[i].supplier)
  {
    var entities := CollectSuppliers(facts);
    rows := [];
    for n := 0 to |entities|
      invariant |rows| == n
      invariant forall i :: 0 <= i < n ==> rows[i] == RowFor(facts, entities[i], show)
    {
      rows := rows + [RowFor(facts, entities[n], show)];
    }
    forall i | 0 <= i < |rows| ensures rows[i].supplier != CATEGORY && Names(facts, rows[i].supplier) {
      assert entities[i] in entities;
    }
    forall f | f in facts && f.entity != CATEGORY ensures RowFor(facts, f.entity, show) in rows {
      assert Names(facts, f.entity);
      var i :| 0 <= i < |entities| && entities[i] == f.entity;
      assert rows[i] == RowFor(facts, f.entity, show);
    }
  }

  predicate IsAbout(f: Fact, entity: string, metric: Metric) { f.entity == entity && f.metric == metric }

  /** The value of the first fact of an entity and metric; none without such a fact. */
  ghost predicate IsFirstValue(facts: seq<Fact>, entity: string, metric: Metric, value: Option<real>) {
    if forall f :: f in facts ==> !IsAbout(f, entity, metric) then value == None else
    exists i :: 0 <= i < |facts| && IsAbout(facts[i], entity, metric) && facts[i].value == value
                && forall j :: 0 <= j < i ==> !IsAbout(facts[j], entity, metric)
  }

  lemma {:induction false} FirstValueIsFirst(facts: seq<Fact>, entity: string, metric: Metric)
    ensures IsFirstValue(facts, entity, metric, FirstValue(facts, entity, metric))
  {
    if facts != [] {
      var first, rest := facts[0], facts[1..];
      FirstValueIsFirst(rest, entity, metric);
      assert facts == [first] + rest;
      if IsAbout(first, entity, metric) {
        assert first in facts && facts[0] == first;
      } else if f :| f in rest && IsAbout(f, entity, metric) {
        var i :| 0 <= i < |rest| && IsAbout(rest[i], entity, metric) && rest[i].value == FirstValue(rest, entity, metric)
                 && forall j :: 0 <= j < i ==> !IsAbout(rest[j], entity, metric);
        assert facts[i + 1] == rest[i];
        assert f in facts;
      }
    }
  }

  lemma TenthsOf(ratio: real)
    ensures var share := RoundHalfEven(ratio * 1000.0) as real / 10.0;
            && (share * 10.0).Floor as real == share * 10.0 && -0.05 <= share - ratio * 100.0 <= 0.05
  {
    RoundsToNearestTiesToEven(ratio * 1000.0);
    var n := RoundHalfEven(ratio * 1000.0);
    assert n as real / 10.0 * 10.0 == n as real;
  }

  /** A row: the supplier's spend over the category's, in percent to the nearest
      tenth, and its own spend growth. */
  lemma RowIs(facts: seq<Fact>, entity: string, show: real -> string)
    ensures var row, spend, category := RowFor(facts, entity, show), FirstValue(facts, entity, AnnualSpend), FirstValue(facts, CATEGORY, AnnualSpend);
            && row.supplier == entity && row.growth == FirstValue(facts, entity, SpendGrowth)
            && (row.share.Some? <==> spend.Some? && category.Some? && category.value != 0.0)
            && (row.share.Some? ==>
                  && row.share.value.text == show(row.share.value.value)
                  && (row.share.value.value * 10.0).Floor as real == row.share.value.value * 10.0
                  && -0.05 <= row.share.value.value - spend.value / category.value * 100.0 <= 0.05)
  {
    var spend, category := FirstValue(facts, entity, AnnualSpend), FirstValue(facts, CATEGORY, AnnualSpend);
    if spend.Some? && category.Some? && category.value != 0.0 {
      TenthsOf(spend.value / category.value);
    }
  }

  lemma RoundsUpTo(x: real, even: int)
    requires even % 2 == 0
    ensures RoundHalfEven(x) >= even <==> x >= even as real - 0.5
  {}

  /** The thresholds of 50% and 25% are tested on the share rounded to one
      decimal, so each already trips at 49.95% and 24.95% of the category. */
  lemma ThresholdsTripEarly(facts: seq<Fact>, entity: string, show: real -> string)
    requires FirstValue(facts, entity, AnnualSpend).Some? && FirstValue(facts, CATEGORY, AnnualSpend).Some?
    requires FirstValue(facts, CATEGORY, AnnualSpend).value != 0.0
    ensures var ratio := FirstValue(facts, entity, AnnualSpend).value / FirstValue(facts, CATEGORY, AnnualSpend).value;
            && (ShareAtLeast(RowFor(facts, entity, show), 50.0) <==> ratio >= 0.4995)
            && (ShareAtLeast(RowFor(facts, entity, show), 25.0) <==> ratio >= 0.2495)
  {
    var x := FirstValue(facts, entity, AnnualSpend).value / FirstValue(facts, CATEGORY, AnnualSpend).value * 1000.0;
    RoundsUpTo(x, 500);
    RoundsUpTo(x, 250);
  }
}
