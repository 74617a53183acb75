/** The money figures of the commercial answer, in whole cents over exact
    amounts (app/pipeline/commercial_answer.py, app/pipeline/scenario_engine.py). */
module Cents {
  import opened Options
  import opened Rounding

  /** `round(x, 2)` of an amount, in cents. */
  function ToCents(amount: real): int { RoundHalfEven(amount * 100.0) }

  datatype Figures = Figures(annual: int, monthly: int)

  datatype Scenario = Scenario(before: Figures, after: Figures, difference: Figures)

  /** The headline: the monthly figure divides the annual one, already rounded. */
  function Headline(spend: real, percent: real): Figures {
    OfAnnual(ToCents(spend * percent / 100.0))
  }

  function OfAnnual(annual: int): Figures { Figures(annual, RoundHalfEven(annual as real / 12.0)) }

  /** The scenario read from the text: every figure is rounded on its own. */
  function FromText(spend: real, percent: real): Figures {
    Figures(ToCents(spend * percent / 100.0), ToCents(spend * percent / 1200.0))
  }

  function ExplicitPercentScenario(spend: Option<real>, stated: Option<(real, real)>): Option<Scenario> {
    if spend.None? || spend.value == 0.0 || stated.None? then None else
    var before, after := stated.value.0, stated.value.1;
    Some(Scenario(FromText(spend.value, before), FromText(spend.value, after), FromText(spend.value, before - after)))
  }

  /** The scenario the engine compares: the difference subtracts the rounded deltas. */
  function EngineScenario(spend: real, before: real, after: real): Scenario {
    var a, b := ToCents(spend * (before / 100.0)), ToCents(spend * (after / 100.0));
    Scenario(OfAnnual(a), OfAnnual(b), OfAnnual(a - b))
  }

  predicate Within(x: int, y: int, cents: nat) { x - y <= cents && y - x <= cents }

  /** Twelve months are within six cents of the year. */
  predicate MonthsMatchYear(f: Figures) { Within(12 * f.monthly, f.annual, 6) }

  /** The stated difference is within so many cents of the two figures' own. */
  predicate DifferenceMatches(s: Scenario, cents: nat) {
    && Within(s.difference.annual, s.before.annual - s.after.annual, cents)
    && Within(s.difference.monthly, s.before.monthly - s.after.monthly, 1)
  }

  /** A figure in cents is within half a cent of the amount it stands for. */
  predicate IsNearest(cents: int, exact: real) { -0.5 <= cents as real - exact <= 0.5 }

  /** The headline is spend times percent; its month is a twelfth of that figure. */
  lemma HeadlineIsTheProduct(spend: real, percent: real)
    ensures IsNearest(Headline(spend, percent).annual, spend * percent)
    ensures IsNearest(Headline(spend, percent).monthly, Headline(spend, percent).annual as real / 12.0)
  {
    assert spend * percent / 100.0 * 100.0 == spend * percent;
  }

  lemma TextFiguresAreTheProducts(spend: real, percent: real)
    ensures IsNearest(FromText(spend, percent).annual, spend * percent)
    ensures IsNearest(FromText(spend, percent).monthly, spend * percent / 12.0)
  {
    assert spend * percent / 100.0 * 100.0 == spend * percent;
    assert spend * percent / 1200.0 * 100.0 == spend * percent / 12.0;
  }

  /** There is a text scenario exactly with a spend and two stated percentages, and
      its figures are those of the first, the second and their difference. */
  lemma TextScenarioIs(spend: Option<real>, stated: Option<(real, real)>)
    ensures var s := ExplicitPercentScenario(spend, stated);
            && (s.Some? <==> spend.Some? && spend.value != 0.0 && stated.Some?)
            && (s.Some? ==>
                  && IsNearest(s.value.before.annual, spend.value * stated.value.0)
                  && IsNearest(s.value.before.monthly, spend.value * stated.value.0 / 12.0)
                  && IsNearest(s.value.after.annual, spend.value * stated.value.1)
                  && IsNearest(s.value.after.monthly, spend.value * stated.value.1 / 12.0)
                  && IsNearest(s.value.difference.annual, spend.value * (stated.value.0 - stated.value.1))
                  && IsNearest(s.value.difference.monthly, spend.value * (stated.value.0 - stated.value.1) / 12.0))
  {
    if ExplicitPercentScenario(spend, stated).Some? {
      TextFiguresAreTheProducts(spend.value, stated.value.0);
      TextFiguresAreTheProducts(spend.value, stated.value.1);
      TextFiguresAreTheProducts(spend.value, stated.value.0 - stated.value.1);
    }
  }

  /** The engine's figures: two rounded products, and the difference of these two. */
  lemma EngineScenarioIs(spend: real, before: real, after: real)
    ensures var s := EngineScenario(spend, before, after);
            && IsNearest(s.before.annual, spend * before) && IsNearest(s.before.monthly, s.before.annual as real / 12.0)
            && IsNearest(s.after.annual, spend * after) && IsNearest(s.after.monthly, s.after.annual as real / 12.0)
            && s.difference.annual == s.before.annual - s.after.annual
            && IsNearest(s.difference.monthly, s.difference.annual as real / 12.0)
  {
    PercentOf(spend, before);
    PercentOf(spend, after);
  }

  lemma PercentOf(spend: real, percent: real)
    ensures spend * (percent / 100.0) * 100.0 == spend * percent
  {
    assert percent / 100.0 * 100.0 == percent;
  }

  lemma HeadlineMonthsMatchYear(spend: real, percent: real)
    ensures MonthsMatchYear(Headline(spend, percent))
  {}

  /** Every figure of a text scenario, for every spend and pair of percentages. */
  lemma TextScenarioIsConsistent(spend: Option<real>, stated: Option<(real, real)>)
    ensures var s := ExplicitPercentScenario(spend, stated);
            s.Some? ==> MonthsMatchYear(s.value.before) && MonthsMatchYear(s.value.after)
                        && MonthsMatchYear(s.value.difference) && DifferenceMatches(s.value, 1)
  {}

  /** The engine's annual difference is exact; only its monthly one may be a cent off. */
  lemma EngineScenarioIsConsistent(spend: real, before: real, after: real)
    ensures var s := EngineScenario(spend, before, after);
            && MonthsMatchYear(s.before) && MonthsMatchYear(s.after) && MonthsMatchYear(s.difference)
            && DifferenceMatches(s, 0)
  {}

  /** Both bounds are reached: no smaller number of cents would do. */
  lemma BoundsAreReached()
    ensures 12 * OfAnnual(6).monthly - OfAnnual(6).annual == -6
    ensures var s := ExplicitPercentScenario(Some(0.5), Some((3.0, 1.0)));
            s.Some? && s.value.difference.annual == 1 && s.value.before.annual - s.value.after.annual == 2
  {}
}
