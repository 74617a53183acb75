/** The decision state over the facts themselves: which fact of the list each
    figure is taken from, and what the three states then amount to. */
module SignalFacts {
  import opened Options
  import opened Signal
  import opened SignalTheorems

  // ----- which fact is read -----

  predicate IsChange(f: Fact, metric: Metric) { f.calculated && f.metric == metric }

  predicate IsFigure(f: Fact, metric: Metric) { f.calculated && f.metric == metric && f.entity == "category" }

  predicate IsSpend(f: Fact) { f.entity == "category" && f.metric == AnnualSpend }

  /** The first calculated fact of a metric, of whatever entity. */
  ghost predicate IsFirstChange(facts: seq<Fact>, metric: Metric, change: Option<Fact>) {
    match change
    case None => forall i :: 0 <= i < |facts| ==> !IsChange(facts[i], metric)
    case Some(f) => exists i :: 0 <= i < |facts| && facts[i] == f && IsChange(f, metric) && forall j :: 0 <= j < i ==> !IsChange(facts[j], metric)
  }

  lemma {:induction false} FirstCalculatedIsFirst(facts: seq<Fact>, metric: Metric)
    ensures IsFirstChange(facts, metric, FirstCalculated(facts, metric))
  {
    if facts != [] && !IsChange(facts[0], metric) {
      var rest, found := facts[1..], FirstCalculated(facts, metric);
      FirstCalculatedIsFirst(rest, metric);
      assert forall i :: 0 < i < |facts| ==> facts[i] == rest[i - 1];
      if found.Some? {
        var i :| 0 <= i < |rest| && rest[i] == found.value && forall j :: 0 <= j < i ==> !IsChange(rest[j], metric);
        assert facts[i + 1] == found.value;
      }
    }
  }

  /** The value of the last calculated category fact of a metric. */
  ghost predicate IsCategoryFigure(facts: seq<Fact>, metric: Metric, figure: Option<real>) {
    match figure
    case None => forall i :: 0 <= i < |facts| ==> !IsFigure(facts[i], metric)
    case Some(x) => exists i :: 0 <= i < |facts| && IsFigure(facts[i], metric) && facts[i].value == x
                      && forall j :: i < j < |facts| ==> !IsFigure(facts[j], metric)
  }

  lemma {:induction false} CategoryFigureIsLast(facts: seq<Fact>, metric: Metric)
    ensures IsCategoryFigure(facts, metric, CategoryFigure(facts, metric))
  {
    if facts != [] {
      var front, last := facts[..|facts| - 1], facts[|facts| - 1];
      CategoryFigureIsLast(front, metric);
      assert facts == front + [last];
      OneMoreFigure(front, last, metric, CategoryFigure(front, metric));
    }
  }

  lemma OneMoreFigure(front: seq<Fact>, last: Fact, metric: Metric, figure: Option<real>)
    requires IsCategoryFigure(front, metric, figure)
    ensures IsCategoryFigure(front + [last], metric, if IsFigure(last, metric) then Some(last.value) else figure)
  {
    var facts := front + [last];
    if IsFigure(last, metric) {
      assert facts[|front|] == last;
    } else if figure.Some? {
      var i :| 0 <= i < |front| && IsFigure(front[i], metric) && front[i].value == figure.value
               && forall j :: i < j < |front| ==> !IsFigure(front[j], metric);
      assert facts[i] == front[i];
    }
  }

  /** The first spend figure of the category, calculated or not. */
  ghost predicate IsCategorySpend(facts: seq<Fact>, spend: Option<real>) {
    match spend
    case None => forall i :: 0 <= i < |facts| ==> !IsSpend(facts[i])
    case Some(x) => exists i :: 0 <= i < |facts| && IsSpend(facts[i]) && facts[i].value == x && forall j :: 0 <= j < i ==> !IsSpend(facts[j])
  }

  lemma {:induction false} FirstCategorySpendIsFirst(facts: seq<Fact>)
    ensures IsCategorySpend(facts, FirstCategorySpend(facts))
  {
    if facts != [] && !IsSpend(facts[0]) {
      var rest := facts[1..];
      FirstCategorySpendIsFirst(rest);
      assert forall i :: 0 < i < |facts| ==> facts[i] == rest[i - 1];
      if FirstCategorySpend(facts).Some? {
        var i :| 0 <= i < |rest| && IsSpend(rest[i]) && rest[i].value == FirstCategorySpend(facts).value
                 && forall j :: 0 <= j < i ==> !IsSpend(rest[j]);
        assert IsSpend(facts[i + 1]);
      }
    }
  }

  /** What is read of a case. */
  lemma PictureIs(c: SignalCase)
    ensures var p := Read(c);
            && IsCategoryFigure(c.facts, SpendGrowthPercent, p.spendGrowth)
            && IsCategoryFigure(c.facts, VolumeGrowthPercent, p.volumeGrowth)
            && IsCategoryFigure(c.facts, UnitPriceGrowthPercent, p.unitPriceGrowth)
            && IsFirstChange(c.facts, OtifChangePp, p.otif)
            && IsFirstChange(c.facts, DefectRateChangePp, p.defect)
            && IsFirstChange(c.facts, SpendShareChangePp, p.share)
            && IsCategorySpend(c.facts, p.currentSpend)
            && p.specChanged == c.specChanged && p.text == c.text
  {
    CategoryFigureIsLast(c.facts, SpendGrowthPercent);
    CategoryFigureIsLast(c.facts, VolumeGrowthPercent);
    CategoryFigureIsLast(c.facts, UnitPriceGrowthPercent);
    FirstCalculatedIsFirst(c.facts, OtifChangePp);
    FirstCalculatedIsFirst(c.facts, DefectRateChangePp);
    FirstCalculatedIsFirst(c.facts, SpendShareChangePp);
    FirstCategorySpendIsFirst(c.facts);
  }

  // ----- the states over the figures -----

  // The figures a case's facts give, and what its text states.
  datatype Figures = Figures(
    spend: Option<real>, volume: Option<real>, price: Option<real>,
    otif: Option<Fact>, defect: Option<Fact>, share: Option<Fact>)

  ghost predicate AreFigures(facts: seq<Fact>, g: Figures) {
    && IsCategoryFigure(facts, SpendGrowthPercent, g.spend)
    && IsCategoryFigure(facts, VolumeGrowthPercent, g.volume)
    && IsCategoryFigure(facts, UnitPriceGrowthPercent, g.price)
    && IsFirstChange(facts, OtifChangePp, g.otif)
    && IsFirstChange(facts, DefectRateChangePp, g.defect)
    && IsFirstChange(facts, SpendShareChangePp, g.share)
  }

  lemma FirstChangeIsUnique(facts: seq<Fact>, metric: Metric, a: Option<Fact>, b: Option<Fact>)
    requires IsFirstChange(facts, metric, a) && IsFirstChange(facts, metric, b)
    ensures a == b
  {}

  lemma CategoryFigureIsUnique(facts: seq<Fact>, metric: Metric, a: Option<real>, b: Option<real>)
    requires IsCategoryFigure(facts, metric, a) && IsCategoryFigure(facts, metric, b)
    ensures a == b
  {}

  lemma FiguresAreRead(c: SignalCase, g: Figures)
    requires AreFigures(c.facts, g)
    ensures var p := Read(c); g == Figures(p.spendGrowth, p.volumeGrowth, p.unitPriceGrowth, p.otif, p.defect, p.share)
  {
    PictureIs(c);
    var p := Read(c);
    CategoryFigureIsUnique(c.facts, SpendGrowthPercent, g.spend, p.spendGrowth);
    CategoryFigureIsUnique(c.facts, VolumeGrowthPercent, g.volume, p.volumeGrowth);
    CategoryFigureIsUnique(c.facts, UnitPriceGrowthPercent, g.price, p.unitPriceGrowth);
    FirstChangeIsUnique(c.facts, OtifChangePp, g.otif, p.otif);
    FirstChangeIsUnique(c.facts, DefectRateChangePp, g.defect, p.defect);
    FirstChangeIsUnique(c.facts, SpendShareChangePp, g.share, p.share);
  }

  /** The stated text denies a calculated price or delivery movement; price growth
      counts only beside spend and volume growth. */
  predicate TextContradicts(g: Figures, text: StatedText) { TextContradictsPrice(g, text) || TextContradictsOtif(g, text) }

  predicate TextContradictsPrice(g: Figures, text: StatedText) {
    && g.spend.Some? && g.volume.Some? && g.price.Some?
    && ((text.claimsPriceIncrease && g.price.value <= 0.0) || (text.claimsPriceDecrease && g.price.value > 0.0))
  }

  predicate TextContradictsOtif(g: Figures, text: StatedText) {
    && g.otif.Some?
    && ((text.claimsOtifImproved && g.otif.value.value < 0.0) || (text.claimsOtifDeclined && g.otif.value.value > 0.0))
  }

  /** Delivery falls, defects or a supplier's share rise, or the market diverges. */
  predicate SomethingMoves(g: Figures, text: StatedText) {
    || (g.otif.Some? && g.otif.value.value < 0.0)
    || (g.defect.Some? && g.defect.value.value > 0.0)
    || (g.share.Some? && g.share.value.value > 0.0)
    || text.marketDiverges
  }

  predicate SpendOutgrowsVolume(g: Figures) { g.spend.Some? && g.volume.Some? && g.spend.value > g.volume.value }

  lemma ContradictionsOf(p: Picture)
    ensures PriceClaim in Contradictions(p) <==> PriceClaimContradicted(p)
    ensures OtifClaim in Contradictions(p) <==> OtifClaimContradicted(p)
    ensures Contradictions(p) != [] <==> PriceClaimContradicted(p) || OtifClaimContradicted(p)
  {}

  lemma ContradictionsAre(c: SignalCase, g: Figures)
    requires AreFigures(c.facts, g)
    ensures NoContradiction(Read(c)) <==> !TextContradicts(g, c.text)
    ensures Answer(c).contradictions != [] <==> TextContradicts(g, c.text)
    ensures PriceClaim in Answer(c).contradictions <==> TextContradictsPrice(g, c.text)
    ensures OtifClaim in Answer(c).contradictions <==> TextContradictsOtif(g, c.text)
  {
    FiguresAreRead(c, g);
    ContradictionsOf(Read(c));
    ClaimsAre(Read(c), g);
  }

  lemma ClaimsAre(p: Picture, g: Figures)
    requires g == Figures(p.spendGrowth, p.volumeGrowth, p.unitPriceGrowth, p.otif, p.defect, p.share)
    ensures PriceClaimContradicted(p) <==> TextContradictsPrice(g, p.text)
    ensures OtifClaimContradicted(p) <==> TextContradictsOtif(g, p.text)
  {}

  lemma QuietIs(c: SignalCase, g: Figures)
    requires AreFigures(c.facts, g)
    ensures Quiet(Read(c)) <==> !SomethingMoves(g, c.text) && !SpendOutgrowsVolume(g)
  {
    FiguresAreRead(c, g);
  }

  lemma SettledIs(c: SignalCase, g: Figures)
    requires AreFigures(c.facts, g)
    ensures SignalTheorems.Settled(Read(c)) <==>
            SpendOutgrowsVolume(g) && g.price.Some? && g.price.value > 0.0 && !c.specChanged && !SomethingMoves(g, c.text)
  {
    FiguresAreRead(c, g);
  }

  /** The decision state over the facts: WATCH when nothing is contradicted and
      nothing moves, ACT_NOW when nothing is contradicted and spend outgrows volume
      for a rising price and no other reason, INVESTIGATE otherwise. */
  lemma StateIs(c: SignalCase, g: Figures)
    requires AreFigures(c.facts, g)
    ensures Answer(c).state ==
            if TextContradicts(g, c.text) then Investigate
            else if !SomethingMoves(g, c.text) && !SpendOutgrowsVolume(g) then Watch
            else if !SomethingMoves(g, c.text) && g.price.Some? && g.price.value > 0.0 && !c.specChanged then ActNow
            else Investigate
  {
    ActNowIff(c);
    WatchIff(c);
    ContradictionsAre(c, g);
    QuietIs(c, g);
    SettledIs(c, g);
  }

  /** Every case has such figures, so the state is always that. */
  lemma FiguresExist(c: SignalCase) returns (g: Figures)
    ensures AreFigures(c.facts, g)
  {
    PictureIs(c);
    var p := Read(c);
    g := Figures(p.spendGrowth, p.volumeGrowth, p.unitPriceGrowth, p.otif, p.defect, p.share);
  }

  // ----- the dimensions -----

  /** What a listed dimension says: the entity and the size of the movement. */
  ghost predicate IsDimension(c: SignalCase, g: Figures, d: Dimension) {
    match d.kind
    case Otif => g.otif.Some? && d.entity == g.otif.value.entity && d.delta == g.otif.value.value
    case Defect => g.defect.Some? && d.entity == g.defect.value.entity && d.delta == g.defect.value.value
    case Concentration => g.share.Some? && d.entity == g.share.value.entity && d.delta == g.share.value.value
    case SpecChange => c.specChanged && d.entity == "" && d.delta == 0.0
    case MarketDivergence => c.text.marketDiverges && d.entity == "" && d.delta == 0.0
    case SpendVolume => g.spend.Some? && g.volume.Some? && d.entity == "category" && d.delta == g.spend.value - g.volume.value
    case SpendOnly => g.spend.Some? && g.volume.None? && g.spend.value != 0.0 && d.entity == "category" && d.delta == g.spend.value
  }

  lemma DimensionIff(c: SignalCase, g: Figures, d: Dimension)
    requires AreFigures(c.facts, g)
    ensures d in Answer(c).dimensions <==> IsDimension(c, g, d)
  {
    FiguresAreRead(c, g);
    var p := Read(c);
    DimensionsComeFrom(p, d);
    ChangeIs(Otif, p.otif, d);
    ChangeIs(Defect, p.defect, d);
    ChangeIs(Concentration, p.share, d);
    FlagIs(SpecChange, p.specChanged, d);
    FlagIs(MarketDivergence, p.text.marketDiverges, d);
    CostIs(p, d);
    match d.kind {
      case Otif =>
      case Defect =>
      case Concentration =>
      case SpecChange =>
      case MarketDivergence =>
      case SpendVolume =>
      case SpendOnly =>
    }
  }

  ghost predicate InSomePart(p: Picture, d: Dimension) {
    || d in ChangeDimension(Otif, p.otif) || d in ChangeDimension(Defect, p.defect) || d in ChangeDimension(Concentration, p.share)
    || d in FlagDimension(SpecChange, p.specChanged) || d in FlagDimension(MarketDivergence, p.text.marketDiverges)
    || d in CostDimension(p)
  }

  lemma DimensionsComeFrom(p: Picture, d: Dimension)
    ensures d in Dimensions(p) <==> InSomePart(p, d)
  {
    var a, b, c := ChangeDimension(Otif, p.otif), ChangeDimension(Defect, p.defect), ChangeDimension(Concentration, p.share);
    var e, f, g := FlagDimension(SpecChange, p.specChanged), FlagDimension(MarketDivergence, p.text.marketDiverges), CostDimension(p);
    assert Dimensions(p) == a + b + c + e + f + g;
    DimensionComesFrom(a, b, c, e, f, g, d);
  }

  lemma ChangeIs(kind: Kind, change: Option<Fact>, d: Dimension)
    ensures d in ChangeDimension(kind, change) <==> change.Some? && d == Dimension(kind, change.value.entity, change.value.value)
  {}

  lemma FlagIs(kind: Kind, present: bool, d: Dimension)
    ensures d in FlagDimension(kind, present) <==> present && d == Dimension(kind, "", 0.0)
  {}

  lemma CostIs(p: Picture, d: Dimension)
    ensures d in CostDimension(p) <==>
            || (p.spendGrowth.Some? && p.volumeGrowth.Some? && d == Dimension(SpendVolume, "category", p.spendGrowth.value - p.volumeGrowth.value))
            || (p.spendGrowth.Some? && p.volumeGrowth.None? && p.spendGrowth.value != 0.0 && d == Dimension(SpendOnly, "category", p.spendGrowth.value))
  {}

  lemma DimensionComesFrom(a: seq<Dimension>, b: seq<Dimension>, c: seq<Dimension>, e: seq<Dimension>, f: seq<Dimension>,
                           g: seq<Dimension>, d: Dimension)
    ensures d in a + b + c + e + f + g <==> d in a || d in b || d in c || d in e || d in f || d in g
  {}

  // ----- the hypotheses -----

  predicate CostMoves(g: Figures) { g.spend.Some? && (g.volume.Some? || g.spend.value != 0.0) }

  /** The price hypothesis: supported or not by the price growth, and unknown, so
      that everything waits for it, without. */
  predicate IsPriceHypothesis(g: Figures, h: Hypothesis) {
    && g.spend.Some? && g.volume.Some?
    && h == if g.price.None? then Hypothesis(PriceIncreased, Unknown, SpendVolume, false, true)
            else Hypothesis(PriceIncreased, if g.price.value > 0.0 then Supported else NotSupported, SpendVolume, false, false)
  }

  /** The specification hypothesis: partly supported beside a cost movement. */
  predicate IsSpecificationHypothesis(c: SignalCase, g: Figures, h: Hypothesis) {
    || (c.specChanged && h == Hypothesis(SpecificationExplains, if CostMoves(g) then PartiallySupported else Unknown, SpecChange, false, false))
    || (!c.specChanged && CostMoves(g) && h == Hypothesis(SpecificationExplains, NotSupported, SpendVolume, false, false))
  }

  /** Two that can be asked of every movement, and a third of spend against volume. */
  predicate IsGenericHypothesis(c: SignalCase, g: Figures, h: Hypothesis) {
    && h.generic && h.status == Unknown && !h.gatesOthers
    && (h.explanation == OneOffEvent || h.explanation == DataError || (h.explanation == MixShift && h.dimension == SpendVolume))
    && match h.dimension
       case SpendVolume => g.spend.Some? && g.volume.Some?
       case Otif => g.otif.Some?
       case Defect => g.defect.Some?
       case Concentration => g.share.Some?
       case SpecChange => c.specChanged
       case MarketDivergence => c.text.marketDiverges
       case SpendOnly => false
  }

  /** Exactly these hypotheses are listed. */
  lemma HypothesisIff(c: SignalCase, g: Figures, h: Hypothesis)
    requires AreFigures(c.facts, g)
    ensures h in Answer(c).hypotheses <==>
            IsPriceHypothesis(g, h) || IsSpecificationHypothesis(c, g, h) || IsGenericHypothesis(c, g, h)
  {
    FiguresAreRead(c, g);
    var p := Read(c);
    OwnHypothesisIff(c, p, g, h);
    SpecificationHypothesisIff(c, p, g, h);
    OtherHypothesisIff(c, p, g, h);
    HypothesisOfSum(SpendVolumeHypotheses(p), SpecificationHypotheses(p), OtherHypotheses(Dimensions(p)), h);
  }

  lemma HypothesisOfSum(a: seq<Hypothesis>, b: seq<Hypothesis>, c: seq<Hypothesis>, h: Hypothesis)
    ensures h in a + b + c <==> h in a || h in b || h in c
  {}

  lemma OwnHypothesisIff(c: SignalCase, p: Picture, g: Figures, h: Hypothesis)
    requires g == Figures(p.spendGrowth, p.volumeGrowth, p.unitPriceGrowth, p.otif, p.defect, p.share)
    ensures h in SpendVolumeHypotheses(p) <==> IsPriceHypothesis(g, h) || (h.dimension == SpendVolume && IsGenericHypothesis(c, g, h))
  {}

  lemma SpecificationHypothesisIff(c: SignalCase, p: Picture, g: Figures, h: Hypothesis)
    requires g == Figures(p.spendGrowth, p.volumeGrowth, p.unitPriceGrowth, p.otif, p.defect, p.share) && p.specChanged == c.specChanged
    ensures h in SpecificationHypotheses(p) <==> IsSpecificationHypothesis(c, g, h)
  {}

  lemma OtherHypothesisIff(c: SignalCase, p: Picture, g: Figures, h: Hypothesis)
    requires g == Figures(p.spendGrowth, p.volumeGrowth, p.unitPriceGrowth, p.otif, p.defect, p.share)
    requires p.specChanged == c.specChanged && p.text == c.text
    ensures h in OtherHypotheses(Dimensions(p)) <==> h.dimension != SpendVolume && IsGenericHypothesis(c, g, h)
  {
    OtherHypothesesAre(Dimensions(p), h);
    if GetsGenericPair(h.dimension) {
      DimensionsPresent(p, h.dimension);
      PairIff(h);
    }
  }

  lemma PairIff(h: Hypothesis)
    ensures h in GenericPair(h.dimension) <==>
            h.generic && h.status == Unknown && !h.gatesOthers && (h.explanation == OneOffEvent || h.explanation == DataError)
  {}

  // ----- the movement in money -----

  /** The dollar impact is what the spend has grown by: today's spend less the one
      that, grown by the stated percentage, gives today's.  It is unknown exactly
      without one of the two figures or when nothing of the earlier spend is left. */
  lemma ScenarioImpactIs(p: Picture, before: real)
    ensures ScenarioImpact(p).None? <==> p.currentSpend.None? || p.spendGrowth.None? || p.spendGrowth.value == -100.0
    ensures ScenarioImpact(p).Some? ==>
              (ScenarioImpact(p).value == p.currentSpend.value - before
               <==> before + before * p.spendGrowth.value / 100.0 == p.currentSpend.value)
  {
    if ScenarioImpact(p).Some? {
      var factor := 1.0 + p.spendGrowth.value / 100.0;
      assert before + before * p.spendGrowth.value / 100.0 == before * factor;
      QuotientIff(p.currentSpend.value, factor, before);
    }
  }

  lemma QuotientIff(a: real, b: real, q: real)
    requires b != 0.0
    ensures a / b == q <==> q * b == a
  {}
}
