/** The commercial-signal decision engine
    (app/pipeline/commercial_signal_profile.py): dimensions, materiality,
    competing hypotheses, contradictions, the ranked first investigation and the
    decision state.  Phrase tests on the stated text enter as flags. */
module Signal {
  import opened Options

  datatype Metric =
    | AnnualSpend | SpendGrowthPercent | VolumeGrowthPercent | UnitPriceGrowthPercent
    | OtifChangePp | DefectRateChangePp | SpendShareChangePp
    | OtherMetric(name: string)

  datatype Fact = Fact(entity: string, metric: Metric, value: real, calculated: bool)

  const CATEGORY: string := "category"

  datatype StatedText = StatedText(
    marketDiverges: bool,
    claimsPriceIncrease: bool,
    claimsPriceDecrease: bool,
    claimsOtifImproved: bool,
    claimsOtifDeclined: bool)

  datatype SignalCase = SignalCase(facts: seq<Fact>, specChanged: bool, text: StatedText)

  datatype Kind = Otif | Defect | Concentration | SpecChange | MarketDivergence | SpendVolume | SpendOnly

  datatype Dimension = Dimension(kind: Kind, entity: string, delta: real)

  datatype Status = Supported | NotSupported | PartiallySupported | Unknown

  datatype Explanation = PriceIncreased | MixShift | SpecificationExplains | OneOffEvent | DataError

  datatype Hypothesis = Hypothesis(
    explanation: Explanation, status: Status, dimension: Kind, generic: bool, gatesOthers: bool)

  datatype Contradiction = PriceClaim | OtifClaim

  datatype DecisionState = ActNow | Investigate | Watch

  datatype Advice =
    | NoAdvice
    | SufficientToAct
    | NotYetMaterial
    | MonitorRemaining
    | SplitPriceMixVolume
    | Resolve(h: Hypothesis)

  datatype SignalAnswer = SignalAnswer(
    dimensions: seq<Dimension>,
    hypotheses: seq<Hypothesis>,
    contradictions: seq<Contradiction>,
    state: DecisionState,
    advice: Advice)

  // ----- reading the facts -----

  /** A dictionary built from the calculated category facts: the last one wins. */
  function CategoryFigure(facts: seq<Fact>, metric: Metric): Option<real> {
    if facts == [] then None
    else
      var f := facts[|facts| - 1];
      if f.calculated && f.entity == CATEGORY && f.metric == metric then Some(f.value)
      else CategoryFigure(facts[..|facts| - 1], metric)
  }

  /** Every other reader takes the first matching fact. */
  function FirstCalculated(facts: seq<Fact>, metric: Metric): Option<Fact> {
    if facts == [] then None
    else if facts[0].calculated && facts[0].metric == metric then Some(facts[0])
    else FirstCalculated(facts[1..], metric)
  }

  function FirstCategorySpend(facts: seq<Fact>): Option<real> {
    if facts == [] then None
    else if facts[0].entity == CATEGORY && facts[0].metric == AnnualSpend then Some(facts[0].value)
    else FirstCategorySpend(facts[1..])
  }

  // What the function reads out of a case before it reasons.
  datatype Picture = Picture(
    spendGrowth: Option<real>,
    volumeGrowth: Option<real>,
    unitPriceGrowth: Option<real>,
    otif: Option<Fact>,
    defect: Option<Fact>,
    share: Option<Fact>,
    currentSpend: Option<real>,
    specChanged: bool,
    text: StatedText)

  function Read(c: SignalCase): Picture {
    Picture(
      CategoryFigure(c.facts, SpendGrowthPercent),
      CategoryFigure(c.facts, VolumeGrowthPercent),
      CategoryFigure(c.facts, UnitPriceGrowthPercent),
      FirstCalculated(c.facts, OtifChangePp),
      FirstCalculated(c.facts, DefectRateChangePp),
      FirstCalculated(c.facts, SpendShareChangePp),
      FirstCategorySpend(c.facts),
      c.specChanged,
      c.text)
  }

  predicate HasSpendAndVolume(p: Picture) {
    p.spendGrowth.Some? && p.volumeGrowth.Some?
  }

  function PriceGrowth(p: Picture): Option<real> {
    if HasSpendAndVolume(p) then p.unitPriceGrowth else None
  }

  predicate HasSpendOnly(p: Picture) {
    !HasSpendAndVolume(p) && p.spendGrowth.Some? && p.spendGrowth.value != 0.0
  }

  predicate HasCostMovement(p: Picture) {
    HasSpendAndVolume(p) || HasSpendOnly(p)
  }

  // ----- dimensions and materiality -----

  function ChangeDimension(kind: Kind, change: Option<Fact>): seq<Dimension> {
    if change.Some? then [Dimension(kind, change.value.entity, change.value.value)] else []
  }

  function FlagDimension(kind: Kind, present: bool): seq<Dimension> {
    if present then [Dimension(kind, "", 0.0)] else []
  }

  function CostDimension(p: Picture): seq<Dimension> {
    if HasSpendAndVolume(p) then [Dimension(SpendVolume, CATEGORY, p.spendGrowth.value - p.volumeGrowth.value)]
    else if HasSpendOnly(p) then [Dimension(SpendOnly, CATEGORY, p.spendGrowth.value)]
    else []
  }

  function Dimensions(p: Picture): seq<Dimension> {
    ChangeDimension(Otif, p.otif)
    + ChangeDimension(Defect, p.defect)
    + ChangeDimension(Concentration, p.share)
    + FlagDimension(SpecChange, p.specChanged)
    + FlagDimension(MarketDivergence, p.text.marketDiverges)
    + CostDimension(p)
  }

  predicate Material(p: Picture, kind: Kind) {
    match kind
    case Otif => p.otif.Some? && p.otif.value.value < 0.0
    case Defect => p.defect.Some? && p.defect.value.value > 0.0
    case Concentration => p.share.Some? && p.share.value.value > 0.0
    case SpendVolume => HasSpendAndVolume(p) && p.spendGrowth.value > p.volumeGrowth.value
    case MarketDivergence => p.text.marketDiverges
    case SpecChange => false
    case SpendOnly => false
  }

  predicate AnyMaterial(p: Picture) {
    || Material(p, Otif) || Material(p, Defect) || Material(p, Concentration)
    || Material(p, SpendVolume) || Material(p, MarketDivergence)
  }

  /** The absolute dollar change implied by current spend and its growth. */
  function ScenarioImpact(p: Picture): Option<real> {
    var spend, growth := p.currentSpend, p.spendGrowth;
    if spend.Some? && growth.Some? && growth.value != -100.0
    then Some(spend.value - spend.value / (1.0 + growth.value / 100.0))
    else None
  }

  // ----- hypotheses -----

  function GenericPair(kind: Kind): seq<Hypothesis> {
    [Hypothesis(OneOffEvent, Unknown, kind, true, false), Hypothesis(DataError, Unknown, kind, true, false)]
  }

  function SpendVolumeHypotheses(p: Picture): seq<Hypothesis> {
    if !HasSpendAndVolume(p) then [] else
    [match PriceGrowth(p)
     case Some(growth) =>
       Hypothesis(PriceIncreased, if growth > 0.0 then Supported else NotSupported, SpendVolume, false, false)
     case None => Hypothesis(PriceIncreased, Unknown, SpendVolume, false, true),
     Hypothesis(MixShift, Unknown, SpendVolume, true, false)]
    + GenericPair(SpendVolume)
  }

  function SpecificationHypotheses(p: Picture): seq<Hypothesis> {
    if p.specChanged then
      [Hypothesis(SpecificationExplains, if HasCostMovement(p) then PartiallySupported else Unknown,
                  SpecChange, false, false)]
    else if HasCostMovement(p) then
      [Hypothesis(SpecificationExplains, NotSupported, SpendVolume, false, false)]
    else []
  }

  predicate GetsGenericPair(kind: Kind) {
    kind.Otif? || kind.Defect? || kind.Concentration? || kind.SpecChange? || kind.MarketDivergence?
  }

  function OtherHypotheses(dims: seq<Dimension>): seq<Hypothesis> {
    if dims == [] then []
    else OtherHypotheses(dims[..|dims| - 1])
         + (if GetsGenericPair(dims[|dims| - 1].kind) then GenericPair(dims[|dims| - 1].kind) else [])
  }

  function Hypotheses(p: Picture): seq<Hypothesis> {
    SpendVolumeHypotheses(p) + SpecificationHypotheses(p) + OtherHypotheses(Dimensions(p))
  }

  // ----- contradictions -----

  predicate PriceClaimContradicted(p: Picture) {
    && PriceGrowth(p).Some?
    && (if PriceGrowth(p).value <= 0.0 then p.text.claimsPriceIncrease else p.text.claimsPriceDecrease)
  }

  predicate OtifClaimContradicted(p: Picture) {
    && p.otif.Some?
    && ((p.otif.value.value < 0.0 && p.text.claimsOtifImproved)
        || (p.otif.value.value > 0.0 && p.text.claimsOtifDeclined))
  }

  function Contradictions(p: Picture): seq<Contradiction> {
    (if PriceClaimContradicted(p) then [PriceClaim] else [])
    + (if OtifClaimContradicted(p) then [OtifClaim] else [])
  }

  // ----- decision relevance and ranking -----

  predicate Explained(hs: seq<Hypothesis>, kind: Kind) {
    exists k :: 0 <= k < |hs| && hs[k].dimension == kind && !hs[k].generic
                && (hs[k].status.Supported? || hs[k].status.PartiallySupported?)
  }

  predicate DecisionRelevant(p: Picture, hs: seq<Hypothesis>, h: Hypothesis) {
    || h.gatesOthers
    || h.status.PartiallySupported?
    || (!Explained(hs, h.dimension) && Material(p, h.dimension))
  }

  predicate IsUnresolved(p: Picture, hs: seq<Hypothesis>, h: Hypothesis) {
    (h.status.Unknown? || h.status.PartiallySupported?) && DecisionRelevant(p, hs, h)
  }

  function Unresolved(p: Picture, hs: seq<Hypothesis>, among: seq<Hypothesis>): seq<Hypothesis> {
    if among == [] then []
    else Unresolved(p, hs, among[..|among| - 1])
         + (if IsUnresolved(p, hs, among[|among| - 1]) then [among[|among| - 1]] else [])
  }

  function Abs(x: real): real { if x < 0.0 then -x else x }

  function Magnitude(p: Picture, kind: Kind): real {
    match kind
    case Otif => if p.otif.Some? then Abs(p.otif.value.value) else 0.0
    case Defect => if p.defect.Some? then Abs(p.defect.value.value) else 0.0
    case Concentration => if p.share.Some? then Abs(p.share.value.value) else 0.0
    case SpendVolume => if HasSpendAndVolume(p) then Abs(p.spendGrowth.value - p.volumeGrowth.value) else 0.0
    case _ => 0.0
  }

  datatype Rank = Rank(feasibility: nat, tier: nat, size: real, status: nat)

  function RankOf(p: Picture, h: Hypothesis): Rank {
    var impact: (nat, real) :=
      if h.gatesOthers then (0, 0.0)
      else if h.dimension.SpendVolume? && ScenarioImpact(p).Some? && Material(p, SpendVolume)
      then (1, Abs(ScenarioImpact(p).value))
      else if Material(p, h.dimension) then (2, Magnitude(p, h.dimension))
      else (3, 0.0);
    Rank(if h.generic then 1 else 0, impact.0, impact.1, if h.status.PartiallySupported? then 0 else 1)
  }

  /** Python's order on the tuples: lower feasibility, tier and status first,
      larger size first. */
  predicate Precedes(a: Rank, b: Rank) {
    || a.feasibility < b.feasibility
    || (a.feasibility == b.feasibility
        && (|| a.tier < b.tier
            || (a.tier == b.tier
                && (a.size > b.size || (a.size == b.size && a.status < b.status)))))
  }

  // ----- the function, as the source builds it -----

  /** `min(unresolved, key=...)`: the least in the ranking, the earliest among equals. */
  method FirstLeast(p: Picture, hs: seq<Hypothesis>) returns (best: nat)
    requires hs != []
    ensures best < |hs|
    ensures forall k :: 0 <= k < |hs| ==> !Precedes(RankOf(p, hs[k]), RankOf(p, hs[best]))
    ensures forall k :: 0 <= k < best ==> Precedes(RankOf(p, hs[best]), RankOf(p, hs[k]))
  {
    best := 0;
    for n := 1 to |hs|
      invariant best < n <= |hs|
      invariant forall k :: 0 <= k < n ==> !Precedes(RankOf(p, hs[k]), RankOf(p, hs[best]))
      invariant forall k :: 0 <= k < best ==> Precedes(RankOf(p, hs[best]), RankOf(p, hs[k]))
    {
      if Precedes(RankOf(p, hs[n]), RankOf(p, hs[best])) {
        best := n;
      }
    }
  }

  /** The same choice as a function, and its only possible value. */
  function LeastIndex(p: Picture, hs: seq<Hypothesis>): (best: nat)
    requires hs != []
    ensures best < |hs|
    ensures forall k :: 0 <= k < |hs| ==> !Precedes(RankOf(p, hs[k]), RankOf(p, hs[best]))
    ensures forall k :: 0 <= k < best ==> Precedes(RankOf(p, hs[best]), RankOf(p, hs[k]))
  {
    if |hs| == 1 then 0
    else
      var best := LeastIndex(p, hs[..|hs| - 1]);
      assert forall k :: 0 <= k < |hs| - 1 ==> hs[..|hs| - 1][k] == hs[k];
      if Precedes(RankOf(p, hs[|hs| - 1]), RankOf(p, hs[best])) then |hs| - 1 else best
  }

  function AdviceFor(p: Picture, hs: seq<Hypothesis>): Advice {
    var open := Unresolved(p, hs, hs);
    if open == [] then
      if hs == [] then NoAdvice else if AnyMaterial(p) then SufficientToAct else NotYetMaterial
    else
      var best := open[LeastIndex(p, open)];
      if RankOf(p, best).tier == 3 && best.generic then MonitorRemaining
      else if best.gatesOthers then SplitPriceMixVolume
      else Resolve(best)
  }

  function StateFor(p: Picture, hs: seq<Hypothesis>): DecisionState {
    if Contradictions(p) != [] then Investigate
    else if !AnyMaterial(p) then Watch
    else if Unresolved(p, hs, hs) != [] then Investigate
    else ActNow
  }

  function Answer(c: SignalCase): SignalAnswer {
    var p := Read(c);
    SignalAnswer(Dimensions(p), Hypotheses(p), Contradictions(p), StateFor(p, Hypotheses(p)), AdviceFor(p, Hypotheses(p)))
  }

  /** `build_commercial_signal_answer`, from dimensions to decision state. */
  method BuildSignalAnswer(c: SignalCase) returns (answer: SignalAnswer)
    ensures answer == Answer(c)
  {
    var p := Read(c);
    var dimensions := BuildDimensions(p);
    var hypotheses := BuildHypotheses(p, dimensions);
    var contradictions := BuildContradictions(p);
    var open := CollectUnresolved(p, hypotheses);
    var advice := NoAdvice;
    if open == [] {
      if hypotheses != [] {
        advice := if AnyMaterial(p) then SufficientToAct else NotYetMaterial;
      }
    } else {
      var best := FirstLeast(p, open);
      assert best == LeastIndex(p, open);
      if RankOf(p, open[best]).tier == 3 && open[best].generic {
        advice := MonitorRemaining;
      } else if open[best].gatesOthers {
        advice := SplitPriceMixVolume;
      } else {
        advice := Resolve(open[best]);
      }
    }

    var state := ActNow;
    if contradictions != [] {
      state := Investigate;
    } else if !AnyMaterial(p) {
      state := Watch;
    } else if open != [] {
      state := Investigate;
    }
    answer := SignalAnswer(dimensions, hypotheses, contradictions, state, advice);
  }

  method AppendChange(dimensions: seq<Dimension>, kind: Kind, change: Option<Fact>) returns (r: seq<Dimension>)
    ensures r == dimensions + ChangeDimension(kind, change)
  {
    r := dimensions;
    if change.Some? {
      r := r + [Dimension(kind, change.value.entity, change.value.value)];
    }
  }

  method AppendFlag(dimensions: seq<Dimension>, kind: Kind, present: bool) returns (r: seq<Dimension>)
    ensures r == dimensions + FlagDimension(kind, present)
  {
    r := dimensions;
    if present { r := r + [Dimension(kind, "", 0.0)]; }
  }

  method BuildDimensions(p: Picture) returns (dimensions: seq<Dimension>)
    ensures dimensions == Dimensions(p)
  {
    dimensions := [];
    dimensions := AppendChange(dimensions, Otif, p.otif);
    dimensions := AppendChange(dimensions, Defect, p.defect);
    dimensions := AppendChange(dimensions, Concentration, p.share);
    dimensions := AppendFlag(dimensions, SpecChange, p.specChanged);
    dimensions := AppendFlag(dimensions, MarketDivergence, p.text.marketDiverges);
    dimensions := dimensions + CostDimension(p);
  }

  method BuildContradictions(p: Picture) returns (contradictions: seq<Contradiction>)
    ensures contradictions == Contradictions(p)
  {
    contradictions := [];
    if PriceGrowth(p).Some? {
      if p.text.claimsPriceIncrease && PriceGrowth(p).value <= 0.0 {
        contradictions := contradictions + [PriceClaim];
      } else if p.text.claimsPriceDecrease && PriceGrowth(p).value > 0.0 {
        contradictions := contradictions + [PriceClaim];
      }
    }
    if p.otif.Some? {
      var delta := p.otif.value.value;
      if delta < 0.0 && p.text.claimsOtifImproved {
        contradictions := contradictions + [OtifClaim];
      } else if delta > 0.0 && p.text.claimsOtifDeclined {
        contradictions := contradictions + [OtifClaim];
      }
    }
  }

  method BuildSpendVolumeHypotheses(p: Picture) returns (hypotheses: seq<Hypothesis>)
    ensures hypotheses == SpendVolumeHypotheses(p)
  {
    hypotheses := [];
    if HasSpendAndVolume(p) {
      match PriceGrowth(p) {
        case Some(growth) =>
          var status := if growth > 0.0 then Supported else NotSupported;
          hypotheses := hypotheses + [Hypothesis(PriceIncreased, status, SpendVolume, false, false)];
        case None =>
          hypotheses := hypotheses + [Hypothesis(PriceIncreased, Unknown, SpendVolume, false, true)];
      }
      hypotheses := hypotheses + [Hypothesis(MixShift, Unknown, SpendVolume, true, false)];
      hypotheses := hypotheses + GenericPair(SpendVolume);
    }
  }

  method BuildOtherHypotheses(dimensions: seq<Dimension>) returns (hypotheses: seq<Hypothesis>)
    ensures hypotheses == OtherHypotheses(dimensions)
  {
    hypotheses := [];
    for n := 0 to |dimensions|
      invariant hypotheses == OtherHypotheses(dimensions[..n])
    {
      assert dimensions[..n + 1][..n] == dimensions[..n];
      if GetsGenericPair(dimensions[n].kind) {
        hypotheses := hypotheses + GenericPair(dimensions[n].kind);
      }
    }
    assert dimensions[..|dimensions|] == dimensions;
  }

  method BuildHypotheses(p: Picture, dimensions: seq<Dimension>) returns (hypotheses: seq<Hypothesis>)
    requires dimensions == Dimensions(p)
    ensures hypotheses == Hypotheses(p)
  {
    var own := BuildSpendVolumeHypotheses(p);
    var others := BuildOtherHypotheses(dimensions);
    hypotheses := own + SpecificationHypotheses(p) + others;
  }

  method CollectUnresolved(p: Picture, hs: seq<Hypothesis>) returns (open: seq<Hypothesis>)
    ensures open == Unresolved(p, hs, hs)
  {
    open := [];
    for n := 0 to |hs|
      invariant open == Unresolved(p, hs, hs[..n])
    {
      assert hs[..n + 1][..n] == hs[..n];
      if IsUnresolved(p, hs, hs[n]) {
        open := open + [hs[n]];
      }
    }
    assert hs[..|hs|] == hs;
  }
}
