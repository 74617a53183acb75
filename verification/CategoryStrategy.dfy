/** Supplier classification, findings and priorities of a category strategy
    (app/pipeline/category_strategy_profile.py and category_strategy_intelligence.py).
    Retrieved history is an arbitrary `History`: whatever the memory service
    reconciles, fails to find, or drops when it raises. */
module CategoryStrategy {
  import opened Options
  import opened Texts
  import opened Roadmap
  import opened StableSorting

  // A number together with the text it is printed as.
  datatype Percent = Percent(value: real, text: string)

  datatype Relationship =
    | SUPPORTS | COMPLEMENTS | TEMPORAL_CHANGE | CONTRADICTS | HISTORICAL_PRECEDENT | STALE | NOT_RELEVANT

  datatype Precedent = Precedent(relationship: Relationship, text: string, valuesDiffer: bool)

  datatype RelatedItem = RelatedItem(proposition: string, implication: Option<string>)

  /** What reconciliation answers for one supplier, or for the finding in one position. */
  datatype History = History(
    precedent: string -> Option<Precedent>,
    related: string -> seq<RelatedItem>,
    onFinding: (nat, Finding) -> Option<Precedent>)

  datatype Qualification = Qualification(isTimeline: bool, value: string)

  datatype Profile = Profile(supplier: string, qualification: Option<Qualification>, capacity: Option<string>)

  datatype Row = Row(supplier: string, share: Option<Percent>, growth: Option<real>)

  // ----- classifying one supplier (classify_supplier_strategy) -----

  // Why a supplier is classified as it is: the branch that decides.
  datatype Ground = HighShare | OpenQualification | FastGrowth | UnvalidatedCapacity | NothingStronger

  /** The sentences an answer is made of.  Only the roadmap reads them back
      (CategoryWording), so everything here holds for any wording. */
  datatype Wording = Wording(
    base: (Ground, Row, Profile) -> string,
    precedent: Precedent -> string,
    related: RelatedItem -> string,
    action: Sentence -> Option<string>,
    note: Precedent -> string)

  predicate QualificationIsOpen(q: Option<Qualification>) {
    q.Some? && (q.value.isTimeline || Contains(Lower(q.value.value), "not")
                || Lower(q.value.value) in ["in_progress", "not_started"])
  }

  predicate CapacityIsUnvalidated(capacity: Option<string>) {
    capacity.Some? && Contains(Lower(capacity.value), "unvalidated")
  }

  predicate ShareAtLeast(row: Row, floor: real) {
    row.share.Some? && row.share.value.value >= floor
  }

  predicate OutgrowsCategory(row: Row, categoryGrowth: Option<real>) {
    row.growth.Some? && row.growth.value > (if categoryGrowth.Some? then categoryGrowth.value else 0.0)
  }

  /** The first branch whose evidence is there. */
  function GroundOf(row: Row, profile: Profile, categoryGrowth: Option<real>): Ground {
    if ShareAtLeast(row, 50.0) then HighShare
    else if QualificationIsOpen(profile.qualification) then OpenQualification
    else if ShareAtLeast(row, 25.0) && OutgrowsCategory(row, categoryGrowth) then FastGrowth
    else if CapacityIsUnvalidated(profile.capacity) then UnvalidatedCapacity
    else NothingStronger
  }

  function StrategyOn(g: Ground): Strategy {
    match g
    case HighShare => Challenge
    case OpenQualification => Qualify
    case FastGrowth => Develop
    case _ => MonitorOnly
  }

  function PrecedentText(w: Wording, p: Option<Precedent>): string {
    if p.Some? && p.value.relationship in {SUPPORTS, COMPLEMENTS, TEMPORAL_CHANGE, CONTRADICTS} then w.precedent(p.value) else ""
  }

  function RelatedText(w: Wording, related: seq<RelatedItem>): string {
    if related != [] && related[0].proposition != "" then w.related(related[0]) else ""
  }

  function HistoryText(w: Wording, h: History, supplier: string): string {
    PrecedentText(w, h.precedent(supplier)) + RelatedText(w, h.related(supplier))
  }

  /** The diagnosis row of a supplier; a later row of the same name wins. */
  function RowOf(rows: seq<Row>, supplier: string): Row {
    if rows == [] then Row(supplier, None, None)
    else if rows[|rows| - 1].supplier == supplier then rows[|rows| - 1]
    else RowOf(rows[..|rows| - 1], supplier)
  }

  datatype Case = Case(
    rows: seq<Row>,
    profiles: seq<Profile>,
    categoryGrowth: Option<real>,
    contractText: Option<string>,       // the stated text, when it names a contract mechanism
    priceHistory: seq<real>,            // the percentages found in the stated price history
    claimsCostIncrease: bool,
    contradictedFact: bool,
    priceGrowth: Option<Percent>,
    spendGrowth: Option<Percent>,
    specificationChanged: bool,
    marketDrivers: Option<string>,      // the named drivers, when any is claimed
    wording: Wording)

  function GroundFor(c: Case, profile: Profile): Ground {
    GroundOf(RowOf(c.rows, profile.supplier), profile, c.categoryGrowth)
  }

  /** The sentence of the branch that decides, before any history. */
  function BaseReason(c: Case, profile: Profile): string {
    c.wording.base(GroundFor(c, profile), RowOf(c.rows, profile.supplier), profile)
  }

  function Classified(c: Case, h: History, profile: Profile): SupplierStrategy {
    SupplierStrategy(profile.supplier, StrategyOn(GroundFor(c, profile)),
                     BaseReason(c, profile) + HistoryText(c.wording, h, profile.supplier))
  }

  function ClassifiedAll(c: Case, h: History, profiles: seq<Profile>): seq<SupplierStrategy> {
    Image(profiles, profile => Classified(c, h, profile))
  }

  function StrategyRank(s: Strategy): nat {
    match s
    case Challenge => 0
    case Develop => 1
    case Qualify => 2
    case MonitorOnly => 3
  }

  const STRATEGY_RANK := (s: SupplierStrategy) => StrategyRank(s.strategy)

  /** The supplier strategies in the order the answer lists them. */
  function Strategies(c: Case, h: History): seq<SupplierStrategy> {
    StableSort(ClassifiedAll(c, h, c.profiles), STRATEGY_RANK, 4)
  }

  /** The strategy follows the current share, qualification and growth alone, and
      history is only ever appended: the reason starts with the sentence of the
      branch that decided, and is that sentence when there is no history. */
  method ClassifySupplier(c: Case, h: History, profile: Profile) returns (s: SupplierStrategy)
    ensures s == Classified(c, h, profile)
    ensures var row := RowOf(c.rows, profile.supplier);
            && (s.strategy.Challenge? <==> ShareAtLeast(row, 50.0))
            && (s.strategy.Qualify? <==> !ShareAtLeast(row, 50.0) && QualificationIsOpen(profile.qualification))
            && (s.strategy.Develop? <==> !ShareAtLeast(row, 50.0) && !QualificationIsOpen(profile.qualification)
                                         && ShareAtLeast(row, 25.0) && OutgrowsCategory(row, c.categoryGrowth))
    ensures BaseReason(c, profile) <= s.reason
    ensures h.precedent(profile.supplier).None? && h.related(profile.supplier) == [] ==> s.reason == BaseReason(c, profile)
  {
    var row := RowOf(c.rows, profile.supplier);
    var ground, strategy := NothingStronger, MonitorOnly;
    if ShareAtLeast(row, 50.0) {
      ground, strategy := HighShare, Challenge;
    } else if QualificationIsOpen(profile.qualification) {
      ground, strategy := OpenQualification, Qualify;
    } else if ShareAtLeast(row, 25.0) && OutgrowsCategory(row, c.categoryGrowth) {
      ground, strategy := FastGrowth, Develop;
    } else if CapacityIsUnvalidated(profile.capacity) {
      ground := UnvalidatedCapacity;
    }
    var base := c.wording.base(ground, row, profile);
    s := SupplierStrategy(profile.supplier, strategy, base);
    var fromPrecedent := PrecedentText(c.wording, h.precedent(profile.supplier));
    s := s.(reason := s.reason + fromPrecedent);
    var fromRelated := RelatedText(c.wording, h.related(profile.supplier));
    s := s.(reason := s.reason + fromRelated);
    assert (base + fromPrecedent) + fromRelated == base + (fromPrecedent + fromRelated);
  }

  method ClassifyAll(c: Case, h: History) returns (strategies: seq<SupplierStrategy>)
    ensures strategies == Strategies(c, h)
  {
    strategies := [];
    for n := 0 to |c.profiles|
      invariant strategies == ClassifiedAll(c, h, c.profiles[..n])
    {
      var s := ClassifySupplier(c, h, c.profiles[n]);
      strategies := strategies + [s];
    }
    assert c.profiles[..|c.profiles|] == c.profiles;
    strategies := StableSort(strategies, STRATEGY_RANK, 4);
  }

  // ----- findings -----

  datatype Dimension =
    | ContractArchitecture | CostAndPrice | SupplierLandscape | Specification
    | SupplyMarket | ExternalMarket | SpendBaseline

  datatype State = SupplierClaim | Contradicted | Calculated | Unknown | ExternalMarketEvidence

  datatype Impact = DecisionChanging | MaterialRisk | DecisionCriticalUnknown | Background

  // The sentence a finding states: which template, and what fills it.
  datatype Sentence =
    | ContractMechanismReferenced(stated: string)
    | HistoryShowsNoIncrease
    | HoldsShare(supplier: string, share: string)
    | StrategyIs(supplier: string, strategy: Strategy)
    | ClaimConflictsWithHistory
    | DrivenByVolume(price: string)
    | SpecificationAlsoChanged(price: string)
    | MarketAlsoMoved(price: string, drivers: string)
    | PriceMoved(price: string)
    | SpendMoved(spend: string)
    | MarketMovedOnly(drivers: string)

  datatype Finding = Finding(
    dimension: Dimension,
    says: Sentence,
    state: State,
    impact: Impact,
    reason: string,                   // evidence and implication, where the strategy supplies them
    action: Option<string>,
    precedent: Option<Precedent>)

  function Plain(w: Wording, d: Dimension, says: Sentence, state: State, impact: Impact): Finding {
    Finding(d, says, state, impact, "", w.action(says), None)
  }

  function OnContract(c: Case): seq<Finding> {
    if c.contractText.None? then [] else
    [Plain(c.wording, ContractArchitecture, ContractMechanismReferenced(c.contractText.value), SupplierClaim, DecisionCriticalUnknown)]
  }

  predicate HistoryContradictsClaim(c: Case) {
    c.claimsCostIncrease && c.priceHistory != [] && forall i :: 0 <= i < |c.priceHistory| ==> c.priceHistory[i] <= 0.0
  }

  function OnPriceHistory(c: Case): seq<Finding> {
    if !HistoryContradictsClaim(c) then [] else
    [Plain(c.wording, CostAndPrice, HistoryShowsNoIncrease, Contradicted, MaterialRisk)]
  }

  /** The suppliers whose own strategy finding already cites their share. */
  predicate HasShareInStrategy(strategies: seq<SupplierStrategy>, supplier: string) {
    exists i :: 0 <= i < |strategies| && strategies[i].supplier == supplier
                && (strategies[i].strategy.Challenge? || strategies[i].strategy.Develop?)
  }

  function ShareImpact(share: Percent): Impact {
    if share.value >= 50.0 then DecisionChanging else if share.value >= 25.0 then MaterialRisk else Background
  }

  function OnShare(w: Wording, row: Row, strategies: seq<SupplierStrategy>): seq<Finding> {
    if HasShareInStrategy(strategies, row.supplier) || row.share.None? then [] else
    var says := HoldsShare(row.supplier, row.share.value.text);
    [if ShareImpact(row.share.value) == DecisionChanging
     then Plain(w, SupplierLandscape, says, Calculated, DecisionChanging)
     else Plain(w, SupplierLandscape, says, Calculated, ShareImpact(row.share.value)).(action := None)]
  }

  function OnShares(w: Wording, rows: seq<Row>, strategies: seq<SupplierStrategy>): seq<Finding> {
    if rows == [] then [] else OnShares(w, rows[..|rows| - 1], strategies) + OnShare(w, rows[|rows| - 1], strategies)
  }

  function ImpactOf(s: Strategy): Impact {
    match s
    case Challenge => DecisionChanging
    case Develop => MaterialRisk
    case Qualify => DecisionCriticalUnknown
    case MonitorOnly => Background
  }

  function OnStrategy(s: SupplierStrategy): Finding {
    Finding(SupplierLandscape, StrategyIs(s.supplier, s.strategy), if s.strategy.Qualify? then Unknown else Calculated,
            ImpactOf(s.strategy), s.reason, if s.strategy.Challenge? || s.strategy.Qualify? then Some(s.reason) else None, None)
  }

  function OnStrategies(strategies: seq<SupplierStrategy>): seq<Finding> {
    Image(strategies, OnStrategy)
  }

  function OnContradiction(c: Case): seq<Finding> {
    if !c.contradictedFact then [] else
    [Plain(c.wording, CostAndPrice, ClaimConflictsWithHistory, Contradicted, MaterialRisk)]
  }

  predicate SpendHasMoved(c: Case) {
    c.spendGrowth.Some? && c.spendGrowth.value.value != 0.0
  }

  function OnPrice(c: Case): seq<Finding> {
    if c.priceGrowth.Some? then
      var price := c.priceGrowth.value;
      if price.value <= 0.0 then
        [Plain(c.wording, CostAndPrice, DrivenByVolume(price.text), Calculated, Background)]
      else if c.specificationChanged then
        [Plain(c.wording, Specification, SpecificationAlsoChanged(price.text), Calculated, DecisionCriticalUnknown)]
      else if c.marketDrivers.Some? then
        [Plain(c.wording, SupplyMarket, MarketAlsoMoved(price.text, c.marketDrivers.value), Calculated, DecisionCriticalUnknown)]
      else
        [Plain(c.wording, CostAndPrice, PriceMoved(price.text), Calculated, DecisionCriticalUnknown)]
    else if SpendHasMoved(c) then
      [Plain(c.wording, SpendBaseline, SpendMoved(c.spendGrowth.value.text), Calculated, DecisionCriticalUnknown)]
    else []
  }

  function OnMarketAlone(c: Case): seq<Finding> {
    if c.marketDrivers.None? || c.priceGrowth.Some? || SpendHasMoved(c) then [] else
    [Plain(c.wording, ExternalMarket, MarketMovedOnly(c.marketDrivers.value), ExternalMarketEvidence, DecisionCriticalUnknown)]
  }

  /** Every finding, before history is attached. */
  function FindingsOf(c: Case, strategies: seq<SupplierStrategy>): seq<Finding> {
    OnContract(c) + OnPriceHistory(c) + OnShares(c.wording, c.rows, strategies) + OnStrategies(strategies)
    + OnContradiction(c) + OnPrice(c) + OnMarketAlone(c)
  }

  // ----- attaching history to findings -----

  function WithHistory(w: Wording, f: Finding, p: Option<Precedent>): Finding {
    if p.None? || p.value.relationship.STALE? || p.value.relationship.NOT_RELEVANT? then f
    else f.(precedent := p, action := Some((if f.action.Some? then f.action.value else "") + w.note(p.value)))
  }

  function Annotated(w: Wording, fs: seq<Finding>, h: History): (r: seq<Finding>)
    ensures |r| == |fs| && forall n :: 0 <= n < |fs| ==> r[n] == WithHistory(w, fs[n], h.onFinding(n, fs[n]))
  {
    seq(|fs|, n requires 0 <= n < |fs| => WithHistory(w, fs[n], h.onFinding(n, fs[n])))
  }

  method CollectShares(w: Wording, rows: seq<Row>, strategies: seq<SupplierStrategy>) returns (fs: seq<Finding>)
    ensures fs == OnShares(w, rows, strategies)
  {
    fs := [];
    for n := 0 to |rows|
      invariant fs == OnShares(w, rows[..n], strategies)
    {
      assert rows[..n + 1][..n] == rows[..n];
      fs := fs + OnShare(w, rows[n], strategies);
    }
    assert rows[..|rows|] == rows;
  }

  method CollectStrategies(strategies: seq<SupplierStrategy>) returns (fs: seq<Finding>)
    ensures fs == OnStrategies(strategies)
  {
    fs := [];
    for n := 0 to |strategies|
      invariant fs == OnStrategies(strategies[..n])
    {
      fs := fs + [OnStrategy(strategies[n])];
    }
    assert strategies[..|strategies|] == strategies;
  }

  /** `build_360_findings`. */
  method Build360Findings(c: Case, strategies: seq<SupplierStrategy>, h: History) returns (fs: seq<Finding>)
    ensures fs == Annotated(c.wording, FindingsOf(c, strategies), h)
  {
    var onShares := CollectShares(c.wording, c.rows, strategies);
    var onStrategies := CollectStrategies(strategies);
    fs := OnContract(c) + OnPriceHistory(c) + onShares + onStrategies + OnContradiction(c) + OnPrice(c) + OnMarketAlone(c);
    ghost var found := fs;
    for n := 0 to |fs|
      invariant |fs| == |found|
      invariant forall k :: 0 <= k < |fs| ==> fs[k] == if k < n then WithHistory(c.wording, found[k], h.onFinding(k, found[k])) else found[k]
    {
      fs := fs[n := WithHistory(c.wording, fs[n], h.onFinding(n, fs[n]))];
    }
  }

  // ----- guardrails and surfacing -----

  function Guarded(f: Finding): Finding {
    if f.state.Contradicted? && f.impact.Background? then f.(impact := MaterialRisk)
    else if f.state.SupplierClaim? && f.impact.DecisionChanging? then f.(impact := DecisionCriticalUnknown)
    else f
  }

  /** `apply_decision_impact_guardrails`. */
  method ApplyGuardrails(fs: seq<Finding>) returns (corrected: seq<Finding>)
    ensures |corrected| == |fs|
    ensures forall k :: 0 <= k < |fs| ==>
              corrected[k] == if fs[k].state == Contradicted && fs[k].impact == Background then fs[k].(impact := MaterialRisk)
                              else if fs[k].state == SupplierClaim && fs[k].impact == DecisionChanging then fs[k].(impact := DecisionCriticalUnknown)
                              else fs[k]
    ensures forall k :: 0 <= k < |fs| ==>
              && !(corrected[k].state == Contradicted && corrected[k].impact == Background)
              && !(corrected[k].state == SupplierClaim && corrected[k].impact == DecisionChanging)
    ensures corrected == Image(fs, Guarded)
  {
    corrected := [];
    for n := 0 to |fs|
      invariant corrected == Image(fs[..n], Guarded)
    {
      var finding := fs[n];
      if finding.state.Contradicted? && finding.impact.Background? {
        finding := finding.(impact := MaterialRisk);
      }
      if finding.state.SupplierClaim? && finding.impact.DecisionChanging? {
        finding := finding.(impact := DecisionCriticalUnknown);
      }
      corrected := corrected + [finding];
    }
    assert fs[..|fs|] == fs;
  }

  /** `surfaced_findings`. */
  function Surfaced(fs: seq<Finding>): seq<Finding> {
    if fs == [] then []
    else Surfaced(fs[..|fs| - 1]) + (if fs[|fs| - 1].impact.Background? then [] else [fs[|fs| - 1]])
  }

  /** The surfaced findings of a whole answer. */
  function SurfacedFor(c: Case, h: History): seq<Finding> {
    Surfaced(Image(Annotated(c.wording, FindingsOf(c, Strategies(c, h)), h), Guarded))
  }

  method BuildSurfaced(c: Case, h: History) returns (surfaced: seq<Finding>)
    ensures surfaced == SurfacedFor(c, h)
  {
    var strategies := ClassifyAll(c, h);
    var findings := Build360Findings(c, strategies, h);
    findings := ApplyGuardrails(findings);
    surfaced := Surfaced(findings);
  }

  // ----- priorities -----

  datatype Headline = OnSupplier(supplier: string, strategy: Strategy) | ResolveContradiction | RunPriceCheck

  datatype Priority = Priority(headline: Headline, recurring: bool)

  predicate Recurs(h: History, supplier: string) {
    var p := h.precedent(supplier);
    p.Some? && (p.value.relationship.SUPPORTS? || (p.value.relationship.COMPLEMENTS? && !p.value.valuesDiffer))
  }

  function OnOne(s: SupplierStrategy, h: History): seq<Priority> {
    if s.strategy.MonitorOnly? then [] else [Priority(OnSupplier(s.supplier, s.strategy), Recurs(h, s.supplier))]
  }

  function OnEach(strategies: seq<SupplierStrategy>, h: History): seq<Priority> {
    if strategies == [] then [] else OnEach(strategies[..|strategies| - 1], h) + OnOne(strategies[|strategies| - 1], h)
  }

  const RECURRENCE_RANK := (p: Priority) => if p.recurring then 0 else 1 as nat

  function ClosingPriorities(c: Case): seq<Headline> {
    (if c.contradictedFact then [ResolveContradiction] else []) + (if c.priceGrowth.Some? then [RunPriceCheck] else [])
  }

  function HeadlineOf(p: Priority): Headline { p.headline }

  /** The priority headlines, before the buyer's view keeps the first five. */
  function Headlines(c: Case, h: History): seq<Headline> {
    Image(StableSort(OnEach(Strategies(c, h), h), RECURRENCE_RANK, 2), HeadlineOf) + ClosingPriorities(c)
  }

  method CollectPriorities(h: History, strategies: seq<SupplierStrategy>) returns (priorities: seq<Priority>)
    ensures priorities == OnEach(strategies, h)
  {
    priorities := [];
    for n := 0 to |strategies|
      invariant priorities == OnEach(strategies[..n], h)
    {
      assert strategies[..n + 1][..n] == strategies[..n];
      if !strategies[n].strategy.MonitorOnly? {
        priorities := priorities + [Priority(OnSupplier(strategies[n].supplier, strategies[n].strategy), Recurs(h, strategies[n].supplier))];
      }
    }
    assert strategies[..|strategies|] == strategies;
  }

  method BuildPriorities(c: Case, h: History, strategies: seq<SupplierStrategy>) returns (headlines: seq<Headline>)
    requires strategies == Strategies(c, h)
    ensures headlines == Headlines(c, h)
  {
    var priorities := CollectPriorities(h, strategies);
    priorities := StableSort(priorities, RECURRENCE_RANK, 2);
    var closing: seq<Headline> := [];
    if c.contradictedFact { closing := closing + [ResolveContradiction]; }
    if c.priceGrowth.Some? { closing := closing + [RunPriceCheck]; }
    headlines := Image(priorities, HeadlineOf) + closing;
  }
}
