/** What a category answer is made of, over the evidence itself: why a supplier is
    classified as it is, which findings there are, and the orders they come in. */
module CategoryContents {
  import opened Options
  import opened Texts
  import opened Roadmap
  import RoadmapContents
  import opened StableSorting
  import opened CategoryStrategy
  import opened CategoryTheorems

  // ----- one supplier -----

  /** A timeline, or a stated value that says "not" or that it has not been finished. */
  predicate StatedAsOpen(q: Option<Qualification>) {
    && q.Some?
    && (|| q.value.isTimeline
        || Contains(Lower(q.value.value), "not")
        || Lower(q.value.value) == "in_progress" || Lower(q.value.value) == "not_started")
  }

  /** The branch that decides, over share, qualification, growth and capacity. */
  lemma GroundIs(c: Case, profile: Profile)
    ensures var row, category := RowOf(c.rows, profile.supplier), if c.categoryGrowth.Some? then c.categoryGrowth.value else 0.0;
            GroundFor(c, profile) ==
              if row.share.Some? && row.share.value.value >= 50.0 then HighShare
              else if StatedAsOpen(profile.qualification) then OpenQualification
              else if row.share.Some? && row.share.value.value >= 25.0 && row.growth.Some? && row.growth.value > category then FastGrowth
              else if profile.capacity.Some? && Contains(Lower(profile.capacity.value), "unvalidated") then UnvalidatedCapacity
              else NothingStronger
  {}

  /** The strategy that follows from the branch. */
  lemma StrategyIs(c: Case, h: History, profile: Profile)
    ensures var s, g := Classified(c, h, profile), GroundFor(c, profile);
            && s.supplier == profile.supplier
            && (s.strategy == Challenge <==> g == HighShare)
            && (s.strategy == Qualify <==> g == OpenQualification)
            && (s.strategy == Develop <==> g == FastGrowth)
            && (s.strategy == MonitorOnly <==> g == UnvalidatedCapacity || g == NothingStronger)
  {}

  /** The reason: the branch's own sentence, one for a comparable precedent, and
      one for the first related item if it says anything. */
  lemma ReasonIs(c: Case, h: History, profile: Profile)
    ensures var p, related := h.precedent(profile.supplier), h.related(profile.supplier);
            Classified(c, h, profile).reason
            == c.wording.base(GroundFor(c, profile), RowOf(c.rows, profile.supplier), profile)
               + ((if p.Some? && p.value.relationship != HISTORICAL_PRECEDENT && p.value.relationship != STALE
                      && p.value.relationship != NOT_RELEVANT then c.wording.precedent(p.value) else "")
                  + (if related != [] && related[0].proposition != "" then c.wording.related(related[0]) else ""))
  {}

  lemma {:induction false} UnlistedSupplierHasNoFigures(rows: seq<Row>, supplier: string)
    requires forall i :: 0 <= i < |rows| ==> rows[i].supplier != supplier
    ensures RowOf(rows, supplier) == Row(supplier, None, None)
  {
    if rows != [] { UnlistedSupplierHasNoFigures(rows[..|rows| - 1], supplier); }
  }

  // ----- the order of the strategies -----

  /** What is listed later is not more consequential: challenge before develop
      before qualify before monitor. */
  predicate NoMoreConsequential(earlier: Strategy, later: Strategy) {
    && (later == Challenge ==> earlier == Challenge)
    && (later == Develop ==> earlier == Challenge || earlier == Develop)
    && (later == Qualify ==> earlier != MonitorOnly)
  }

  lemma RankIsConsequence(a: Strategy, b: Strategy)
    ensures StrategyRank(a) <= StrategyRank(b) <==> NoMoreConsequential(a, b)
    ensures StrategyRank(a) == StrategyRank(b) <==> a == b
  {}

  lemma StrategiesByConsequence(c: Case, h: History)
    ensures forall i, j :: 0 <= i < j < |Strategies(c, h)| ==>
              NoMoreConsequential(Strategies(c, h)[i].strategy, Strategies(c, h)[j].strategy)
  {
    StrategiesAreAllListedInOrder(c, h);
    var ss := Strategies(c, h);
    forall i, j | 0 <= i < j < |ss| ensures NoMoreConsequential(ss[i].strategy, ss[j].strategy) {
      assert STRATEGY_RANK(ss[i]) <= STRATEGY_RANK(ss[j]);
      RankIsConsequence(ss[i].strategy, ss[j].strategy);
    }
  }

  lemma {:induction false} SuppliersOfRank(ss: seq<SupplierStrategy>, strategy: Strategy, n: nat)
    requires n <= |ss|
    ensures Suppliers(ss[..n], strategy) == Image(RankPrefix(ss, STRATEGY_RANK, StrategyRank(strategy), n), SupplierOf)
  {
    if n == 0 {
      assert ss[..0] == [];
    } else {
      SuppliersOfRank(ss, strategy, n - 1);
      RankIsConsequence(ss[n - 1].strategy, strategy);
      assert ss[..n][..n - 1] == ss[..n - 1];
      ImageOfSum(RankPrefix(ss, STRATEGY_RANK, StrategyRank(strategy), n - 1), [ss[n - 1]], SupplierOf);
      assert Image([ss[n - 1]], SupplierOf) == [ss[n - 1].supplier];
    }
  }

  function SupplierOf(s: SupplierStrategy): string { s.supplier }

  /** The suppliers whose evidence puts them under a strategy, in the order of the profiles. */
  function SuppliersPutUnder(c: Case, profiles: seq<Profile>, strategy: Strategy): seq<string> {
    if profiles == [] then []
    else SuppliersPutUnder(c, profiles[..|profiles| - 1], strategy)
         + (if StrategyOn(GroundFor(c, profiles[|profiles| - 1])) == strategy then [profiles[|profiles| - 1].supplier] else [])
  }

  lemma {:induction false} ClassifiedSuppliers(c: Case, h: History, profiles: seq<Profile>, strategy: Strategy)
    ensures Suppliers(ClassifiedAll(c, h, profiles), strategy) == SuppliersPutUnder(c, profiles, strategy)
  {
    if profiles != [] {
      var front, last := profiles[..|profiles| - 1], profiles[|profiles| - 1];
      ClassifiedSuppliers(c, h, front, strategy);
      var all := ClassifiedAll(c, h, profiles);
      assert all[..|all| - 1] == ClassifiedAll(c, h, front) && all[|all| - 1] == Classified(c, h, last);
    }
  }

  /** Inside each strategy the suppliers stand in the order of the profiles. */
  lemma EqualStrategiesKeepProfileOrder(c: Case, h: History, strategy: Strategy)
    ensures Suppliers(Strategies(c, h), strategy) == SuppliersPutUnder(c, c.profiles, strategy)
  {
    var unsorted, sorted := ClassifiedAll(c, h, c.profiles), Strategies(c, h);
    StableSortIsStable(unsorted, STRATEGY_RANK, 4, StrategyRank(strategy));
    SuppliersOfRank(unsorted, strategy, |unsorted|);
    SuppliersOfRank(sorted, strategy, |sorted|);
    assert unsorted[..|unsorted|] == unsorted && sorted[..|sorted|] == sorted;
    ClassifiedSuppliers(c, h, c.profiles, strategy);
  }

  // ----- the findings -----

  function Says(c: Case, d: Dimension, says: Sentence, state: State, impact: Impact): Finding {
    Finding(d, says, state, impact, "", c.wording.action(says), None)
  }

  predicate FromContract(c: Case, f: Finding) {
    c.contractText.Some?
    && f == Says(c, ContractArchitecture, ContractMechanismReferenced(c.contractText.value), SupplierClaim, DecisionCriticalUnknown)
  }

  /** A claimed increase against a history in which nothing ever rose. */
  predicate FromPriceHistory(c: Case, f: Finding) {
    c.claimsCostIncrease && c.priceHistory != [] && (forall x :: x in c.priceHistory ==> x <= 0.0)
    && f == Says(c, CostAndPrice, HistoryShowsNoIncrease, State.Contradicted, MaterialRisk)
  }

  /** A known share, unless the supplier's own strategy already cites it. */
  predicate FromShare(c: Case, ss: seq<SupplierStrategy>, row: Row, f: Finding) {
    && row.share.Some?
    && !RoadmapContents.HasStrategy(ss, Challenge, row.supplier) && !RoadmapContents.HasStrategy(ss, Develop, row.supplier)
    && var share := row.share.value;
    && f.dimension == SupplierLandscape && f.says == HoldsShare(row.supplier, share.text) && f.state == Calculated
    && f.reason == "" && f.precedent == None
    && f.impact == (if share.value >= 50.0 then DecisionChanging else if share.value >= 25.0 then MaterialRisk else Background)
    && f.action == (if share.value >= 50.0 then c.wording.action(f.says) else None)
  }

  predicate FromStrategy(s: SupplierStrategy, f: Finding) {
    && f.dimension == SupplierLandscape && f.says == Sentence.StrategyIs(s.supplier, s.strategy)
    && f.reason == s.reason && f.precedent == None
    && match s.strategy
       case Challenge => f.state == Calculated && f.impact == DecisionChanging && f.action == Some(s.reason)
       case Develop => f.state == Calculated && f.impact == MaterialRisk && f.action == None
       case Qualify => f.state == State.Unknown && f.impact == DecisionCriticalUnknown && f.action == Some(s.reason)
       case MonitorOnly => f.state == Calculated && f.impact == Background && f.action == None
  }

  predicate FromContradiction(c: Case, f: Finding) {
    c.contradictedFact && f == Says(c, CostAndPrice, ClaimConflictsWithHistory, State.Contradicted, MaterialRisk)
  }

  /** A price that fell or stayed is no open question; one that rose is, beside a
      specification change, beside a reported market movement, or by itself. */
  predicate FromPrice(c: Case, f: Finding) {
    && c.priceGrowth.Some?
    && var x := c.priceGrowth.value;
       f == if x.value <= 0.0 then Says(c, CostAndPrice, DrivenByVolume(x.text), Calculated, Background)
            else if c.specificationChanged then Says(c, Specification, SpecificationAlsoChanged(x.text), Calculated, DecisionCriticalUnknown)
            else if c.marketDrivers.Some? then Says(c, SupplyMarket, MarketAlsoMoved(x.text, c.marketDrivers.value), Calculated, DecisionCriticalUnknown)
            else Says(c, CostAndPrice, PriceMoved(x.text), Calculated, DecisionCriticalUnknown)
  }

  predicate SpendMovedAlone(c: Case) { c.priceGrowth.None? && c.spendGrowth.Some? && c.spendGrowth.value.value != 0.0 }

  predicate FromSpend(c: Case, f: Finding) {
    SpendMovedAlone(c) && f == Says(c, SpendBaseline, SpendMoved(c.spendGrowth.value.text), Calculated, DecisionCriticalUnknown)
  }

  /** A reported market movement that nothing inside matches. */
  predicate FromMarket(c: Case, f: Finding) {
    c.marketDrivers.Some? && c.priceGrowth.None? && !SpendMovedAlone(c)
    && f == Says(c, ExternalMarket, MarketMovedOnly(c.marketDrivers.value), State.ExternalMarketEvidence, DecisionCriticalUnknown)
  }

  lemma {:induction false} SharesIff(c: Case, rows: seq<Row>, ss: seq<SupplierStrategy>, f: Finding)
    ensures f in OnShares(c.wording, rows, ss) <==> exists row :: row in rows && FromShare(c, ss, row, f)
  {
    if rows != [] {
      var front, last := rows[..|rows| - 1], rows[|rows| - 1];
      SharesIff(c, front, ss, f);
      ShareIff(c, last, ss, f);
      assert rows == front + [last];
    }
  }

  lemma ShareIff(c: Case, row: Row, ss: seq<SupplierStrategy>, f: Finding)
    ensures f in OnShare(c.wording, row, ss) <==> FromShare(c, ss, row, f)
  {
    HasShareIff(ss, row.supplier);
  }

  lemma HasShareIff(ss: seq<SupplierStrategy>, supplier: string)
    ensures HasShareInStrategy(ss, supplier)
            <==> RoadmapContents.HasStrategy(ss, Challenge, supplier) || RoadmapContents.HasStrategy(ss, Develop, supplier)
  {}

  lemma StrategyFindingIff(ss: seq<SupplierStrategy>, f: Finding)
    ensures f in OnStrategies(ss) <==> exists s :: s in ss && FromStrategy(s, f)
  {
    if f in OnStrategies(ss) { var i := StrategyFindingOrigin(ss, f); }
    if s :| s in ss && FromStrategy(s, f) {
      var i :| 0 <= i < |ss| && ss[i] == s;
      assert OnStrategies(ss)[i] == OnStrategy(s) == f;
    }
  }

  lemma NothingRoseIff(xs: seq<real>)
    ensures (forall x :: x in xs ==> x <= 0.0) <==> forall i :: 0 <= i < |xs| ==> xs[i] <= 0.0
  {
    if forall x :: x in xs ==> x <= 0.0 {
      forall i | 0 <= i < |xs| ensures xs[i] <= 0.0 { assert xs[i] in xs; }
    }
  }

  lemma FixedFindingsIff(c: Case, f: Finding)
    ensures f in OnContract(c) <==> FromContract(c, f)
    ensures f in OnPriceHistory(c) <==> FromPriceHistory(c, f)
    ensures f in OnContradiction(c) <==> FromContradiction(c, f)
    ensures f in OnPrice(c) <==> FromPrice(c, f) || FromSpend(c, f)
    ensures f in OnMarketAlone(c) <==> FromMarket(c, f)
  {
    NothingRoseIff(c.priceHistory);
  }

  /** Exactly these findings are made, before history is attached. */
  lemma FindingIff(c: Case, ss: seq<SupplierStrategy>, f: Finding)
    ensures f in FindingsOf(c, ss) <==>
            || FromContract(c, f) || FromPriceHistory(c, f)
            || (exists row :: row in c.rows && FromShare(c, ss, row, f))
            || (exists s :: s in ss && FromStrategy(s, f))
            || FromContradiction(c, f) || FromPrice(c, f) || FromSpend(c, f) || FromMarket(c, f)
  {
    SharesIff(c, c.rows, ss, f);
    StrategyFindingIff(ss, f);
    FixedFindingsIff(c, f);
    FindingComesFrom(OnContract(c), OnPriceHistory(c), OnShares(c.wording, c.rows, ss), OnStrategies(ss), OnContradiction(c), OnPrice(c),
                     OnMarketAlone(c), f);
  }

  lemma FindingComesFrom(a: seq<Finding>, b: seq<Finding>, c: seq<Finding>, d: seq<Finding>, e: seq<Finding>, g: seq<Finding>,
                         k: seq<Finding>, f: Finding)
    ensures f in a + b + c + d + e + g + k <==> f in a || f in b || f in c || f in d || f in e || f in g || f in k
  {}

  /** Shares and strategies are followed in the order of the rows and strategies. */
  lemma {:induction false} SharesOfSum(w: Wording, a: seq<Row>, b: seq<Row>, ss: seq<SupplierStrategy>)
    ensures OnShares(w, a + b, ss) == OnShares(w, a, ss) + OnShares(w, b, ss)
    decreases |b|
  {
    if b == [] {
      assert a + b == a;
    } else {
      assert (a + b)[..|a + b| - 1] == a + b[..|b| - 1];
      SharesOfSum(w, a, b[..|b| - 1], ss);
    }
  }

  /** A precedent is attached, and noted in the action, exactly when there is one
      that is neither retired nor irrelevant; nothing else of a finding changes. */
  lemma HistoryIsAttached(w: Wording, f: Finding, p: Option<Precedent>)
    ensures var g := WithHistory(w, f, p);
            if p.Some? && p.value.relationship != STALE && p.value.relationship != NOT_RELEVANT
            then g == f.(precedent := p, action := g.action)
                 && g.action == Some((match f.action case Some(a) => a case None => "") + w.note(p.value))
            else g == f
  {}

  lemma {:induction false} SurfacedOfSum(a: seq<Finding>, b: seq<Finding>)
    ensures Surfaced(a + b) == Surfaced(a) + Surfaced(b)
    decreases |b|
  {
    if b == [] {
      assert a + b == a;
    } else {
      assert (a + b)[..|a + b| - 1] == a + b[..|b| - 1];
      SurfacedOfSum(a, b[..|b| - 1]);
    }
  }

  // ----- the priorities -----

  /** A repeated, unresolved opportunity: confirmed, or recurring without a difference. */
  predicate Repeats(h: History, supplier: string) {
    && h.precedent(supplier).Some?
    && var p := h.precedent(supplier).value;
    p.relationship == SUPPORTS || (p.relationship == COMPLEMENTS && !p.valuesDiffer)
  }

  /** The headlines of the suppliers that are or are not recurring, in the order of
      the strategies; a monitored supplier has none. */
  function HeadlinesWhere(ss: seq<SupplierStrategy>, h: History, recurring: bool): seq<Headline> {
    if ss == [] then []
    else HeadlinesWhere(ss[..|ss| - 1], h, recurring)
         + (var s := ss[|ss| - 1];
            if s.strategy != MonitorOnly && Repeats(h, s.supplier) == recurring then [OnSupplier(s.supplier, s.strategy)] else [])
  }

  lemma {:induction false} PrioritiesWhere(ss: seq<SupplierStrategy>, h: History, recurring: bool)
    ensures Image(OfRank(OnEach(ss, h), RECURRENCE_RANK, if recurring then 0 else 1), HeadlineOf) == HeadlinesWhere(ss, h, recurring)
  {
    var r: nat := if recurring then 0 else 1;
    if ss != [] {
      var front, last := ss[..|ss| - 1], ss[|ss| - 1];
      PrioritiesWhere(front, h, recurring);
      RankPrefixOfSum(OnEach(front, h), OnOne(last, h), RECURRENCE_RANK, r, |OnOne(last, h)|);
      OneSupplierWhere(last, h, recurring);
      ImageOfSum(OfRank(OnEach(front, h), RECURRENCE_RANK, r), OfRank(OnOne(last, h), RECURRENCE_RANK, r), HeadlineOf);
    }
  }

  lemma OneSupplierWhere(s: SupplierStrategy, h: History, recurring: bool)
    ensures Image(OfRank(OnOne(s, h), RECURRENCE_RANK, if recurring then 0 else 1), HeadlineOf)
            == if s.strategy != MonitorOnly && Repeats(h, s.supplier) == recurring then [OnSupplier(s.supplier, s.strategy)] else []
  {
    var r: nat := if recurring then 0 else 1;
    if s.strategy != MonitorOnly {
      var p := Priority(OnSupplier(s.supplier, s.strategy), Recurs(h, s.supplier));
      assert OnOne(s, h) == [p] && RECURRENCE_RANK(p) == if p.recurring then 0 else 1;
      assert RankPrefix([p], RECURRENCE_RANK, r, 0) == [];
      assert OfRank([p], RECURRENCE_RANK, r) == if RECURRENCE_RANK(p) == r then [p] else [];
    }
  }

  /** Recurring opportunities first, then the others, each in the order of the
      strategies; then the contradiction and the price check, where there is one. */
  lemma HeadlinesAre(c: Case, h: History)
    ensures Headlines(c, h)
            == HeadlinesWhere(Strategies(c, h), h, true) + HeadlinesWhere(Strategies(c, h), h, false)
               + ((if c.contradictedFact then [ResolveContradiction] else []) + (if c.priceGrowth.Some? then [RunPriceCheck] else []))
  {
    RecurringPrioritiesLead(c, h);
    PrioritiesWhere(Strategies(c, h), h, true);
    PrioritiesWhere(Strategies(c, h), h, false);
  }
}
