/** Which initiatives a roadmap has, what each waits for, and in which order the
    lists they come from are followed. */
module RoadmapContents {
  import opened Options
  import opened Texts
  import opened Roadmap
  import opened RoadmapOrder

  // ----- lists follow their inputs in order -----

  lemma {:induction false} ForSuppliersOfSum(a: seq<SupplierStrategy>, b: seq<SupplierStrategy>)
    ensures ForSuppliers(a + b) == ForSuppliers(a) + ForSuppliers(b)
    decreases |b|
  {
    if b == [] {
      assert a + b == a;
    } else {
      assert (a + b)[..|a + b| - 1] == a + b[..|b| - 1];
      ForSuppliersOfSum(a, b[..|b| - 1]);
    }
  }

  lemma {:induction false} ForDriversOfSum(a: seq<Driver>, b: seq<Driver>, challenged: seq<string>)
    ensures ForDrivers(a + b, challenged) == ForDrivers(a, challenged) + ForDrivers(b, challenged)
    decreases |b|
  {
    if b == [] {
      assert a + b == a;
    } else {
      assert (a + b)[..|a + b| - 1] == a + b[..|b| - 1];
      ForDriversOfSum(a, b[..|b| - 1], challenged);
    }
  }

  lemma {:induction false} ForEsgClaimsOfSum(a: seq<EsgClaim>, b: seq<EsgClaim>)
    ensures ForEsgClaims(a + b) == ForEsgClaims(a) + ForEsgClaims(b)
    decreases |b|
  {
    if b == [] {
      assert a + b == a;
    } else {
      assert (a + b)[..|a + b| - 1] == a + b[..|b| - 1];
      ForEsgClaimsOfSum(a, b[..|b| - 1]);
    }
  }

  lemma {:induction false} SuppliersOfSum(a: seq<SupplierStrategy>, b: seq<SupplierStrategy>, strategy: Strategy)
    ensures Suppliers(a + b, strategy) == Suppliers(a, strategy) + Suppliers(b, strategy)
    decreases |b|
  {
    if b == [] {
      assert a + b == a;
    } else {
      assert (a + b)[..|a + b| - 1] == a + b[..|b| - 1];
      SuppliersOfSum(a, b[..|b| - 1], strategy);
    }
  }

  lemma {:induction false} BlocksOfSum(a: seq<Initiative>, b: seq<Initiative>, name: string)
    ensures Blocks(a + b, name) == Blocks(a, name) + Blocks(b, name)
    decreases |b|
  {
    if b == [] {
      assert a + b == a;
    } else {
      assert (a + b)[..|a + b| - 1] == a + b[..|b| - 1];
      BlocksOfSum(a, b[..|b| - 1], name);
    }
  }

  /** The suppliers of one strategy, as often and in the order they are listed. */
  lemma SuppliersOfOne(s: SupplierStrategy, strategy: Strategy)
    ensures Suppliers([s], strategy) == if s.strategy == strategy then [s.supplier] else []
  {
    assert [s][..0] == [];
  }

  lemma {:induction false} SupplierIff(ss: seq<SupplierStrategy>, strategy: Strategy, supplier: string)
    ensures supplier in Suppliers(ss, strategy) <==> HasStrategy(ss, strategy, supplier)
  {
    if ss != [] {
      var front, last := ss[..|ss| - 1], ss[|ss| - 1];
      SupplierIff(front, strategy, supplier);
      assert ss == front + [last];
      assert HasStrategy(ss, strategy, supplier)
             <==> HasStrategy(front, strategy, supplier) || (last.supplier == supplier && last.strategy == strategy);
    }
  }

  predicate HasStrategy(ss: seq<SupplierStrategy>, strategy: Strategy, supplier: string) {
    exists s :: s in ss && s.supplier == supplier && s.strategy == strategy
  }

  /** The names a leverage initiative lists, comma after comma. */
  lemma {:induction false} JoinOneMore(parts: seq<string>, last: string, separator: string)
    ensures Join(parts + [last], separator) == if parts == [] then last else Join(parts, separator) + separator + last
    decreases |parts|
  {
    if parts == [] {
      assert parts + [last] == [last];
    } else {
      var first, rest := parts[0], parts[1..];
      assert (parts + [last])[1..] == rest + [last] && (parts + [last])[0] == first;
      JoinOneMore(rest, last, separator);
      if rest == [] {
        assert parts == [first];
      } else {
        assert first + separator + (Join(rest, separator) + separator + last)
               == first + separator + Join(rest, separator) + separator + last;
      }
    }
  }

  // ----- which initiatives are planned -----

  /** What one classified supplier brings: its qualification, or a check of its
      capacity when it is only monitored and its reason mentions one. */
  predicate FromStrategy(s: SupplierStrategy, i: Initiative) {
    || (s.strategy == Qualify
        && i == Initiative("Complete qualification for " + s.supplier, Operational, MediumTerm, s.reason, []))
    || (s.strategy == MonitorOnly && Contains(Lower(s.reason), "capacity")
        && i == Initiative("Validate " + s.supplier + "'s stated capacity figure", Operational, QuickWin, s.reason, []))
  }

  lemma {:induction false} ForSuppliersIff(ss: seq<SupplierStrategy>, i: Initiative)
    ensures i in ForSuppliers(ss) <==> exists s :: s in ss && FromStrategy(s, i)
  {
    if ss != [] {
      var front, last := ss[..|ss| - 1], ss[|ss| - 1];
      ForSuppliersIff(front, i);
      ForSupplierIff(last, i);
      assert ss == front + [last];
    }
  }

  lemma ForSupplierIff(s: SupplierStrategy, i: Initiative)
    ensures i in ForSupplier(s) <==> FromStrategy(s, i)
  {}

  /** A named driver of a challenged supplier is to be looked into. */
  predicate FromDriver(d: Driver, ss: seq<SupplierStrategy>, i: Initiative) {
    && d.supplier != "" && HasStrategy(ss, Challenge, d.supplier)
    && i == Initiative(DriverName(d.word), Commercial, QuickWin, d.unknown, [])
  }

  lemma {:induction false} ForDriversIff(ds: seq<Driver>, ss: seq<SupplierStrategy>, i: Initiative)
    ensures i in ForDrivers(ds, Suppliers(ss, Challenge)) <==> exists d :: d in ds && FromDriver(d, ss, i)
  {
    if ds != [] {
      var front, last := ds[..|ds| - 1], ds[|ds| - 1];
      ForDriversIff(front, ss, i);
      ForDriverIff(last, ss, i);
      assert ds == front + [last];
    }
  }

  lemma ForDriverIff(d: Driver, ss: seq<SupplierStrategy>, i: Initiative)
    ensures i in ForDriver(d, Suppliers(ss, Challenge)) <==> FromDriver(d, ss, i)
  {
    SupplierIff(ss, Challenge, d.supplier);
  }

  predicate FromEsgClaim(c: EsgClaim, i: Initiative) {
    && c.supplier != "" && c.requirementStated
    && i == Initiative("Confirm " + c.supplier + "'s current position on " + c.topic, Esg, ShortTerm, c.exposure, [])
  }

  lemma {:induction false} ForEsgClaimsIff(cs: seq<EsgClaim>, i: Initiative)
    ensures i in ForEsgClaims(cs) <==> exists c :: c in cs && FromEsgClaim(c, i)
  {
    if cs != [] {
      var front, last := cs[..|cs| - 1], cs[|cs| - 1];
      ForEsgClaimsIff(front, i);
      ForEsgClaimIff(last, i);
      assert cs == front + [last];
    }
  }

  lemma ForEsgClaimIff(c: EsgClaim, i: Initiative)
    ensures i in ForEsgClaim(c) <==> FromEsgClaim(c, i)
  {}

  /** The first challenged supplier, when someone is to be qualified as well. */
  ghost predicate LeveragedAgainst(ss: seq<SupplierStrategy>, supplier: string) {
    && (exists k :: 0 <= k < |ss| && ss[k].strategy == Challenge && ss[k].supplier == supplier
                    && forall j :: 0 <= j < k ==> ss[j].strategy != Challenge)
    && exists s :: s in ss && s.strategy == Qualify
  }

  /** Leverage against the first challenged supplier waits for the qualification of
      every supplier that is to be qualified, in their order, and for nothing else. */
  ghost predicate IsLeverage(e: Evidence, i: Initiative) {
    exists supplier :: LeveragedAgainst(e.strategies, supplier)
      && i.name == "Build competitive leverage against " + supplier + " using " + Join(Suppliers(e.strategies, Qualify), ", ")
      && i.area == Commercial && i.horizon == Year1 && i.reason == LEVERAGE_REASON
      && |i.dependsOn| == |Suppliers(e.strategies, Qualify)|
      && forall k :: 0 <= k < |i.dependsOn| ==> i.dependsOn[k] == "Complete qualification for " + Suppliers(e.strategies, Qualify)[k]
  }

  /** The contract with it waits for leverage and, when one is planned, for the
      price check, and for nothing else. */
  ghost predicate IsContract(e: Evidence, i: Initiative) {
    exists supplier :: LeveragedAgainst(e.strategies, supplier)
      && i.name == "Restructure the contract with " + supplier && i.area == Commercial && i.horizon == Year1
      && i.reason == CONTRACT_REASON
      && var leverage := LeverageName(supplier, Suppliers(e.strategies, Qualify));
         i.dependsOn == if e.priceGrowthKnown then [BASELINE, leverage] else [leverage]
  }

  predicate IsOpening(e: Evidence, i: Initiative) {
    || (e.priceGrowthKnown && i == Initiative(BASELINE, Commercial, QuickWin, BASELINE_REASON, []))
    || (e.contradictedFact && i == Initiative(CONTRADICTION, Commercial, QuickWin, CONTRADICTION_REASON, []))
  }

  lemma {:induction false} FirstOfStrategy(ss: seq<SupplierStrategy>, strategy: Strategy)
    ensures Suppliers(ss, strategy) != [] ==>
              exists k :: 0 <= k < |ss| && ss[k].strategy == strategy && ss[k].supplier == Suppliers(ss, strategy)[0]
                          && forall j :: 0 <= j < k ==> ss[j].strategy != strategy
    ensures Suppliers(ss, strategy) == [] ==> forall j :: 0 <= j < |ss| ==> ss[j].strategy != strategy
  {
    if ss != [] {
      var front := ss[..|ss| - 1];
      FirstOfStrategy(front, strategy);
      assert forall j :: 0 <= j < |front| ==> ss[j] == front[j];
      if Suppliers(front, strategy) != [] {
        var k :| 0 <= k < |front| && front[k].strategy == strategy && front[k].supplier == Suppliers(front, strategy)[0]
                 && forall j :: 0 <= j < k ==> front[j].strategy != strategy;
        assert ss[k].supplier == Suppliers(ss, strategy)[0];
      }
    }
  }

  lemma LeveragedAgainstIff(ss: seq<SupplierStrategy>, supplier: string)
    ensures LeveragedAgainst(ss, supplier) <==>
            && Suppliers(ss, Challenge) != [] && Suppliers(ss, Qualify) != [] && supplier == Suppliers(ss, Challenge)[0]
  {
    FirstOfStrategy(ss, Challenge);
    FirstOfStrategy(ss, Qualify);
  }

  lemma DownstreamIff(e: Evidence, i: Initiative)
    ensures i in Downstream(e) <==> IsLeverage(e, i) || IsContract(e, i)
  {
    forall supplier ensures LeveragedAgainst(e.strategies, supplier) <==>
      && Suppliers(e.strategies, Challenge) != [] && Suppliers(e.strategies, Qualify) != []
      && supplier == Suppliers(e.strategies, Challenge)[0]
    {
      LeveragedAgainstIff(e.strategies, supplier);
    }
    if Downstream(e) != [] {
      var qualifying, first := Suppliers(e.strategies, Qualify), Suppliers(e.strategies, Challenge)[0];
      assert LeveragedAgainst(e.strategies, first);
      assert IsLeverage(e, Downstream(e)[0]) && IsContract(e, Downstream(e)[1]);
      if IsLeverage(e, i) { assert i.dependsOn == QualifyNames(qualifying); }
    }
  }

  /** Exactly these initiatives are planned. */
  lemma InitiativeIff(e: Evidence, i: Initiative)
    ensures i in Initiatives(e) <==>
            || IsOpening(e, i)
            || (exists s :: s in e.strategies && FromStrategy(s, i))
            || IsLeverage(e, i)
            || IsContract(e, i)
            || (exists d :: d in e.drivers && FromDriver(d, e.strategies, i))
            || (exists c :: c in e.esgClaims && FromEsgClaim(c, i))
  {
    InitiativesSplit(e);
    ForSuppliersIff(e.strategies, i);
    DownstreamIff(e, i);
    ForDriversIff(e.drivers, e.strategies, i);
    ForEsgClaimsIff(e.esgClaims, i);
    OpeningIff(e, i);
    PlannedComesFrom(Baseline(e) + Resolution(e), ForSuppliers(e.strategies), Downstream(e),
                     ForDrivers(e.drivers, Suppliers(e.strategies, Challenge)), ForEsgClaims(e.esgClaims), i);
  }

  lemma OpeningIff(e: Evidence, i: Initiative)
    ensures i in Baseline(e) + Resolution(e) <==> IsOpening(e, i)
  {}

  lemma PlannedComesFrom(a: seq<Initiative>, b: seq<Initiative>, c: seq<Initiative>, d: seq<Initiative>, f: seq<Initiative>, i: Initiative)
    ensures i in ((a + b) + c) + (d + f) <==> i in a || i in b || i in c || i in d || i in f
  {}

  /** In the roadmap itself: an entry for the contract waits for the price check
      exactly when one is planned, and always for leverage; leverage waits for the
      qualification of every supplier that is to be qualified. */
  lemma RoadmapWaits(e: Evidence, p: nat, supplier: string)
    requires p < |Reading(Initiatives(e))| && LeveragedAgainst(e.strategies, supplier)
    ensures var entry, leverage := Reading(Initiatives(e))[p], LeverageName(supplier, Suppliers(e.strategies, Qualify));
            && (entry.name == RestructureName(supplier) ==>
                  leverage in entry.dependsOn && (BASELINE in entry.dependsOn <==> e.priceGrowthKnown))
            && (entry.name == leverage ==>
                  forall s :: s in e.strategies && s.strategy == Qualify ==> QualifyName(s.supplier) in entry.dependsOn)
  {
    var k := EveryEntryIsAnInitiative(Initiatives(e), p);
    var entry := Reading(Initiatives(e))[p];
    LeveragedAgainstIff(e.strategies, supplier);
    var qualifying := Suppliers(e.strategies, Qualify);
    TagsTellKindsApart(supplier, "", qualifying);
    EveryInitiativeIsWellShaped(e, k);
    if entry.name == RestructureName(supplier) || entry.name == LeverageName(supplier, qualifying) {
      DownstreamPlaces(e);
      OpeningTags();
      assert k == |Upstream(e)| || k == |Upstream(e)| + 1;
    }
    if entry.name == LeverageName(supplier, qualifying) {
      forall s | s in e.strategies && s.strategy == Qualify ensures QualifyName(s.supplier) in entry.dependsOn {
        SupplierIff(e.strategies, Qualify, s.supplier);
        var q :| 0 <= q < |qualifying| && qualifying[q] == s.supplier;
        assert QualifyNames(qualifying)[q] == QualifyName(s.supplier);
      }
    }
  }
}
