/** The dependency-aware roadmap (app/pipeline/dependency_roadmap.py):
    initiatives name the initiatives they depend on, and the roadmap places them
    horizon by horizon. */
module Roadmap {
  import opened Options
  import opened Texts

  datatype Horizon = QuickWin | ShortTerm | MediumTerm | Year1 | Year2 | Year3

  datatype Area = Commercial | Operational | Esg

  datatype Strategy = Challenge | Develop | Qualify | MonitorOnly

  datatype SupplierStrategy = SupplierStrategy(supplier: string, strategy: Strategy, reason: string)

  datatype Initiative = Initiative(
    name: string, area: Area, horizon: Horizon, reason: string, dependsOn: seq<string>)

  // A market driver or ESG claim as the reasoning sections report it; "" where
  // no supplier is named.
  datatype Driver = Driver(supplier: string, word: string, unknown: string)
  datatype EsgClaim = EsgClaim(supplier: string, topic: string, requirementStated: bool, exposure: string)

  datatype Evidence = Evidence(
    priceGrowthKnown: bool,
    contradictedFact: bool,
    strategies: seq<SupplierStrategy>,
    drivers: seq<Driver>,
    esgClaims: seq<EsgClaim>)

  // ----- names -----

  // Sums of a short and a long literal, so that what the name begins with can be
  // read off the short one.
  const BASELINE := "Run a SKU-level " + "like-for-like price check"
  const CONTRADICTION := "Resolve " + "the supplier's pricing-history contradiction"

  // The fixed sentences of the reasons, without what the case fills in.
  const BASELINE_REASON := "Average price growth is real, " + "but the cause is not yet proven"
  const CONTRADICTION_REASON := "A supplier claim directly " + "conflicts with documented history"
  const LEVERAGE_REASON := "real leverage " + "requires qualified alternatives"
  const CONTRACT_REASON := "only credible once " + "cost evidence and leverage exist"

  function QualifyName(supplier: string): string { "Complete qualification for " + supplier }

  function CapacityName(supplier: string): string { "Validate " + supplier + "'s stated capacity figure" }

  function LeverageName(supplier: string, qualifying: seq<string>): string {
    "Build competitive leverage against " + supplier + " using " + Join(qualifying, ", ")
  }

  function RestructureName(supplier: string): string { "Restructure the contract with " + supplier }

  function DriverName(word: string): string {
    "Obtain the " + word + " cost basis and validate against an appropriate reference"
  }

  function EsgName(supplier: string, topic: string): string {
    "Confirm " + supplier + "'s current position on " + topic
  }

  function Join(parts: seq<string>, separator: string): string {
    if parts == [] then "" else if |parts| == 1 then parts[0]
    else parts[0] + separator + Join(parts[1..], separator)
  }

  /** The first four characters tell the kinds of initiative apart, whatever the
      suppliers are called. */
  function Tag(name: string): string {
    if |name| < 4 then name else name[..4]
  }

  // ----- building the initiatives -----

  predicate MentionsCapacity(reason: string) {
    Contains(Lower(reason), "capacity")
  }

  function ForSupplier(s: SupplierStrategy): seq<Initiative> {
    if s.strategy.Qualify? then
      [Initiative(QualifyName(s.supplier), Operational, MediumTerm, s.reason, [])]
    else if s.strategy.MonitorOnly? && MentionsCapacity(s.reason) then
      [Initiative(CapacityName(s.supplier), Operational, QuickWin, s.reason, [])]
    else []
  }

  function ForSuppliers(ss: seq<SupplierStrategy>): seq<Initiative> {
    if ss == [] then [] else ForSuppliers(ss[..|ss| - 1]) + ForSupplier(ss[|ss| - 1])
  }

  function Suppliers(ss: seq<SupplierStrategy>, strategy: Strategy): seq<string> {
    if ss == [] then []
    else Suppliers(ss[..|ss| - 1], strategy)
         + (if ss[|ss| - 1].strategy == strategy then [ss[|ss| - 1].supplier] else [])
  }

  function QualifyNames(suppliers: seq<string>): seq<string> {
    seq(|suppliers|, k requires 0 <= k < |suppliers| => QualifyName(suppliers[k]))
  }

  function Baseline(e: Evidence): seq<Initiative> {
    if e.priceGrowthKnown
    then [Initiative(BASELINE, Commercial, QuickWin, BASELINE_REASON, [])]
    else []
  }

  function Resolution(e: Evidence): seq<Initiative> {
    if e.contradictedFact
    then [Initiative(CONTRADICTION, Commercial, QuickWin, CONTRADICTION_REASON, [])]
    else []
  }

  /** Leverage waits for every qualification; the contract waits for leverage
      and, when there is one, the cost baseline. */
  function Downstream(e: Evidence): seq<Initiative> {
    var challenged, qualifying := Suppliers(e.strategies, Challenge), Suppliers(e.strategies, Qualify);
    if challenged == [] || qualifying == [] then [] else
    var leverage := LeverageName(challenged[0], qualifying);
    [Initiative(leverage, Commercial, Year1, LEVERAGE_REASON, QualifyNames(qualifying)),
     Initiative(RestructureName(challenged[0]), Commercial, Year1, CONTRACT_REASON,
                (if e.priceGrowthKnown then [BASELINE] else []) + [leverage])]
  }

  function ForDriver(d: Driver, challenged: seq<string>): seq<Initiative> {
    if d.supplier != "" && d.supplier in challenged
    then [Initiative(DriverName(d.word), Commercial, QuickWin, d.unknown, [])]
    else []
  }

  function ForDrivers(ds: seq<Driver>, challenged: seq<string>): seq<Initiative> {
    if ds == [] then [] else ForDrivers(ds[..|ds| - 1], challenged) + ForDriver(ds[|ds| - 1], challenged)
  }

  function ForEsgClaim(c: EsgClaim): seq<Initiative> {
    if c.supplier != "" && c.requirementStated
    then [Initiative(EsgName(c.supplier, c.topic), Esg, ShortTerm, c.exposure, [])]
    else []
  }

  function ForEsgClaims(cs: seq<EsgClaim>): seq<Initiative> {
    if cs == [] then [] else ForEsgClaims(cs[..|cs| - 1]) + ForEsgClaim(cs[|cs| - 1])
  }

  function Investigations(e: Evidence): seq<Initiative> {
    ForDrivers(e.drivers, Suppliers(e.strategies, Challenge)) + ForEsgClaims(e.esgClaims)
  }

  function Initiatives(e: Evidence): seq<Initiative> {
    Baseline(e) + Resolution(e) + ForSuppliers(e.strategies) + Downstream(e) + Investigations(e)
  }

  /** `build_initiatives`. */
  method BuildInitiatives(e: Evidence) returns (initiatives: seq<Initiative>)
    ensures initiatives == Initiatives(e)
  {
    initiatives := Baseline(e) + Resolution(e);
    var forSuppliers, challenged := BuildSupplierInitiatives(e.strategies);
    initiatives := initiatives + forSuppliers;
    initiatives := initiatives + Downstream(e);
    var investigations := BuildInvestigations(e, challenged);
    initiatives := initiatives + investigations;
  }

  method BuildSupplierInitiatives(ss: seq<SupplierStrategy>) returns (initiatives: seq<Initiative>, challenged: seq<string>)
    ensures initiatives == ForSuppliers(ss) && challenged == Suppliers(ss, Challenge)
  {
    initiatives, challenged := [], [];
    for n := 0 to |ss|
      invariant initiatives == ForSuppliers(ss[..n]) && challenged == Suppliers(ss[..n], Challenge)
    {
      assert ss[..n + 1][..n] == ss[..n];
      initiatives := initiatives + ForSupplier(ss[n]);
      if ss[n].strategy.Challenge? { challenged := challenged + [ss[n].supplier]; }
    }
    assert ss[..|ss|] == ss;
  }

  /** `build_investigation_initiatives`. */
  method BuildInvestigations(e: Evidence, challenged: seq<string>) returns (initiatives: seq<Initiative>)
    requires challenged == Suppliers(e.strategies, Challenge)
    ensures initiatives == Investigations(e)
  {
    var fromDrivers := BuildDriverInitiatives(e.drivers, challenged);
    var fromEsg := BuildEsgInitiatives(e.esgClaims);
    initiatives := fromDrivers + fromEsg;
  }

  method BuildDriverInitiatives(ds: seq<Driver>, challenged: seq<string>) returns (initiatives: seq<Initiative>)
    ensures initiatives == ForDrivers(ds, challenged)
  {
    initiatives := [];
    for n := 0 to |ds|
      invariant initiatives == ForDrivers(ds[..n], challenged)
    {
      assert ds[..n + 1][..n] == ds[..n];
      initiatives := initiatives + ForDriver(ds[n], challenged);
    }
    assert ds[..|ds|] == ds;
  }

  method BuildEsgInitiatives(cs: seq<EsgClaim>) returns (initiatives: seq<Initiative>)
    ensures initiatives == ForEsgClaims(cs)
  {
    initiatives := [];
    for n := 0 to |cs|
      invariant initiatives == ForEsgClaims(cs[..n])
    {
      assert cs[..n + 1][..n] == cs[..n];
      initiatives := initiatives + ForEsgClaim(cs[n]);
    }
    assert cs[..|cs|] == cs;
  }

  // ----- the roadmap -----

  datatype Entry = Entry(name: string, area: Area, reason: string, dependsOn: seq<string>, blocks: seq<string>)

  function Blocks(all: seq<Initiative>, name: string): seq<string> {
    if all == [] then []
    else Blocks(all[..|all| - 1], name)
         + (if name in all[|all| - 1].dependsOn then [all[|all| - 1].name] else [])
  }

  function EntryOf(i: Initiative, all: seq<Initiative>): Entry {
    Entry(i.name, i.area, i.reason, i.dependsOn, Blocks(all, i.name))
  }

  /** The bucket of one horizon: the initiatives that name it, in input order. */
  function Bucket(some: seq<Initiative>, h: Horizon, all: seq<Initiative>): seq<Entry> {
    if some == [] then []
    else Bucket(some[..|some| - 1], h, all)
         + (if some[|some| - 1].horizon == h then [EntryOf(some[|some| - 1], all)] else [])
  }

  const HORIZONS: seq<Horizon> := [QuickWin, ShortTerm, MediumTerm, Year1, Year2, Year3]

  /** `build_dependency_aware_roadmap`, before empty years get their placeholder text. */
  method BuildRoadmap(initiatives: seq<Initiative>) returns (buckets: map<Horizon, seq<Entry>>)
    ensures forall h :: h in HORIZONS ==> h in buckets && buckets[h] == Bucket(initiatives, h, initiatives)
  {
    buckets := map h: Horizon | h in HORIZONS :: [];
    for n := 0 to |initiatives|
      invariant forall h :: h in HORIZONS ==> h in buckets && buckets[h] == Bucket(initiatives[..n], h, initiatives)
    {
      var init := initiatives[n];
      assert initiatives[..n + 1][..n] == initiatives[..n];
      var blocks := CollectBlocks(initiatives, init.name);
      HorizonIsListed(init.horizon);
      var entry := Entry(init.name, init.area, init.reason, init.dependsOn, blocks);
      buckets := buckets[init.horizon := buckets[init.horizon] + [entry]];
    }
    assert initiatives[..|initiatives|] == initiatives;
  }

  method CollectBlocks(all: seq<Initiative>, name: string) returns (blocks: seq<string>)
    ensures blocks == Blocks(all, name)
  {
    blocks := [];
    for n := 0 to |all|
      invariant blocks == Blocks(all[..n], name)
    {
      assert all[..n + 1][..n] == all[..n];
      if name in all[n].dependsOn { blocks := blocks + [all[n].name]; }
    }
    assert all[..|all|] == all;
  }

  lemma HorizonIsListed(h: Horizon)
    ensures h in HORIZONS
  {}

  /** The roadmap read horizon by horizon. */
  function Reading(all: seq<Initiative>): seq<Entry> {
    Bucket(all, QuickWin, all) + Bucket(all, ShortTerm, all) + Bucket(all, MediumTerm, all)
    + Bucket(all, Year1, all) + Bucket(all, Year2, all) + Bucket(all, Year3, all)
  }
}
