/** The roadmap is a topological order: read horizon by horizon, every dependency
    of an initiative stands strictly earlier and nowhere later. */
module RoadmapOrder {
  import opened Options
  import opened Texts
  import opened Roadmap

  function Place(h: Horizon): nat {
    match h
    case QuickWin => 0
    case ShortTerm => 1
    case MediumTerm => 2
    case Year1 => 3
    case Year2 => 4
    case Year3 => 5
  }

  function At(place: nat): Horizon
    requires place < 6
    ensures Place(At(place)) == place
  {
    HORIZONS[place]
  }

  /** The reading up to, but without, the horizon in the given place. */
  function ReadingBefore(all: seq<Initiative>, place: nat): seq<Entry>
    requires place <= 6
  {
    if place == 0 then [] else ReadingBefore(all, place - 1) + Bucket(all, At(place - 1), all)
  }

  lemma ReadingIsAllBuckets(all: seq<Initiative>)
    ensures Reading(all) == ReadingBefore(all, 6)
  {
    assert ReadingBefore(all, 1) == Bucket(all, QuickWin, all);
    assert ReadingBefore(all, 2) == ReadingBefore(all, 1) + Bucket(all, ShortTerm, all);
    assert ReadingBefore(all, 3) == ReadingBefore(all, 2) + Bucket(all, MediumTerm, all);
    assert ReadingBefore(all, 4) == ReadingBefore(all, 3) + Bucket(all, Year1, all);
    assert ReadingBefore(all, 5) == ReadingBefore(all, 4) + Bucket(all, Year2, all);
  }

  lemma {:induction false} ReadingGrows(all: seq<Initiative>, p: nat, q: nat)
    requires p <= q <= 6
    ensures ReadingBefore(all, p) <= ReadingBefore(all, q)
    decreases q - p
  {
    if p < q { ReadingGrows(all, p, q - 1); }
  }

  lemma {:induction false} BucketGrows(some: seq<Initiative>, i: nat, j: nat, h: Horizon, all: seq<Initiative>)
    requires i <= j <= |some|
    ensures Bucket(some[..i], h, all) <= Bucket(some[..j], h, all)
    decreases j - i
  {
    if i < j {
      assert some[..j][..j - 1] == some[..j - 1];
      BucketGrows(some, i, j - 1, h, all);
    }
  }

  // ----- where each initiative stands -----

  /** The position of initiative `i` in the reading. */
  function Slot(all: seq<Initiative>, i: nat): nat
    requires i < |all|
  {
    var h := all[i].horizon;
    |ReadingBefore(all, Place(h))| + |Bucket(all[..i], h, all)|
  }

  lemma SlotHoldsInitiative(all: seq<Initiative>, i: nat)
    requires i < |all|
    ensures Slot(all, i) < |Reading(all)| && Reading(all)[Slot(all, i)] == EntryOf(all[i], all)
    ensures var entry := Reading(all)[Slot(all, i)];
            && entry.name == all[i].name && entry.area == all[i].area && entry.reason == all[i].reason
            && entry.dependsOn == all[i].dependsOn
    ensures Slot(all, i) < |ReadingBefore(all, Place(all[i].horizon) + 1)|
  {
    var h := all[i].horizon;
    assert At(Place(h)) == h;
    assert all[..i + 1][..i] == all[..i];
    assert Bucket(all[..i + 1], h, all) == Bucket(all[..i], h, all) + [EntryOf(all[i], all)];
    BucketGrows(all, i + 1, |all|, h, all);
    assert all[..|all|] == all;
    assert Bucket(all, h, all)[|Bucket(all[..i], h, all)|] == EntryOf(all[i], all);
    ReadingGrows(all, Place(h) + 1, 6);
    ReadingIsAllBuckets(all);
  }

  /** Earlier horizon, or the same horizon and earlier in the input. */
  predicate ComesBefore(all: seq<Initiative>, j: nat, i: nat)
    requires j < |all| && i < |all|
  {
    || Place(all[j].horizon) < Place(all[i].horizon)
    || (all[j].horizon == all[i].horizon && j < i)
  }

  lemma EarlierHorizonStandsEarlier(all: seq<Initiative>, j: nat, i: nat)
    requires j < |all| && i < |all| && Place(all[j].horizon) < Place(all[i].horizon)
    ensures Slot(all, j) < Slot(all, i)
  {
    SlotHoldsInitiative(all, j);
    ReadingGrows(all, Place(all[j].horizon) + 1, Place(all[i].horizon));
  }

  lemma BucketGrowsPast(all: seq<Initiative>, j: nat, i: nat)
    requires j < i <= |all|
    ensures |Bucket(all[..j], all[j].horizon, all)| < |Bucket(all[..i], all[j].horizon, all)|
  {
    assert all[..j + 1][..j] == all[..j];
    BucketGrows(all, j + 1, i, all[j].horizon, all);
  }

  lemma SlotsFollowOrder(all: seq<Initiative>, j: nat, i: nat)
    requires j < |all| && i < |all| && ComesBefore(all, j, i)
    ensures Slot(all, j) < Slot(all, i)
  {
    if Place(all[j].horizon) < Place(all[i].horizon) {
      EarlierHorizonStandsEarlier(all, j, i);
    } else {
      BucketGrowsPast(all, j, i);
    }
  }

  lemma {:induction false} BucketEntryHasSource(some: seq<Initiative>, h: Horizon, all: seq<Initiative>, k: nat) returns (i: nat)
    requires k < |Bucket(some, h, all)|
    ensures i < |some| && some[i].horizon == h && |Bucket(some[..i], h, all)| == k
  {
    var front := some[..|some| - 1];
    if k < |Bucket(front, h, all)| {
      i := BucketEntryHasSource(front, h, all, k);
      assert some[..i] == front[..i];
    } else {
      i := |some| - 1;
    }
  }

  lemma {:induction false} PositionHasSource(all: seq<Initiative>, place: nat, p: nat) returns (i: nat)
    requires place <= 6 && p < |ReadingBefore(all, place)|
    ensures i < |all| && Slot(all, i) == p
    decreases place
  {
    var before := ReadingBefore(all, place - 1);
    if p < |before| {
      i := PositionHasSource(all, place - 1, p);
    } else {
      i := BucketEntryHasSource(all, At(place - 1), all, p - |before|);
    }
  }

  /** No two initiatives share a place in the reading, and input order is kept
      inside a horizon. */
  lemma EveryInitiativeOnce(all: seq<Initiative>, i: nat, j: nat)
    requires i < j < |all|
    ensures Slot(all, i) != Slot(all, j)
    ensures all[i].horizon == all[j].horizon ==> Slot(all, i) < Slot(all, j)
  {
    if ComesBefore(all, i, j) { SlotsFollowOrder(all, i, j); } else { SlotsFollowOrder(all, j, i); }
  }

  /** Every entry of the reading is one of the initiatives. */
  lemma EveryEntryIsAnInitiative(all: seq<Initiative>, p: nat) returns (i: nat)
    requires p < |Reading(all)|
    ensures i < |all| && Slot(all, i) == p && Reading(all)[p] == EntryOf(all[i], all)
  {
    ReadingIsAllBuckets(all);
    i := PositionHasSource(all, 6, p);
    SlotHoldsInitiative(all, i);
  }

  // ----- blocks -----

  /** `blocks` is the exact converse of `depends_on`. */
  lemma {:induction false} BlocksIsConverse(all: seq<Initiative>, name: string, other: string)
    ensures other in Blocks(all, name) <==> exists i :: 0 <= i < |all| && all[i].name == other && name in all[i].dependsOn
  {
    if all != [] {
      var front, last := all[..|all| - 1], all[|all| - 1];
      BlocksIsConverse(front, name, other);
      if other in Blocks(front, name) {
        var i :| 0 <= i < |front| && front[i].name == other && name in front[i].dependsOn;
        assert all[i] == front[i];
      }
      if i :| 0 <= i < |all| && all[i].name == other && name in all[i].dependsOn {
        assert i < |front| ==> front[i] == all[i];
      }
    }
  }

  // ----- which initiatives exist -----

  /** What its name says about an initiative. */
  predicate WellShaped(i: Initiative) {
    && (Tag(i.name) == "Comp" ==> i.horizon == MediumTerm)
    && (Tag(i.name) == "Run " ==> i.horizon == QuickWin)
    && (i.dependsOn != [] ==> i.horizon == Year1)
    && (Tag(i.name) == "Buil" || Tag(i.name) == "Rest" <==> i.horizon == Year1)
  }

  lemma TagOfPrefixed(head: string, tail: string)
    requires |head| >= 4
    ensures Tag(head + tail) == head[..4]
  {}

  lemma OpeningTags()
    ensures Tag(BASELINE) == "Run " && Tag(CONTRADICTION) == "Reso"
  {}

  lemma TagsTellKindsApart(supplier: string, other: string, many: seq<string>)
    ensures Tag(QualifyName(supplier)) == "Comp" && Tag(CapacityName(supplier)) == "Vali"
    ensures Tag(LeverageName(supplier, many)) == "Buil" && Tag(RestructureName(supplier)) == "Rest"
    ensures Tag(DriverName(supplier)) == "Obta" && Tag(EsgName(supplier, other)) == "Conf"
  {
    TagOfPrefixed("Complete qualification for ", supplier);
    TagOfPrefixed("Restructure the contract with ", supplier);
    TagOfPrefixed("Validate " + supplier, "'s stated capacity figure");
    TagOfPrefixed("Validate ", supplier);
    TagOfPrefixed("Build competitive leverage against ", supplier);
    TagOfPrefixed("Build competitive leverage against " + supplier, " using ");
    TagOfPrefixed("Build competitive leverage against " + supplier + " using ", Join(many, ", "));
  }

  predicate Quiet(i: Initiative) {
    WellShaped(i) && i.horizon != Year1
  }

  lemma {:induction false} SupplierInitiativesAreQuiet(ss: seq<SupplierStrategy>, i: Initiative)
    requires i in ForSuppliers(ss)
    ensures Quiet(i)
  {
    var front, last := ss[..|ss| - 1], ss[|ss| - 1];
    TagsTellKindsApart(last.supplier, "", []);
    if i in ForSuppliers(front) { SupplierInitiativesAreQuiet(front, i); }
  }

  lemma {:induction false} DriverInitiativesAreQuiet(ds: seq<Driver>, challenged: seq<string>, i: Initiative)
    requires i in ForDrivers(ds, challenged)
    ensures Quiet(i)
  {
    var front, last := ds[..|ds| - 1], ds[|ds| - 1];
    TagsTellKindsApart(last.word, "", []);
    if i in ForDrivers(front, challenged) { DriverInitiativesAreQuiet(front, challenged, i); }
  }

  lemma {:induction false} EsgInitiativesAreQuiet(cs: seq<EsgClaim>, i: Initiative)
    requires i in ForEsgClaims(cs)
    ensures Quiet(i)
  {
    var front, last := cs[..|cs| - 1], cs[|cs| - 1];
    TagsTellKindsApart(last.supplier, last.topic, []);
    if i in ForEsgClaims(front) { EsgInitiativesAreQuiet(front, i); }
  }

  function Upstream(e: Evidence): seq<Initiative> {
    Baseline(e) + Resolution(e) + ForSuppliers(e.strategies)
  }

  lemma OpeningIsQuiet(e: Evidence, i: Initiative)
    requires i in Baseline(e) || i in Resolution(e)
    ensures Quiet(i)
  {
    OpeningTags();
  }

  lemma UpstreamIsQuiet(e: Evidence, i: Initiative)
    requires i in Upstream(e)
    ensures Quiet(i)
  {
    if i in ForSuppliers(e.strategies) {
      SupplierInitiativesAreQuiet(e.strategies, i);
    } else {
      OpeningIsQuiet(e, i);
    }
  }

  lemma InvestigationsAreQuiet(e: Evidence, i: Initiative)
    requires i in Investigations(e)
    ensures Quiet(i)
  {
    var challenged := Suppliers(e.strategies, Challenge);
    if i in ForDrivers(e.drivers, challenged) {
      DriverInitiativesAreQuiet(e.drivers, challenged, i);
    } else {
      EsgInitiativesAreQuiet(e.esgClaims, i);
    }
  }

  lemma InitiativesSplit(e: Evidence)
    ensures Initiatives(e) == Upstream(e) + Downstream(e) + Investigations(e)
  {}

  lemma EveryInitiativeIsWellShaped(e: Evidence, k: nat)
    requires k < |Initiatives(e)|
    ensures WellShaped(Initiatives(e)[k])
    ensures Initiatives(e)[k].horizon == Year1 <==> |Upstream(e)| <= k < |Upstream(e)| + |Downstream(e)|
  {
    InitiativesSplit(e);
    var i := Initiatives(e)[k];
    var challenged, qualifying := Suppliers(e.strategies, Challenge), Suppliers(e.strategies, Qualify);
    if k < |Upstream(e)| {
      assert i in Upstream(e);
      UpstreamIsQuiet(e, i);
    } else if k < |Upstream(e)| + |Downstream(e)| {
      assert i == Downstream(e)[k - |Upstream(e)|];
      TagsTellKindsApart(challenged[0], "", qualifying);
    } else {
      assert i == Investigations(e)[k - |Upstream(e)| - |Downstream(e)|];
      InvestigationsAreQuiet(e, i);
    }
  }

  lemma {:induction false} QualifierIsListed(ss: seq<SupplierStrategy>, supplier: string)
    requires supplier in Suppliers(ss, Qualify)
    ensures exists i :: i in ForSuppliers(ss) && i.name == QualifyName(supplier)
  {
    var front, last := ss[..|ss| - 1], ss[|ss| - 1];
    if supplier in Suppliers(front, Qualify) {
      QualifierIsListed(front, supplier);
    } else {
      assert ForSupplier(last)[0] in ForSuppliers(ss) && ForSupplier(last)[0].name == QualifyName(supplier);
    }
  }

  // ----- the order -----

  predicate DependencyIsSettledBefore(all: seq<Initiative>, k: nat, name: string)
    requires k < |all|
  {
    && (exists j :: 0 <= j < |all| && all[j].name == name && ComesBefore(all, j, k))
    && (forall j :: 0 <= j < |all| && all[j].name == name ==> ComesBefore(all, j, k))
  }

  lemma NamedIsListed(e: Evidence, i: Initiative) returns (j: nat)
    requires i in Upstream(e)
    ensures j < |Upstream(e)| && Initiatives(e)[j] == i
  {
    InitiativesSplit(e);
    j :| 0 <= j < |Upstream(e)| && Upstream(e)[j] == i;
  }

  /** A qualification or the price check comes before anything planned for year 1. */
  lemma GroundworkComesFirst(e: Evidence, j: nat, k: nat)
    requires j < |Initiatives(e)| && k < |Initiatives(e)| && Initiatives(e)[k].horizon == Year1
    requires Tag(Initiatives(e)[j].name) == "Comp" || Tag(Initiatives(e)[j].name) == "Run "
    ensures ComesBefore(Initiatives(e), j, k)
  {
    EveryInitiativeIsWellShaped(e, j);
  }

  lemma GroundworkSettles(e: Evidence, k: nat, i: Initiative)
    requires k < |Initiatives(e)| && Initiatives(e)[k].horizon == Year1
    requires i in Upstream(e) && (Tag(i.name) == "Comp" || Tag(i.name) == "Run ")
    ensures DependencyIsSettledBefore(Initiatives(e), k, i.name)
  {
    var all := Initiatives(e);
    forall j | 0 <= j < |all| && all[j].name == i.name ensures ComesBefore(all, j, k) {
      GroundworkComesFirst(e, j, k);
    }
    var j := NamedIsListed(e, i);
    assert all[j].name == i.name && ComesBefore(all, j, k);
  }

  lemma DownstreamPlaces(e: Evidence)
    requires Downstream(e) != []
    ensures |Downstream(e)| == 2 && |Upstream(e)| + 1 < |Initiatives(e)|
    ensures Initiatives(e)[|Upstream(e)|] == Downstream(e)[0] && Initiatives(e)[|Upstream(e)| + 1] == Downstream(e)[1]
    ensures Initiatives(e)[|Upstream(e)|].horizon == Year1 && Initiatives(e)[|Upstream(e)| + 1].horizon == Year1
  {
    InitiativesSplit(e);
  }

  lemma QualificationIsPlanned(e: Evidence, supplier: string) returns (i: Initiative)
    requires supplier in Suppliers(e.strategies, Qualify)
    ensures i in Upstream(e) && i.name == QualifyName(supplier) && Tag(i.name) == "Comp"
  {
    TagsTellKindsApart(supplier, "", []);
    QualifierIsListed(e.strategies, supplier);
    i :| i in ForSuppliers(e.strategies) && i.name == QualifyName(supplier);
  }

  lemma LeverageWaitsForQualification(e: Evidence, name: string)
    requires Downstream(e) != [] && name in Downstream(e)[0].dependsOn
    ensures DependencyIsSettledBefore(Initiatives(e), |Upstream(e)|, name)
  {
    DownstreamPlaces(e);
    var qualifying := Suppliers(e.strategies, Qualify);
    var q :| 0 <= q < |qualifying| && name == QualifyName(qualifying[q]);
    var i := QualificationIsPlanned(e, qualifying[q]);
    GroundworkSettles(e, |Upstream(e)|, i);
  }

  /** The leverage initiative is the only one of its name. */
  lemma LeverageIsUnique(e: Evidence, j: nat)
    requires Downstream(e) != [] && j < |Initiatives(e)| && Initiatives(e)[j].name == Downstream(e)[0].name
    ensures j == |Upstream(e)|
  {
    var challenged, qualifying := Suppliers(e.strategies, Challenge), Suppliers(e.strategies, Qualify);
    TagsTellKindsApart(challenged[0], "", qualifying);
    DownstreamPlaces(e);
    EveryInitiativeIsWellShaped(e, j);
  }

  lemma ContractWaitsForLeverage(e: Evidence, name: string)
    requires Downstream(e) != [] && name in Downstream(e)[1].dependsOn
    ensures DependencyIsSettledBefore(Initiatives(e), |Upstream(e)| + 1, name)
  {
    DownstreamPlaces(e);
    var all, k := Initiatives(e), |Upstream(e)| + 1;
    if name == Downstream(e)[0].name {
      forall j | 0 <= j < |all| && all[j].name == name ensures ComesBefore(all, j, k) { LeverageIsUnique(e, j); }
      assert all[k - 1].name == name && ComesBefore(all, k - 1, k);
    } else {
      OpeningTags();
      assert name == BASELINE && Baseline(e)[0].name == BASELINE && Baseline(e)[0] in Upstream(e);
      GroundworkSettles(e, k, Baseline(e)[0]);
    }
  }

  lemma DependenciesAreSettledBefore(e: Evidence, k: nat, name: string)
    requires k < |Initiatives(e)| && name in Initiatives(e)[k].dependsOn
    ensures DependencyIsSettledBefore(Initiatives(e), k, name)
  {
    InitiativesSplit(e);
    EveryInitiativeIsWellShaped(e, k);
    if k == |Upstream(e)| {
      assert Initiatives(e)[k] == Downstream(e)[0];
      LeverageWaitsForQualification(e, name);
    } else {
      assert k == |Upstream(e)| + 1 && Initiatives(e)[k] == Downstream(e)[1];
      ContractWaitsForLeverage(e, name);
    }
  }

  /** The reading follows dependencies wherever the initiatives' order does. */
  lemma ReadingFollowsOrder(all: seq<Initiative>, k: nat, name: string)
    requires k < |all| && DependencyIsSettledBefore(all, k, name)
    ensures exists q :: 0 <= q < Slot(all, k) && q < |Reading(all)| && Reading(all)[q].name == name
    ensures forall q :: Slot(all, k) <= q < |Reading(all)| ==> Reading(all)[q].name != name
  {
    var j :| 0 <= j < |all| && all[j].name == name && ComesBefore(all, j, k);
    SlotHoldsInitiative(all, j);
    SlotsFollowOrder(all, j, k);
    assert Reading(all)[Slot(all, j)].name == name;
    forall q | Slot(all, k) <= q < |Reading(all)| ensures Reading(all)[q].name != name {
      var i := EveryEntryIsAnInitiative(all, q);
      if all[i].name == name { SlotsFollowOrder(all, i, k); }
    }
  }

  /** The main result: in the roadmap built from any evidence, every name an
      entry depends on is an entry placed strictly earlier, and no entry of that
      name stands at or after it, so the dependency graph has no cycle even when
      names repeat. */
  lemma ReadingIsTopological(e: Evidence, p: nat, name: string)
    requires p < |Reading(Initiatives(e))| && name in Reading(Initiatives(e))[p].dependsOn
    ensures exists q :: 0 <= q < p && Reading(Initiatives(e))[q].name == name
    ensures forall q :: p <= q < |Reading(Initiatives(e))| ==> Reading(Initiatives(e))[q].name != name
  {
    var k := EveryEntryIsAnInitiative(Initiatives(e), p);
    DependenciesAreSettledBefore(e, k, name);
    ReadingFollowsOrder(Initiatives(e), k, name);
  }

  /** Between any two entries of the roadmap, one blocks the other exactly when
      some entry of the other's name depends on it. */
  lemma BlocksMirrorDependencies(all: seq<Initiative>, p: nat, other: string)
    requires p < |Reading(all)|
    ensures other in Reading(all)[p].blocks <==>
            exists q :: 0 <= q < |Reading(all)| && Reading(all)[q].name == other
                        && Reading(all)[p].name in Reading(all)[q].dependsOn
  {
    var reading := Reading(all);
    var k := EveryEntryIsAnInitiative(all, p);
    BlocksIsConverse(all, all[k].name, other);
    if other in reading[p].blocks {
      var i :| 0 <= i < |all| && all[i].name == other && all[k].name in all[i].dependsOn;
      SlotHoldsInitiative(all, i);
      assert reading[Slot(all, i)] == EntryOf(all[i], all);
    }
    if q :| 0 <= q < |reading| && reading[q].name == other && reading[p].name in reading[q].dependsOn {
      var i := EveryEntryIsAnInitiative(all, q);
      assert all[i].name == other;
    }
  }
}
