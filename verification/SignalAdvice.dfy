/** The first investigation in closed form: which hypothesis the ranked search over
    the whole list comes down to. */
module SignalAdvice {
  import opened Options
  import opened Signal
  import opened SignalTheorems

  // ----- the questions that can be open -----

  predicate PriceIsUnknown(p: Picture) { p.spendGrowth.Some? && p.volumeGrowth.Some? && p.unitPriceGrowth.None? }

  predicate SpecificationIsOpen(p: Picture) {
    p.specChanged && p.spendGrowth.Some? && (p.volumeGrowth.Some? || p.spendGrowth.value != 0.0)
  }

  /** The movement in this dimension is material and nothing explains it. */
  predicate Unexplained(p: Picture, kind: Kind) {
    match kind
    case SpendVolume =>
      && p.spendGrowth.Some? && p.volumeGrowth.Some? && p.spendGrowth.value > p.volumeGrowth.value
      && (p.unitPriceGrowth.None? || p.unitPriceGrowth.value <= 0.0)
    case Otif => p.otif.Some? && p.otif.value.value < 0.0
    case Defect => p.defect.Some? && p.defect.value.value > 0.0
    case Concentration => p.share.Some? && p.share.value.value > 0.0
    case MarketDivergence => p.text.marketDiverges
    case _ => false
  }

  /** The size of a movement in percentage points; a market divergence has none. */
  function Size(p: Picture, kind: Kind): real
    requires Unexplained(p, kind)
  {
    match kind
    case SpendVolume => p.spendGrowth.value - p.volumeGrowth.value
    case Otif => -p.otif.value.value
    case Defect => p.defect.value.value
    case Concentration => p.share.value.value
    case _ => 0.0
  }

  /** Current spend and its growth give the movement in money. */
  predicate SpendIsQuantified(p: Picture) {
    p.currentSpend.Some? && p.spendGrowth.Some? && p.spendGrowth.value != -100.0
  }

  /** Place in which equally large movements are taken up. */
  function Turn(kind: Kind): nat {
    match kind
    case SpendVolume => 0
    case Otif => 1
    case Defect => 2
    case Concentration => 3
    case SpecChange => 4
    case MarketDivergence => 5
    case SpendOnly => 6
  }

  /** The movement to look into first: a spend movement known in money; else the
      largest, and of equally large ones the first in turn. */
  ghost predicate ComesFirst(p: Picture, kind: Kind) {
    && Unexplained(p, kind)
    && (Unexplained(p, SpendVolume) && SpendIsQuantified(p) ==> kind == SpendVolume)
    && (!(Unexplained(p, SpendVolume) && SpendIsQuantified(p)) ==>
          forall other :: Unexplained(p, other) && other != kind ==>
            Size(p, other) < Size(p, kind) || (Size(p, other) == Size(p, kind) && Turn(kind) < Turn(other)))
  }

  /** What is asked about it first. */
  function Question(kind: Kind): Hypothesis {
    Hypothesis(if kind == SpendVolume then MixShift else OneOffEvent, Unknown, kind, true, false)
  }

  const SPECIFICATION := Hypothesis(SpecificationExplains, PartiallySupported, SpecChange, false, false)

  // ----- the shape of an open hypothesis -----

  lemma ExplainedSpend(p: Picture)
    requires HasSpendAndVolume(p)
    ensures Explained(Hypotheses(p), SpendVolume) <==> p.unitPriceGrowth.Some? && p.unitPriceGrowth.value > 0.0
  {
    var hs, own := Hypotheses(p), SpendVolumeHypotheses(p);
    assert hs[0] == own[0];
    if Explained(hs, SpendVolume) {
      var h := ExplainedByMember(p, SpendVolume);
      HypothesisShape(p, h);
    }
  }

  lemma OthersAreNotExplained(p: Picture, kind: Kind)
    requires OnlyGeneric(kind)
    ensures !Explained(Hypotheses(p), kind)
  {
    if Explained(Hypotheses(p), kind) {
      var h := ExplainedByMember(p, kind);
      HypothesisShape(p, h);
    }
  }

  /** A generic hypothesis is open exactly when its dimension is unexplained. */
  lemma GenericIsOpenIff(p: Picture, h: Hypothesis)
    requires h in Hypotheses(p) && h.generic
    ensures IsUnresolved(p, Hypotheses(p), h) <==> Unexplained(p, h.dimension)
  {
    HypothesisShape(p, h);
    if h.dimension == SpendVolume {
      if HasSpendAndVolume(p) { ExplainedSpend(p); }
    } else if OnlyGeneric(h.dimension) {
      OthersAreNotExplained(p, h.dimension);
    }
  }

  lemma OpenNeeds(p: Picture, hs: seq<Hypothesis>, h: Hypothesis)
    requires IsUnresolved(p, hs, h)
    ensures h.status == Unknown || h.status == PartiallySupported
    ensures h.gatesOthers || h.status == PartiallySupported || Material(p, h.dimension)
  {}

  lemma OpenShape(p: Picture, h: Hypothesis)
    requires h in Hypotheses(p) && IsUnresolved(p, Hypotheses(p), h)
    ensures h.gatesOthers ==> PriceIsUnknown(p)
    ensures !h.gatesOthers && !h.generic ==> h == SPECIFICATION && SpecificationIsOpen(p)
    ensures h.generic ==> !h.gatesOthers && h.status == Unknown && Unexplained(p, h.dimension)
  {
    OpenNeeds(p, Hypotheses(p), h);
    HypothesisShape(p, h);
    if h.generic {
      GenericIsOpenIff(p, h);
    } else if h in OtherHypotheses(Dimensions(p)) {
      OtherShape(p, h);
    } else {
      OpenCostShape(p, h);
    }
  }

  lemma OpenCostShape(p: Picture, h: Hypothesis)
    requires h in SpendVolumeHypotheses(p) || h in SpecificationHypotheses(p)
    requires h.status == Unknown || h.status == PartiallySupported
    requires h.gatesOthers || h.status == PartiallySupported || Material(p, h.dimension)
    ensures h.gatesOthers ==> PriceIsUnknown(p)
    ensures !h.gatesOthers && !h.generic ==> h == SPECIFICATION && SpecificationIsOpen(p)
  {}

  /** All generic hypotheses of a dimension rank alike. */
  lemma GenericRank(p: Picture, h: Hypothesis)
    requires h.generic && !h.gatesOthers && h.status == Unknown && Unexplained(p, h.dimension)
    ensures var r := RankOf(p, h);
            && r.feasibility == 1 && r.status == 1
            && (h.dimension == SpendVolume && SpendIsQuantified(p) ==> r.tier == 1)
            && (!(h.dimension == SpendVolume && SpendIsQuantified(p)) ==> r.tier == 2 && r.size == Size(p, h.dimension))
  {}

  lemma SameDimensionSameRank(p: Picture, g: Hypothesis, h: Hypothesis)
    requires g.generic && !g.gatesOthers && g.status == Unknown && h.generic && !h.gatesOthers && h.status == Unknown
    requires g.dimension == h.dimension
    ensures RankOf(p, g) == RankOf(p, h)
  {}

  // ----- where the questions stand in the list -----

  predicate OrderedBelow(dims: seq<Dimension>, bound: nat) {
    && (forall i, j :: 0 <= i < j < |dims| ==> Turn(dims[i].kind) < Turn(dims[j].kind))
    && (forall i :: 0 <= i < |dims| ==> Turn(dims[i].kind) < bound)
  }

  /** At most one dimension, of the given kind. */
  predicate IsPart(part: seq<Dimension>, kind: Kind) { part == [] || (|part| == 1 && part[0].kind == kind) }

  lemma OneMoreKind(a: seq<Dimension>, b: seq<Dimension>, kind: Kind, ab: seq<Dimension>)
    requires OrderedBelow(a, Turn(kind)) && IsPart(b, kind) && ab == a + b
    ensures OrderedBelow(ab, Turn(kind) + 1)
  {}

  /** The dimensions a hypothesis other than the cost ones can be about. */
  function NonCost(p: Picture): seq<Dimension> {
    ChangeDimension(Otif, p.otif) + ChangeDimension(Defect, p.defect) + ChangeDimension(Concentration, p.share)
    + FlagDimension(SpecChange, p.specChanged) + FlagDimension(MarketDivergence, p.text.marketDiverges)
  }

  lemma PartsAreOrdered(a: seq<Dimension>, b: seq<Dimension>, c: seq<Dimension>, d: seq<Dimension>, e: seq<Dimension>)
    requires IsPart(a, Otif) && IsPart(b, Defect) && IsPart(c, Concentration) && IsPart(d, SpecChange) && IsPart(e, MarketDivergence)
    ensures OrderedBelow(a + b + c + d + e, 6)
  {
    var ab := a + b;
    var abc := ab + c;
    var abcd := abc + d;
    OneMoreKind([], a, Otif, a);
    OneMoreKind(a, b, Defect, ab);
    OneMoreKind(ab, c, Concentration, abc);
    OneMoreKind(abc, d, SpecChange, abcd);
    OneMoreKind(abcd, e, MarketDivergence, abcd + e);
  }

  lemma ChangeIsPart(kind: Kind, change: Option<Fact>)
    ensures IsPart(ChangeDimension(kind, change), kind)
  {}

  lemma FlagIsPart(kind: Kind, present: bool)
    ensures IsPart(FlagDimension(kind, present), kind)
  {}

  lemma NonCostIsOrdered(p: Picture)
    ensures OrderedBelow(NonCost(p), 6)
  {
    ChangeIsPart(Otif, p.otif);
    ChangeIsPart(Defect, p.defect);
    ChangeIsPart(Concentration, p.share);
    FlagIsPart(SpecChange, p.specChanged);
    FlagIsPart(MarketDivergence, p.text.marketDiverges);
    PartsAreOrdered(ChangeDimension(Otif, p.otif), ChangeDimension(Defect, p.defect), ChangeDimension(Concentration, p.share),
                    FlagDimension(SpecChange, p.specChanged), FlagDimension(MarketDivergence, p.text.marketDiverges));
  }

  lemma {:induction false} OtherOfSum(a: seq<Dimension>, b: seq<Dimension>)
    ensures OtherHypotheses(a + b) == OtherHypotheses(a) + OtherHypotheses(b)
    decreases |b|
  {
    if b == [] {
      assert a + b == a;
    } else {
      assert (a + b)[..|a + b| - 1] == a + b[..|b| - 1];
      OtherOfSum(a, b[..|b| - 1]);
    }
  }

  lemma CostGetsNoPair(p: Picture)
    ensures OtherHypotheses(Dimensions(p)) == OtherHypotheses(NonCost(p))
  {
    var cost := CostDimension(p);
    assert Dimensions(p) == NonCost(p) + cost;
    OtherOfSum(NonCost(p), cost);
    assert OtherHypotheses(cost) == [] by {
      if cost != [] {
        assert cost[..|cost| - 1] == [] && !GetsGenericPair(cost[0].kind);
      }
    }
  }

  /** The pair of dimension `m` follows the pairs of the dimensions before it. */
  lemma PairStandsAt(dims: seq<Dimension>, m: nat)
    requires m < |dims| && GetsGenericPair(dims[m].kind)
    ensures var k := |OtherHypotheses(dims[..m])|;
            k + 1 < |OtherHypotheses(dims)| && OtherHypotheses(dims)[k] == GenericPair(dims[m].kind)[0]
  {
    var head, tail := dims[..m + 1], dims[m + 1..];
    assert dims == head + tail && head[..m] == dims[..m];
    OtherOfSum(head, tail);
  }

  lemma {:induction false} HypothesisHasDimension(dims: seq<Dimension>, j: nat) returns (m: nat)
    requires j < |OtherHypotheses(dims)|
    ensures m < |dims| && GetsGenericPair(dims[m].kind)
    ensures |OtherHypotheses(dims[..m])| <= j < |OtherHypotheses(dims[..m])| + 2
    ensures OtherHypotheses(dims)[j] == GenericPair(dims[m].kind)[j - |OtherHypotheses(dims[..m])|]
  {
    var front := dims[..|dims| - 1];
    if j < |OtherHypotheses(front)| {
      m := HypothesisHasDimension(front, j);
      assert dims[..m] == front[..m];
    } else {
      m := |dims| - 1;
    }
  }

  lemma FewerDimensionsFewerPairs(dims: seq<Dimension>, l: nat, m: nat)
    requires l < m <= |dims| && GetsGenericPair(dims[l].kind)
    ensures |OtherHypotheses(dims[..l])| + 2 <= |OtherHypotheses(dims[..m])|
  {
    assert dims[..m] == dims[..l] + dims[l..m] && dims[l..m] == [dims[l]] + dims[l + 1..m];
    OtherOfSum(dims[..l], dims[l..m]);
    OtherOfSum([dims[l]], dims[l + 1..m]);
    assert [dims[l]][..0] == [];
  }

  lemma PartAt<T>(a: seq<T>, b: seq<T>, c: seq<T>, i: nat)
    requires i < |a + b + c|
    ensures (a + b + c)[i] == if i < |a| then a[i] else if i < |a| + |b| then b[i - |a|] else c[i - |a| - |b|]
  {}

  /** Before an entry of the list about one dimension stands the question about
      that dimension, and the question about any dimension whose turn is earlier. */
  lemma QuestionStandsBefore(p: Picture, i: nat, kind: Kind) returns (k: nat)
    requires i < |Hypotheses(p)| && Hypotheses(p)[i].generic
    requires Unexplained(p, kind) && Turn(kind) <= Turn(Hypotheses(p)[i].dimension)
    ensures k <= i && Hypotheses(p)[k] == Question(kind)
  {
    if kind == SpendVolume {
      k := 1;
      SpendQuestionStandsBefore(p, i);
    } else {
      k := LaterQuestionStandsBefore(p, i, kind);
    }
  }

  lemma SpendQuestionStandsBefore(p: Picture, i: nat)
    requires i < |Hypotheses(p)| && Hypotheses(p)[i].generic && HasSpendAndVolume(p)
    ensures 1 <= i && Hypotheses(p)[1] == Question(SpendVolume)
  {
    var own, spec, others := SpendVolumeHypotheses(p), SpecificationHypotheses(p), OtherHypotheses(Dimensions(p));
    OwnQuestions(p);
    PartAt(own, spec, others, 0);
    PartAt(own, spec, others, 1);
  }

  lemma LaterQuestionStandsBefore(p: Picture, i: nat, kind: Kind) returns (k: nat)
    requires i < |Hypotheses(p)| && Hypotheses(p)[i].generic
    requires Unexplained(p, kind) && kind != SpendVolume && Turn(kind) <= Turn(Hypotheses(p)[i].dimension)
    ensures k <= i && Hypotheses(p)[k] == Question(kind)
  {
    var own, spec, others := SpendVolumeHypotheses(p), SpecificationHypotheses(p), OtherHypotheses(Dimensions(p));
    var start := |own| + |spec|;
    PartAt(own, spec, others, i);
    OwnPartsAreAboutCost(p);
    CostGetsNoPair(p);
    k := OtherQuestionStandsBefore(p, i - start, kind);
    k := start + k;
    PartAt(own, spec, others, k);
  }

  lemma OwnQuestions(p: Picture)
    requires HasSpendAndVolume(p)
    ensures |SpendVolumeHypotheses(p)| == 4
    ensures !SpendVolumeHypotheses(p)[0].generic && SpendVolumeHypotheses(p)[1] == Question(SpendVolume)
  {}

  lemma OwnPartsAreAboutCost(p: Picture)
    ensures forall i :: 0 <= i < |SpendVolumeHypotheses(p)| ==> SpendVolumeHypotheses(p)[i].dimension == SpendVolume
    ensures forall i :: 0 <= i < |SpecificationHypotheses(p)| ==> !SpecificationHypotheses(p)[i].generic
  {}

  lemma OtherQuestionStandsBefore(p: Picture, j: nat, kind: Kind) returns (k: nat)
    requires j < |OtherHypotheses(NonCost(p))|
    requires Unexplained(p, kind) && kind != SpendVolume && Turn(kind) <= Turn(OtherHypotheses(NonCost(p))[j].dimension)
    ensures k <= j && OtherHypotheses(NonCost(p))[k] == Question(kind)
  {
    var dims := NonCost(p);
    var m := HypothesisHasDimension(dims, j);
    var l := PresentHasPlace(p, kind);
    NonCostIsOrdered(p);
    PairHasKind(dims[m].kind);
    k := |OtherHypotheses(dims[..l])|;
    EarlierPairStandsBefore(dims, l, m, j);
  }

  lemma EarlierPairStandsBefore(dims: seq<Dimension>, l: nat, m: nat, j: nat)
    requires OrderedBelow(dims, 6) && l < |dims| && m < |dims| && Turn(dims[l].kind) <= Turn(dims[m].kind)
    requires GetsGenericPair(dims[l].kind) && |OtherHypotheses(dims[..m])| <= j < |OtherHypotheses(dims)|
    ensures var k := |OtherHypotheses(dims[..l])|; k <= j && OtherHypotheses(dims)[k] == GenericPair(dims[l].kind)[0]
  {
    assert l <= m;
    PairStandsAt(dims, l);
    if l < m { FewerDimensionsFewerPairs(dims, l, m); }
  }

  lemma PairHasKind(kind: Kind)
    ensures GenericPair(kind)[0].dimension == kind && GenericPair(kind)[1].dimension == kind
  {}

  lemma PresentHasPlace(p: Picture, kind: Kind) returns (l: nat)
    requires Unexplained(p, kind) && kind != SpendVolume
    ensures l < |NonCost(p)| && NonCost(p)[l].kind == kind && GetsGenericPair(kind)
  {
    DimensionsPresent(p, kind);
    assert Dimensions(p) == NonCost(p) + CostDimension(p);
    HasKindOfSum(NonCost(p), CostDimension(p), kind);
    CostKinds(p, kind);
    l :| 0 <= l < |NonCost(p)| && NonCost(p)[l].kind == kind;
  }

  lemma CostKinds(p: Picture, kind: Kind)
    requires GetsGenericPair(kind)
    ensures !HasKind(CostDimension(p), kind)
  {}

  // ----- the advice -----

  lemma SpecificationIsListed(p: Picture)
    requires SpecificationIsOpen(p)
    ensures SPECIFICATION in Hypotheses(p) && IsUnresolved(p, Hypotheses(p), SPECIFICATION)
  {
    assert SpecificationHypotheses(p)[0] == SPECIFICATION;
    assert SPECIFICATION in SpecificationHypotheses(p);
  }

  lemma QuestionIsListed(p: Picture, kind: Kind)
    requires Unexplained(p, kind)
    ensures Question(kind) in Hypotheses(p) && IsUnresolved(p, Hypotheses(p), Question(kind))
  {
    if kind == SpendVolume {
      assert SpendVolumeHypotheses(p)[1] == Question(kind);
      assert Question(kind) in SpendVolumeHypotheses(p);
    } else {
      var l := PresentHasPlace(p, kind);
      CostGetsNoPair(p);
      PairStandsAt(NonCost(p), l);
      assert Question(kind) in OtherHypotheses(Dimensions(p));
    }
    GenericIsOpenIff(p, Question(kind));
  }

  lemma SpecificationIsChosen(p: Picture)
    requires SpecificationIsOpen(p) && !PriceIsUnknown(p)
    ensures AdviceFor(p, Hypotheses(p)) == Resolve(SPECIFICATION)
  {
    SpecificationIsListed(p);
    NothingPrecedesTheChosen(p, Hypotheses(p), SPECIFICATION);
    var best := ChosenIsUnresolved(p, Hypotheses(p));
    OpenShape(p, best);
    if best.generic { GenericRank(p, best); }
  }

  /** The chosen entry, seen from its place. */
  ghost predicate IsChosenAt(p: Picture, i: nat) {
    var hs := Hypotheses(p);
    && i < |hs| && IsUnresolved(p, hs, hs[i]) && hs[i].generic
    && (forall h :: h in hs && IsUnresolved(p, hs, h) ==> !Precedes(RankOf(p, h), RankOf(p, hs[i])))
    && (forall k :: 0 <= k < i && IsUnresolved(p, hs, hs[k]) ==> Precedes(RankOf(p, hs[i]), RankOf(p, hs[k])))
  }

  lemma TheChosenIsResolved(p: Picture, hs: seq<Hypothesis>, best: Hypothesis)
    requires Unresolved(p, hs, hs) != [] && best == Unresolved(p, hs, hs)[LeastIndex(p, Unresolved(p, hs, hs))]
    requires !best.gatesOthers && RankOf(p, best).tier != 3
    ensures AdviceFor(p, hs) == Resolve(best)
  {}

  lemma NothingPrecedes(p: Picture, hs: seq<Hypothesis>, best: Hypothesis)
    requires Unresolved(p, hs, hs) != [] && best == Unresolved(p, hs, hs)[LeastIndex(p, Unresolved(p, hs, hs))]
    ensures forall h :: h in hs && IsUnresolved(p, hs, h) ==> !Precedes(RankOf(p, h), RankOf(p, best))
  {
    forall h | h in hs && IsUnresolved(p, hs, h) ensures !Precedes(RankOf(p, h), RankOf(p, best)) {
      NothingPrecedesTheChosen(p, hs, h);
    }
  }

  lemma ChosenIsThere(p: Picture) returns (i: nat)
    requires Unresolved(p, Hypotheses(p), Hypotheses(p)) != []
    requires !PriceIsUnknown(p) && !SpecificationIsOpen(p)
    ensures IsChosenAt(p, i) && AdviceFor(p, Hypotheses(p)) == Resolve(Hypotheses(p)[i])
  {
    var hs := Hypotheses(p);
    var best := ChosenIsUnresolved(p, hs);
    i := ChosenStandsFirst(p, hs);
    OpenShape(p, best);
    GenericRank(p, best);
    TheChosenIsResolved(p, hs, best);
    NothingPrecedes(p, hs, best);
  }

  /** Nothing else open, the chosen hypothesis is about the movement that comes first. */
  lemma LargestMovementIsChosen(p: Picture, kind: Kind) returns (first: Kind)
    requires !PriceIsUnknown(p) && !SpecificationIsOpen(p) && Unexplained(p, kind)
    ensures ComesFirst(p, first) && AdviceFor(p, Hypotheses(p)) == Resolve(Question(first))
  {
    QuestionIsListed(p, kind);
    OpenQuestionShows(p, Question(kind));
    var i := ChosenIsThere(p);
    TheChosenIsTheQuestion(p, i);
    first := Hypotheses(p)[i].dimension;
    OpenShape(p, Hypotheses(p)[i]);
    forall other | Unexplained(p, other) && other != first ensures Outranks(p, first, other) {
      TheChosenOutranks(p, i, other);
    }
    OutrankingComesFirst(p, first);
  }

  /** How one unexplained movement goes before another. */
  ghost predicate Outranks(p: Picture, kind: Kind, other: Kind)
    requires Unexplained(p, kind) && Unexplained(p, other)
  {
    if kind == SpendVolume && SpendIsQuantified(p) then true
    else if other == SpendVolume && SpendIsQuantified(p) then false
    else Size(p, other) < Size(p, kind) || (Size(p, other) == Size(p, kind) && Turn(kind) < Turn(other))
  }

  lemma OutrankingComesFirst(p: Picture, kind: Kind)
    requires Unexplained(p, kind)
    requires forall other :: Unexplained(p, other) && other != kind ==> Outranks(p, kind, other)
    ensures ComesFirst(p, kind)
  {
    if Unexplained(p, SpendVolume) && kind != SpendVolume { assert Outranks(p, kind, SpendVolume); }
  }

  lemma ChosenBeatsEarlier(p: Picture, i: nat, k: nat)
    requires IsChosenAt(p, i) && k < i && IsUnresolved(p, Hypotheses(p), Hypotheses(p)[k])
    ensures Precedes(RankOf(p, Hypotheses(p)[i]), RankOf(p, Hypotheses(p)[k]))
  {}

  lemma NothingBeforeAnEqual(p: Picture, i: nat, k: nat)
    requires IsChosenAt(p, i) && k <= i && IsUnresolved(p, Hypotheses(p), Hypotheses(p)[k])
    requires RankOf(p, Hypotheses(p)[i]) == RankOf(p, Hypotheses(p)[k])
    ensures k == i
  {
    if k < i { ChosenBeatsEarlier(p, i, k); }
  }

  lemma TheChosenIsTheQuestion(p: Picture, i: nat)
    requires IsChosenAt(p, i)
    ensures Hypotheses(p)[i] == Question(Hypotheses(p)[i].dimension)
  {
    var h := Hypotheses(p)[i];
    ChosenIsOpen(p, i);
    var k := QuestionStandsBefore(p, i, h.dimension);
    QuestionIsListed(p, h.dimension);
    SameDimensionSameRank(p, Question(h.dimension), h);
    NothingBeforeAnEqual(p, i, k);
  }

  lemma ChosenIsOpen(p: Picture, i: nat)
    requires IsChosenAt(p, i)
    ensures var h := Hypotheses(p)[i]; !h.gatesOthers && h.status == Unknown && Unexplained(p, h.dimension)
  {
    OpenShape(p, Hypotheses(p)[i]);
  }

  lemma TheChosenOutranks(p: Picture, i: nat, other: Kind)
    requires IsChosenAt(p, i) && Unexplained(p, other) && other != Hypotheses(p)[i].dimension
    ensures Unexplained(p, Hypotheses(p)[i].dimension) && Outranks(p, Hypotheses(p)[i].dimension, other)
  {
    var hs := Hypotheses(p);
    OpenShape(p, hs[i]);
    QuestionIsListed(p, other);
    GenericRank(p, hs[i]);
    GenericRank(p, Question(other));
    assert !Precedes(RankOf(p, Question(other)), RankOf(p, hs[i]));
    if Turn(other) < Turn(hs[i].dimension) {
      var k := QuestionStandsBefore(p, i, other);
      assert k != i;
      assert Precedes(RankOf(p, hs[i]), RankOf(p, hs[k]));
    } else {
      DifferentKindsDifferentTurns(other, hs[i].dimension);
    }
  }

  lemma DifferentKindsDifferentTurns(a: Kind, b: Kind)
    ensures Turn(a) == Turn(b) ==> a == b
  {}

  /** Whether there is anything to say about. */
  predicate NothingIsReported(p: Picture) {
    && p.otif.None? && p.defect.None? && p.share.None? && !p.specChanged && !p.text.marketDiverges
    && (p.spendGrowth.None? || (p.volumeGrowth.None? && p.spendGrowth.value == 0.0))
  }

  predicate SomethingIsMaterial(p: Picture) {
    || (p.otif.Some? && p.otif.value.value < 0.0)
    || (p.defect.Some? && p.defect.value.value > 0.0)
    || (p.share.Some? && p.share.value.value > 0.0)
    || p.text.marketDiverges
    || (p.spendGrowth.Some? && p.volumeGrowth.Some? && p.spendGrowth.value > p.volumeGrowth.value)
  }

  /** The first investigation of any case: split price, mix and volume when the
      price is unknown; else settle the specification change beside a cost
      movement; else look into the unexplained movement that comes first; and
      without any, act, wait, or say nothing. */
  ghost predicate IsAdvice(p: Picture, advice: Advice) {
    if PriceIsUnknown(p) then advice == SplitPriceMixVolume
    else if SpecificationIsOpen(p) then advice == Resolve(SPECIFICATION)
    else if exists kind :: Unexplained(p, kind) then exists kind :: ComesFirst(p, kind) && advice == Resolve(Question(kind))
    else advice == if NothingIsReported(p) then NoAdvice else if SomethingIsMaterial(p) then SufficientToAct else NotYetMaterial
  }

  lemma AdviceIs(c: SignalCase)
    ensures IsAdvice(Read(c), Answer(c).advice)
  {
    var p := Read(c);
    if PriceIsUnknown(p) {
      UnknownPriceIsSplit(p);
    } else if SpecificationIsOpen(p) {
      SpecificationIsChosen(p);
    } else if kind :| Unexplained(p, kind) {
      var first := LargestMovementIsChosen(p, kind);
      assert ComesFirst(p, first);
    } else {
      NothingToInvestigate(p);
    }
  }

  lemma UnknownPriceIsSplit(p: Picture)
    requires PriceIsUnknown(p)
    ensures AdviceFor(p, Hypotheses(p)) == SplitPriceMixVolume
  {
    var gate := SpendVolumeHypotheses(p)[0];
    assert gate in SpendVolumeHypotheses(p);
    GateIsChosen(p, Hypotheses(p), gate);
  }

  lemma NothingToInvestigate(p: Picture)
    requires !PriceIsUnknown(p) && !SpecificationIsOpen(p) && !exists kind :: Unexplained(p, kind)
    ensures AdviceFor(p, Hypotheses(p))
            == if NothingIsReported(p) then NoAdvice else if SomethingIsMaterial(p) then SufficientToAct else NotYetMaterial
  {
    NothingOpen(p);
    NothingListedIff(p);
    MaterialIff(p);
    AdviceWithoutQuestions(p, Hypotheses(p));
  }

  lemma AdviceWithoutQuestions(p: Picture, hs: seq<Hypothesis>)
    requires Unresolved(p, hs, hs) == []
    ensures AdviceFor(p, hs) == if hs == [] then NoAdvice else if AnyMaterial(p) then SufficientToAct else NotYetMaterial
  {}

  lemma MaterialIff(p: Picture)
    ensures AnyMaterial(p) <==> SomethingIsMaterial(p)
  {}

  lemma NothingOpen(p: Picture)
    requires !PriceIsUnknown(p) && !SpecificationIsOpen(p) && !exists kind :: Unexplained(p, kind)
    ensures Unresolved(p, Hypotheses(p), Hypotheses(p)) == []
  {
    if Unresolved(p, Hypotheses(p), Hypotheses(p)) != [] {
      var best := ChosenIsUnresolved(p, Hypotheses(p));
      OpenShape(p, best);
      assert false;
    }
  }

  lemma NothingListedIff(p: Picture)
    ensures Hypotheses(p) == [] <==> NothingIsReported(p)
  {
    NoOtherIff(p);
    NoNonCostIff(p);
    assert |Hypotheses(p)| == |SpendVolumeHypotheses(p)| + |SpecificationHypotheses(p)| + |OtherHypotheses(Dimensions(p))|;
  }

  lemma NoOtherIff(p: Picture)
    ensures OtherHypotheses(Dimensions(p)) == [] <==> NonCost(p) == []
  {
    var dims := NonCost(p);
    CostGetsNoPair(p);
    if dims != [] {
      EveryNonCostGetsPair(p);
      PairStandsAt(dims, 0);
    } else {
      assert OtherHypotheses([]) == [];
    }
  }

  lemma EveryNonCostGetsPair(p: Picture)
    ensures forall i :: 0 <= i < |NonCost(p)| ==> GetsGenericPair(NonCost(p)[i].kind)
  {}

  lemma NoNonCostIff(p: Picture)
    ensures NonCost(p) == [] <==> p.otif.None? && p.defect.None? && p.share.None? && !p.specChanged && !p.text.marketDiverges
  {
    assert |NonCost(p)| == |ChangeDimension(Otif, p.otif)| + |ChangeDimension(Defect, p.defect)| + |ChangeDimension(Concentration, p.share)|
                           + |FlagDimension(SpecChange, p.specChanged)| + |FlagDimension(MarketDivergence, p.text.marketDiverges)|;
  }
}
