/** What the list-building decision engine amounts to: closed forms for the
    three decision states, and the meaning of the first investigation. */
module SignalTheorems {
  import opened Options
  import opened Signal

  // ----- which hypotheses exist -----

  predicate HasKind(dims: seq<Dimension>, kind: Kind) {
    exists k :: 0 <= k < |dims| && dims[k].kind == kind
  }

  lemma {:induction false} OtherHypothesesAre(dims: seq<Dimension>, h: Hypothesis)
    ensures h in OtherHypotheses(dims) <==>
            GetsGenericPair(h.dimension) && HasKind(dims, h.dimension) && h in GenericPair(h.dimension)
  {
    if dims != [] {
      var front, last := dims[..|dims| - 1], dims[|dims| - 1];
      OtherHypothesesAre(front, h);
      assert HasKind(dims, h.dimension) <==> HasKind(front, h.dimension) || last.kind == h.dimension;
    }
  }

  lemma {:induction false} HasKindOfSum(a: seq<Dimension>, b: seq<Dimension>, kind: Kind)
    ensures HasKind(a + b, kind) <==> HasKind(a, kind) || HasKind(b, kind)
  {
    if HasKind(a, kind) {
      var k :| 0 <= k < |a| && a[k].kind == kind;
      assert (a + b)[k].kind == kind;
    } else if HasKind(b, kind) {
      var k :| 0 <= k < |b| && b[k].kind == kind;
      assert (a + b)[|a| + k].kind == kind;
    }
  }

  lemma {:induction false} DimensionsHaveKind(p: Picture, kind: Kind)
    ensures HasKind(Dimensions(p), kind) <==>
            || HasKind(ChangeDimension(Otif, p.otif), kind)
            || HasKind(ChangeDimension(Defect, p.defect), kind)
            || HasKind(ChangeDimension(Concentration, p.share), kind)
            || HasKind(FlagDimension(SpecChange, p.specChanged), kind)
            || HasKind(FlagDimension(MarketDivergence, p.text.marketDiverges), kind)
            || HasKind(CostDimension(p), kind)
  {
    var otif := ChangeDimension(Otif, p.otif);
    var defect := ChangeDimension(Defect, p.defect);
    var share := ChangeDimension(Concentration, p.share);
    var spec := FlagDimension(SpecChange, p.specChanged);
    var market := FlagDimension(MarketDivergence, p.text.marketDiverges);
    HasKindOfSum(otif, defect, kind);
    HasKindOfSum(otif + defect, share, kind);
    HasKindOfSum(otif + defect + share, spec, kind);
    HasKindOfSum(otif + defect + share + spec, market, kind);
    HasKindOfSum(otif + defect + share + spec + market, CostDimension(p), kind);
  }

  lemma ChangeHasKind(kind: Kind, change: Option<Fact>)
    ensures HasKind(ChangeDimension(kind, change), kind) <==> change.Some?
  {
    if change.Some? { assert ChangeDimension(kind, change)[0].kind == kind; }
  }

  lemma FlagHasKind(kind: Kind, present: bool)
    ensures HasKind(FlagDimension(kind, present), kind) <==> present
  {
    if present { assert FlagDimension(kind, present)[0].kind == kind; }
  }

  predicate Present(p: Picture, kind: Kind) {
    match kind
    case Otif => p.otif.Some?
    case Defect => p.defect.Some?
    case Concentration => p.share.Some?
    case SpecChange => p.specChanged
    case MarketDivergence => p.text.marketDiverges
    case _ => false
  }

  /** Which dimensions besides the cost ones are listed. */
  lemma DimensionsPresent(p: Picture, kind: Kind)
    requires GetsGenericPair(kind)
    ensures HasKind(Dimensions(p), kind) <==> Present(p, kind)
  {
    DimensionsHaveKind(p, kind);
    match kind
    case Otif => ChangeHasKind(Otif, p.otif);
    case Defect => ChangeHasKind(Defect, p.defect);
    case Concentration => ChangeHasKind(Concentration, p.share);
    case SpecChange => FlagHasKind(SpecChange, p.specChanged);
    case MarketDivergence => FlagHasKind(MarketDivergence, p.text.marketDiverges);
  }

  /** A dimension outside spend and specification only ever gets the two generic
      hypotheses, so nothing can explain it. */
  predicate OnlyGeneric(kind: Kind) {
    kind.Otif? || kind.Defect? || kind.Concentration? || kind.MarketDivergence?
  }

  lemma SpendVolumeShape(p: Picture, h: Hypothesis)
    requires h in SpendVolumeHypotheses(p)
    ensures h.dimension.SpendVolume?
    ensures h.generic ==> h.status.Unknown? && !h.gatesOthers
    ensures h.gatesOthers ==> h.status.Unknown?
  {}

  lemma SpecificationShape(p: Picture, h: Hypothesis)
    requires h in SpecificationHypotheses(p)
    ensures !h.generic && !h.gatesOthers && !OnlyGeneric(h.dimension)
    ensures h.dimension.SpendVolume? ==> h == Hypothesis(SpecificationExplains, NotSupported, SpendVolume, false, false)
  {}

  lemma OtherShape(p: Picture, h: Hypothesis)
    requires h in OtherHypotheses(Dimensions(p))
    ensures h.generic && h.status.Unknown? && !h.gatesOthers && !h.dimension.SpendVolume?
  {
    OtherHypothesesAre(Dimensions(p), h);
  }

  lemma HypothesisShape(p: Picture, h: Hypothesis)
    requires h in Hypotheses(p)
    ensures h in SpendVolumeHypotheses(p) || h in SpecificationHypotheses(p) || h in OtherHypotheses(Dimensions(p))
    ensures OnlyGeneric(h.dimension) ==> h.generic
    ensures h.generic ==> h.status.Unknown? && !h.gatesOthers
    ensures h.gatesOthers ==> h.status.Unknown? && !h.generic
    ensures h.dimension.SpendVolume? && !h.generic ==>
              h in SpendVolumeHypotheses(p) || h == Hypothesis(SpecificationExplains, NotSupported, SpendVolume, false, false)
  {
    HypothesisComesFrom(SpendVolumeHypotheses(p), SpecificationHypotheses(p), OtherHypotheses(Dimensions(p)), h);
    if h in SpendVolumeHypotheses(p) { SpendVolumeShape(p, h); }
    else if h in SpecificationHypotheses(p) { SpecificationShape(p, h); }
    else { OtherShape(p, h); }
  }

  lemma HypothesisComesFrom(a: seq<Hypothesis>, b: seq<Hypothesis>, c: seq<Hypothesis>, h: Hypothesis)
    requires h in a + b + c
    ensures h in a || h in b || h in c
  {}

  // ----- unresolved hypotheses -----

  lemma {:induction false} UnresolvedAre(p: Picture, hs: seq<Hypothesis>, among: seq<Hypothesis>, h: Hypothesis)
    ensures h in Unresolved(p, hs, among) <==> h in among && IsUnresolved(p, hs, h)
  {
    if among != [] {
      UnresolvedAre(p, hs, among[..|among| - 1], h);
      assert among == among[..|among| - 1] + [among[|among| - 1]];
    }
  }

  lemma OpenQuestionShows(p: Picture, h: Hypothesis)
    requires h in Hypotheses(p) && IsUnresolved(p, Hypotheses(p), h)
    ensures Unresolved(p, Hypotheses(p), Hypotheses(p)) != []
  {
    UnresolvedAre(p, Hypotheses(p), Hypotheses(p), h);
  }

  lemma ExplainedByMember(p: Picture, kind: Kind) returns (h: Hypothesis)
    requires Explained(Hypotheses(p), kind)
    ensures h in Hypotheses(p) && h.dimension == kind && !h.generic
    ensures h.status.Supported? || h.status.PartiallySupported?
  {
    var hs := Hypotheses(p);
    var k :| 0 <= k < |hs| && hs[k].dimension == kind && !hs[k].generic
             && (hs[k].status.Supported? || hs[k].status.PartiallySupported?);
    h := hs[k];
    assert h in hs;
  }

  lemma GenericIsListed(p: Picture, kind: Kind)
    requires GetsGenericPair(kind) && HasKind(Dimensions(p), kind)
    ensures GenericPair(kind)[0] in Hypotheses(p)
  {
    OtherHypothesesAre(Dimensions(p), GenericPair(kind)[0]);
  }

  lemma OtherDimensionStaysOpen(p: Picture, kind: Kind)
    requires OnlyGeneric(kind) && Material(p, kind)
    ensures Unresolved(p, Hypotheses(p), Hypotheses(p)) != []
  {
    DimensionsPresent(p, kind);
    GenericIsListed(p, kind);
    if Explained(Hypotheses(p), kind) {
      var h := ExplainedByMember(p, kind);
      HypothesisShape(p, h);
    }
    OpenQuestionShows(p, GenericPair(kind)[0]);
  }

  /** A real cost movement that price alone explains and nothing else disturbs. */
  predicate Settled(p: Picture) {
    && p.spendGrowth.Some? && p.volumeGrowth.Some? && p.spendGrowth.value > p.volumeGrowth.value
    && PriceGrowth(p).Some? && PriceGrowth(p).value > 0.0
    && !p.specChanged
    && !Material(p, Otif) && !Material(p, Defect) && !Material(p, Concentration) && !Material(p, MarketDivergence)
  }

  lemma SettledHypothesisIsClosed(p: Picture, h: Hypothesis)
    requires Settled(p) && h in Hypotheses(p)
    ensures h.status.Supported? || h.status.NotSupported? || (h.generic && h.status.Unknown?)
    ensures !h.gatesOthers
  {
    HypothesisShape(p, h);
    OtherHypothesesAre(Dimensions(p), h);
  }

  lemma SettledHasNoOpenQuestion(p: Picture)
    requires Settled(p)
    ensures Unresolved(p, Hypotheses(p), Hypotheses(p)) == []
  {
    var hs := Hypotheses(p);
    PriceHypothesisIsFirst(p);
    assert Explained(hs, SpendVolume);
    var open := Unresolved(p, hs, hs);
    if open != [] {
      var h := open[0];
      assert h in open;
      UnresolvedAre(p, hs, hs, h);
      SettledHypothesisIsClosed(p, h);
    }
  }

  lemma PriceHypothesisIsFirst(p: Picture)
    requires Settled(p)
    ensures Hypotheses(p) != []
    ensures Hypotheses(p)[0] == Hypothesis(PriceIncreased, Supported, SpendVolume, false, false)
  {}

  lemma SpecificationStaysOpen(p: Picture)
    requires p.specChanged && HasCostMovement(p)
    ensures Unresolved(p, Hypotheses(p), Hypotheses(p)) != []
  {
    var h := SpecificationHypotheses(p)[0];
    assert h in Hypotheses(p);
    OpenQuestionShows(p, h);
  }

  lemma UnexplainedSpendStaysOpen(p: Picture)
    requires Material(p, SpendVolume) && !p.specChanged
    requires PriceGrowth(p).None? || PriceGrowth(p).value <= 0.0
    ensures Unresolved(p, Hypotheses(p), Hypotheses(p)) != []
  {
    var hs, own := Hypotheses(p), SpendVolumeHypotheses(p);
    assert own[0] in hs && own[1] in hs;
    if PriceGrowth(p).None? {
      OpenQuestionShows(p, own[0]);
    } else {
      if Explained(hs, SpendVolume) {
        var h := ExplainedByMember(p, SpendVolume);
        HypothesisShape(p, h);
      }
      OpenQuestionShows(p, own[1]);
    }
  }

  lemma OnlySettledCasesCloseEveryQuestion(p: Picture)
    requires AnyMaterial(p) && !Settled(p)
    ensures Unresolved(p, Hypotheses(p), Hypotheses(p)) != []
  {
    if Material(p, Otif) { OtherDimensionStaysOpen(p, Otif); }
    else if Material(p, Defect) { OtherDimensionStaysOpen(p, Defect); }
    else if Material(p, Concentration) { OtherDimensionStaysOpen(p, Concentration); }
    else if Material(p, MarketDivergence) { OtherDimensionStaysOpen(p, MarketDivergence); }
    else if p.specChanged { SpecificationStaysOpen(p); }
    else { UnexplainedSpendStaysOpen(p); }
  }

  // ----- the decision state in closed form -----

  predicate NoContradiction(p: Picture) {
    !PriceClaimContradicted(p) && !OtifClaimContradicted(p)
  }

  /** ACT_NOW exactly when nothing is contradicted, spend and volume growth are
      known with spend ahead, average price growth is known and positive, no
      specification change is reported, and neither the first OTIF change falls,
      nor the first defect or share change rises, nor the market diverges. */
  lemma ActNowIff(c: SignalCase)
    ensures Answer(c).state == ActNow <==> NoContradiction(Read(c)) && Settled(Read(c))
  {
    var p := Read(c);
    if AnyMaterial(p) {
      if Settled(p) { SettledHasNoOpenQuestion(p); } else { OnlySettledCasesCloseEveryQuestion(p); }
    }
  }

  /** No first OTIF fall, defect rise or share rise, no market divergence, and
      spend not known to outgrow volume. */
  predicate Quiet(p: Picture) {
    && !p.text.marketDiverges
    && (p.otif.Some? ==> p.otif.value.value >= 0.0)
    && (p.defect.Some? ==> p.defect.value.value <= 0.0)
    && (p.share.Some? ==> p.share.value.value <= 0.0)
    && (p.spendGrowth.Some? && p.volumeGrowth.Some? ==> p.spendGrowth.value <= p.volumeGrowth.value)
  }

  lemma WatchWhateverTheHypotheses(p: Picture, hs: seq<Hypothesis>)
    ensures StateFor(p, hs) == Watch <==> NoContradiction(p) && Quiet(p)
  {}

  /** WATCH exactly when nothing is contradicted and nothing is material. */
  lemma WatchIff(c: SignalCase)
    ensures Answer(c).state == Watch <==> NoContradiction(Read(c)) && Quiet(Read(c))
  {
    WatchWhateverTheHypotheses(Read(c), Hypotheses(Read(c)));
  }

  // ----- the first investigation -----

  lemma ChosenIsUnresolved(p: Picture, hs: seq<Hypothesis>) returns (best: Hypothesis)
    requires Unresolved(p, hs, hs) != []
    ensures best == Unresolved(p, hs, hs)[LeastIndex(p, Unresolved(p, hs, hs))]
    ensures best in hs && IsUnresolved(p, hs, best)
  {
    var open := Unresolved(p, hs, hs);
    best := open[LeastIndex(p, open)];
    assert best in open;
    UnresolvedAre(p, hs, hs, best);
  }

  /** No open, decision-relevant hypothesis ranks ahead of the chosen one. */
  lemma NothingPrecedesTheChosen(p: Picture, hs: seq<Hypothesis>, other: Hypothesis)
    requires other in hs && IsUnresolved(p, hs, other)
    ensures Unresolved(p, hs, hs) != []
    ensures !Precedes(RankOf(p, other), RankOf(p, Unresolved(p, hs, hs)[LeastIndex(p, Unresolved(p, hs, hs))]))
  {
    var open := Unresolved(p, hs, hs);
    UnresolvedAre(p, hs, hs, other);
    var k :| 0 <= k < |open| && open[k] == other;
    assert !Precedes(RankOf(p, open[k]), RankOf(p, open[LeastIndex(p, open)]));
  }

  lemma GateIsChosen(p: Picture, hs: seq<Hypothesis>, gate: Hypothesis)
    requires gate in hs && gate.gatesOthers && !gate.generic && gate.status.Unknown?
    ensures AdviceFor(p, hs) == SplitPriceMixVolume
  {
    NothingPrecedesTheChosen(p, hs, gate);
    var best := ChosenIsUnresolved(p, hs);
    assert best.gatesOthers;
  }

  lemma ChosenGateIsListed(p: Picture, hs: seq<Hypothesis>) returns (gate: Hypothesis)
    requires AdviceFor(p, hs) == SplitPriceMixVolume
    ensures gate in hs && gate.gatesOthers
  {
    gate := ChosenIsUnresolved(p, hs);
  }

  /** A gating hypothesis, when present, is always the one investigated first. */
  lemma GateComesFirst(c: SignalCase)
    ensures Answer(c).advice == SplitPriceMixVolume <==>
            exists h :: h in Answer(c).hypotheses && h.gatesOthers
  {
    var p := Read(c);
    if gate :| gate in Hypotheses(p) && gate.gatesOthers {
      HypothesisShape(p, gate);
      GateIsChosen(p, Hypotheses(p), gate);
    }
    if AdviceFor(p, Hypotheses(p)) == SplitPriceMixVolume {
      var gate := ChosenGateIsListed(p, Hypotheses(p));
    }
  }

  lemma MonitoringNeeds(p: Picture, hs: seq<Hypothesis>) returns (best: Hypothesis)
    requires AdviceFor(p, hs) == MonitorRemaining
    ensures best in hs && IsUnresolved(p, hs, best) && best.generic && RankOf(p, best).tier == 3
  {
    best := ChosenIsUnresolved(p, hs);
  }

  lemma OpenGenericIsMaterial(p: Picture, hs: seq<Hypothesis>, h: Hypothesis)
    requires IsUnresolved(p, hs, h) && h.status.Unknown? && !h.gatesOthers
    ensures RankOf(p, h).tier != 3
  {}

  /** The advice to "monitor rather than launch an investigation"
      (app/pipeline/commercial_signal_profile.py:598-605) can never be given. */
  lemma MonitorAdviceIsUnreachable(c: SignalCase)
    ensures Answer(c).advice != MonitorRemaining
  {
    var p := Read(c);
    if AdviceFor(p, Hypotheses(p)) == MonitorRemaining {
      var best := MonitoringNeeds(p, Hypotheses(p));
      HypothesisShape(p, best);
      OpenGenericIsMaterial(p, Hypotheses(p), best);
      assert false;
    }
  }

  /** Where an open hypothesis stands in the whole list: the open ones before
      that place are those counted before it. */
  lemma {:induction false} PositionOfOpen(p: Picture, hs: seq<Hypothesis>, among: seq<Hypothesis>, j: nat) returns (i: nat)
    requires j < |Unresolved(p, hs, among)|
    ensures i < |among| && among[i] == Unresolved(p, hs, among)[j]
    ensures Unresolved(p, hs, among[..i]) == Unresolved(p, hs, among)[..j]
  {
    var front, last := among[..|among| - 1], among[|among| - 1];
    if j < |Unresolved(p, hs, front)| {
      i := PositionOfOpen(p, hs, front, j);
      assert among[..i] == front[..i];
    } else {
      i := |among| - 1;
    }
  }

  lemma EarlierOpenIsCountedEarlier(p: Picture, hs: seq<Hypothesis>, i: nat, j: nat, k: nat) returns (m: nat)
    requires k < i < |hs| && IsUnresolved(p, hs, hs[k])
    requires j <= |Unresolved(p, hs, hs)| && Unresolved(p, hs, hs[..i]) == Unresolved(p, hs, hs)[..j]
    ensures m < j && Unresolved(p, hs, hs)[m] == hs[k]
  {
    assert hs[..i][k] == hs[k];
    UnresolvedAre(p, hs, hs[..i], hs[k]);
    m :| 0 <= m < |Unresolved(p, hs, hs[..i])| && Unresolved(p, hs, hs[..i])[m] == hs[k];
  }

  lemma ChosenStandsFirst(p: Picture, hs: seq<Hypothesis>) returns (i: nat)
    requires Unresolved(p, hs, hs) != []
    ensures i < |hs| && hs[i] == Unresolved(p, hs, hs)[LeastIndex(p, Unresolved(p, hs, hs))]
    ensures forall k :: 0 <= k < i && IsUnresolved(p, hs, hs[k]) ==> Precedes(RankOf(p, hs[i]), RankOf(p, hs[k]))
  {
    var open := Unresolved(p, hs, hs);
    var best := LeastIndex(p, open);
    i := PositionOfOpen(p, hs, hs, best);
    forall k | 0 <= k < i && IsUnresolved(p, hs, hs[k]) ensures Precedes(RankOf(p, hs[i]), RankOf(p, hs[k])) {
      var m := EarlierOpenIsCountedEarlier(p, hs, i, best, k);
      assert Precedes(RankOf(p, open[best]), RankOf(p, open[m]));
    }
  }

  /** When the advice names a hypothesis, it is the least of the open,
      decision-relevant ones (by feasibility, then impact tier, then larger
      magnitude, then status) and, among those that tie, the earliest listed. */
  lemma AdviceResolvesTheLeast(c: SignalCase) returns (i: nat)
    requires Answer(c).advice.Resolve?
    ensures var p, hs := Read(c), Answer(c).hypotheses;
            && i < |hs| && hs[i] == Answer(c).advice.h && IsUnresolved(p, hs, hs[i])
            && (forall k :: 0 <= k < |hs| && IsUnresolved(p, hs, hs[k]) ==> !Precedes(RankOf(p, hs[k]), RankOf(p, hs[i])))
            && (forall k :: 0 <= k < i && IsUnresolved(p, hs, hs[k]) ==> Precedes(RankOf(p, hs[i]), RankOf(p, hs[k])))
  {
    var p, hs := Read(c), Hypotheses(Read(c));
    var best := ChosenIsUnresolved(p, hs);
    i := ChosenStandsFirst(p, hs);
    forall k | 0 <= k < |hs| && IsUnresolved(p, hs, hs[k]) ensures !Precedes(RankOf(p, hs[k]), RankOf(p, hs[i])) {
      NothingPrecedesTheChosen(p, hs, hs[k]);
    }
  }

  // ----- where the two outputs disagree -----

  /** The advice can say the evidence is sufficient to act on while the decision
      state says INVESTIGATE: exactly when a settled case's own text claims a
      price decrease, or an OTIF decline where OTIF improved. */
  lemma AdviceAndStateDisagreeIff(c: SignalCase)
    ensures Answer(c).advice == SufficientToAct && Answer(c).state != ActNow <==>
            Settled(Read(c)) && DeniesTheMovement(Read(c))
  {
    ActNowIff(c);
    SufficientIff(Read(c));
  }

  predicate DeniesTheMovement(p: Picture) {
    p.text.claimsPriceDecrease || (p.otif.Some? && p.otif.value.value > 0.0 && p.text.claimsOtifDeclined)
  }

  lemma SufficientIff(p: Picture)
    ensures AdviceFor(p, Hypotheses(p)) == SufficientToAct <==> Settled(p)
  {
    if Settled(p) {
      SettledHasNoOpenQuestion(p);
      PriceHypothesisIsFirst(p);
    } else if AnyMaterial(p) {
      OnlySettledCasesCloseEveryQuestion(p);
    }
  }

  /** What the advice asks for: an investigation, of one hypothesis or of the
      split between price, mix and volume. */
  predicate AsksForWork(a: Advice) { a.Resolve? || a.SplitPriceMixVolume? }

  /** A reported specification change beside a cost movement, or a spend and
      volume movement whose price part is unknown. */
  predicate CostIsUnexplained(p: Picture) {
    (p.specChanged && HasCostMovement(p)) || (HasSpendAndVolume(p) && p.unitPriceGrowth.None?)
  }

  predicate HasOpenQuestion(p: Picture) { Unresolved(p, Hypotheses(p), Hypotheses(p)) != [] }

  lemma UnexplainedCostStaysOpen(p: Picture)
    requires CostIsUnexplained(p)
    ensures HasOpenQuestion(p)
  {
    if p.specChanged && HasCostMovement(p) {
      SpecificationStaysOpen(p);
    } else {
      var own := SpendVolumeHypotheses(p);
      assert own[0] in Hypotheses(p);
      OpenQuestionShows(p, own[0]);
    }
  }

  lemma ImmaterialQuestionIsAboutCost(p: Picture, h: Hypothesis)
    requires h in Hypotheses(p) && (h.gatesOthers || h.status.PartiallySupported?)
    ensures CostIsUnexplained(p)
  {
    HypothesisShape(p, h);
    if h in OtherHypotheses(Dimensions(p)) { OtherShape(p, h); } else { CostQuestionIsUnexplained(p, h); }
  }

  lemma CostQuestionIsUnexplained(p: Picture, h: Hypothesis)
    requires h in SpendVolumeHypotheses(p) || h in SpecificationHypotheses(p)
    requires h.gatesOthers || h.status.PartiallySupported?
    ensures CostIsUnexplained(p)
  {}

  lemma NothingMaterialNoDimension(p: Picture, kind: Kind)
    requires !AnyMaterial(p)
    ensures !Material(p, kind)
  {}

  /** When some question stays open, in closed form. */
  lemma OpenQuestionIff(p: Picture)
    ensures HasOpenQuestion(p) <==> CostIsUnexplained(p) || (AnyMaterial(p) && !Settled(p))
  {
    if CostIsUnexplained(p) {
      UnexplainedCostStaysOpen(p);
    } else if Settled(p) {
      SettledHasNoOpenQuestion(p);
    } else if AnyMaterial(p) {
      OnlySettledCasesCloseEveryQuestion(p);
    } else if HasOpenQuestion(p) {
      var best := ChosenIsUnresolved(p, Hypotheses(p));
      NothingMaterialNoDimension(p, best.dimension);
      ImmaterialQuestionIsAboutCost(p, best);
    }
  }

  lemma WorkIsAskedForIff(c: SignalCase)
    ensures AsksForWork(Answer(c).advice) <==> HasOpenQuestion(Read(c))
  {
    MonitorAdviceIsUnreachable(c);
  }

  /** Nothing "worth acting OR investigating on" (app/pipeline/commercial_signal_profile.py:622-625)
      can come with an investigation to run: exactly when nothing is contradicted
      or material and the cost movement is unexplained. */
  lemma WatchAsksForWorkIff(c: SignalCase)
    ensures Answer(c).state == Watch && AsksForWork(Answer(c).advice) <==>
            NoContradiction(Read(c)) && Quiet(Read(c)) && CostIsUnexplained(Read(c))
  {
    WatchIff(c);
    WorkIsAskedForIff(c);
    OpenQuestionIff(Read(c));
  }

  /** INVESTIGATE can come without any investigation: exactly when the case
      contradicts itself and no question is open. */
  lemma InvestigateWithoutWorkIff(c: SignalCase)
    ensures Answer(c).state == Investigate && !AsksForWork(Answer(c).advice) <==>
            !NoContradiction(Read(c)) && !CostIsUnexplained(Read(c)) && (AnyMaterial(Read(c)) ==> Settled(Read(c)))
  {
    WorkIsAskedForIff(c);
    OpenQuestionIff(Read(c));
  }

  /** ACT_NOW never comes with an investigation. */
  lemma ActNowAsksForNoWork(c: SignalCase)
    ensures Answer(c).state == ActNow ==> Answer(c).advice == SufficientToAct
  {
    ActNowIff(c);
    SufficientIff(Read(c));
  }

  const SETTLED_FACTS := [
    Fact(CATEGORY, SpendGrowthPercent, 10.0, true),
    Fact(CATEGORY, VolumeGrowthPercent, 2.0, true),
    Fact(CATEGORY, UnitPriceGrowthPercent, 8.0, true)]

  lemma SettledFactsRead(text: StatedText)
    ensures var p := Read(SignalCase(SETTLED_FACTS, false, text));
            && p.spendGrowth == Some(10.0) && p.volumeGrowth == Some(2.0) && p.unitPriceGrowth == Some(8.0)
            && p.otif.None? && p.defect.None? && p.share.None? && !p.specChanged && p.text == text
  {
    LastFigureWins(SETTLED_FACTS, SpendGrowthPercent, 0);
    LastFigureWins(SETTLED_FACTS, VolumeGrowthPercent, 1);
    LastFigureWins(SETTLED_FACTS, UnitPriceGrowthPercent, 2);
    AbsentMetric(SETTLED_FACTS, OtifChangePp);
    AbsentMetric(SETTLED_FACTS, DefectRateChangePp);
    AbsentMetric(SETTLED_FACTS, SpendShareChangePp);
  }

  lemma DecreaseClaimedOnARise(c: SignalCase)
    requires Settled(Read(c)) && Read(c).text.claimsPriceDecrease
    ensures Answer(c).advice == SufficientToAct && Answer(c).state == Investigate
  {
    AdviceAndStateDisagreeIff(c);
    assert PriceClaimContradicted(Read(c));
  }

  /** A case whose text speaks of a decrease while the price went up. */
  lemma AdviceAndStateCanDisagree() returns (c: SignalCase)
    ensures Answer(c).advice == SufficientToAct && Answer(c).state == Investigate
  {
    var text := StatedText(false, false, true, false, false);
    c := SignalCase(SETTLED_FACTS, false, text);
    SettledFactsRead(text);
    DecreaseClaimedOnARise(c);
  }

  lemma {:induction false} LastFigureWins(facts: seq<Fact>, metric: Metric, i: nat)
    requires i < |facts| && facts[i].calculated && facts[i].entity == CATEGORY && facts[i].metric == metric
    requires forall k :: i < k < |facts| ==> facts[k].metric != metric
    ensures CategoryFigure(facts, metric) == Some(facts[i].value)
  {
    if i < |facts| - 1 { LastFigureWins(facts[..|facts| - 1], metric, i); }
  }

  lemma {:induction false} AbsentMetric(facts: seq<Fact>, metric: Metric)
    requires forall k :: 0 <= k < |facts| ==> facts[k].metric != metric
    ensures FirstCalculated(facts, metric) == None
  {
    if facts != [] { AbsentMetric(facts[1..], metric); }
  }
}
