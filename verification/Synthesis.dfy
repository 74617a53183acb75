/** Synthesis (app/pipeline/market_signal_intelligence.py): a third model call
    proposes impacts, each citing an evidence state; the filtering loop keeps a
    procurement translation only when structured comparison against the cited
    evidence allows it. */
module Synthesis {
  import opened Options
  import opened Texts
  import opened Evidence

  datatype ImplicationScope = Market | Supplier | Customer | Category

  datatype Implication = Implication(
    scope: ImplicationScope,
    quantity: Option<string>,
    geography: Option<string>,
    causal: bool,
    entitlement: bool)

  // One entry of the model's answer, together with what the verifier answers
  // when it is shown the translation.
  datatype Proposed = Proposed(
    dimension: string,
    finding: string,
    citedState: Option<EvidenceState>,
    translation: Option<string>,
    implication: Implication,
    verifier: Option<SecondReading>)

  datatype Impact = Impact(dimension: string, finding: string, state: EvidenceState, translation: Option<string>)

  const NO_READING := Reading("", "", None, IndustryGeneral, None, None, false, Unclear)

  // ----- the evidence an entry is compared with -----

  /** The dictionaries keyed by state keep the last finding that carries it. */
  function LastCarrying(cs: seq<Classified>, state: EvidenceState): Option<nat> {
    if cs == [] then None
    else if cs[|cs| - 1].state == state then Some(|cs| - 1)
    else LastCarrying(cs[..|cs| - 1], state)
  }

  predicate IsLastCarrying(cs: seq<Classified>, state: EvidenceState, k: nat) {
    && k < |cs| && cs[k].state == state
    && forall j :: k < j < |cs| ==> cs[j].state != state
  }

  lemma {:induction false} LastCarryingIsLast(cs: seq<Classified>, state: EvidenceState)
    ensures LastCarrying(cs, state).Some? <==> exists k :: 0 <= k < |cs| && cs[k].state == state
    ensures LastCarrying(cs, state).Some? ==> IsLastCarrying(cs, state, LastCarrying(cs, state).value)
  {
    if cs != [] && cs[|cs| - 1].state != state {
      LastCarryingIsLast(cs[..|cs| - 1], state);
      assert forall k :: 0 <= k < |cs| - 1 ==> cs[k] == cs[..|cs| - 1][k];
    }
  }

  /** A state the findings do not carry is rejected; with no findings at all
      only `UNKNOWN` may be cited. */
  predicate MayCite(cs: seq<Classified>, state: EvidenceState) {
    if cs == [] then state.Unknown? else exists k :: 0 <= k < |cs| && cs[k].state == state
  }

  function CitedReading(cs: seq<Classified>, state: EvidenceState): Reading {
    var k := LastCarrying(cs, state);
    if k.Some? && k.value < |cs| then cs[k.value].proposition else NO_READING
  }

  function CitedText(cs: seq<Classified>, state: EvidenceState, fallback: string): string {
    var k := LastCarrying(cs, state);
    if k.Some? && k.value < |cs| then cs[k.value].finding.text else fallback
  }

  // ----- the two validation layers -----

  predicate MentionsSupplier(text: string) {
    Contains(Lower(text), "supplier")
  }

  /** `validate_procurement_translation`, the literal first layer. */
  predicate PassesLiteralLayer(lex: Lexicon, translation: string, finding: string) {
    && !lex.namesCustomerOutcome(translation)
    && (lex.namesSupplierOutcome(translation) ==> MentionsSupplier(finding))
    && lex.digits(translation) <= lex.digits(finding)
  }

  predicate GeographyAllowed(lex: Lexicon, implied: Option<string>, evidence: Option<string>) {
    Truthy(evidence) ==>
      && Truthy(implied)
      && ClaimedRegions(lex, implied.value, Norm(implied.value))
         <= ClaimedRegions(lex, evidence.value, Norm(evidence.value))
  }

  /** `validate_procurement_implication`, after both risk flags are reconciled
      with the verifier's reading of the translation. */
  predicate PassesStructuredLayer(lex: Lexicon, p: Proposed, evidence: Reading, evidenceText: string)
    requires Truthy(p.translation)
  {
    var i := p.implication;
    var verifier := p.verifier;
    && !ReconcileConservatively(i.causal, if verifier.None? then None else Some(verifier.value.assertsCausation))
    && !ReconcileConservatively(i.entitlement, if verifier.None? then None else Some(verifier.value.assertsEntitlement))
    && !(lex.temporal(p.translation.value).IsCurrent?
         && (lex.temporal(evidenceText).IsHistorical? || lex.temporal(evidenceText).IsForecast?))
    && (i.scope.Customer? || i.scope.Category? ==> evidence.scope.CustomerSpecific?)
    && (i.scope.Supplier? ==> evidence.scope.SupplierSpecific? || MentionsSupplier(evidenceText))
    && (Truthy(i.quantity) ==> lex.digits(i.quantity.value) <= Tokens(lex, evidence.quantity))
    && GeographyAllowed(lex, i.geography, evidence.geography)
  }

  predicate TranslationSurvives(lex: Lexicon, cs: seq<Classified>, p: Proposed, state: EvidenceState) {
    && Truthy(p.translation)
    && PassesLiteralLayer(lex, p.translation.value, p.finding)
    && PassesStructuredLayer(lex, p, CitedReading(cs, state), CitedText(cs, state, p.finding))
  }

  predicate Kept(cs: seq<Classified>, p: Proposed) {
    p.dimension != "" && p.citedState.Some? && MayCite(cs, p.citedState.value)
  }

  function ImpactOf(lex: Lexicon, cs: seq<Classified>, p: Proposed): Impact
    requires Kept(cs, p)
  {
    var state := p.citedState.value;
    Impact(Strip(p.dimension), p.finding, state,
           if TranslationSurvives(lex, cs, p, state) then p.translation else None)
  }

  function Impacts(lex: Lexicon, cs: seq<Classified>, proposed: seq<Proposed>): seq<Impact> {
    if proposed == [] then []
    else Impacts(lex, cs, proposed[..|proposed| - 1])
         + (if Kept(cs, proposed[|proposed| - 1]) then [ImpactOf(lex, cs, proposed[|proposed| - 1])] else [])
  }

  // ----- what becomes of an entry -----

  /** An entry with a dimension, citing a state some finding carries; with no
      findings at all, citing UNKNOWN. */
  ghost predicate MustBeKept(cs: seq<Classified>, p: Proposed) {
    && p.dimension != ""
    && exists state :: p.citedState == Some(state) && if cs == [] then state == Unknown else CarriedBySome(cs, state)
  }

  ghost predicate CarriedBySome(cs: seq<Classified>, state: EvidenceState) { exists c :: c in cs && c.state == state }

  lemma KeptIff(cs: seq<Classified>, p: Proposed)
    ensures Kept(cs, p) <==> MustBeKept(cs, p)
  {
    if Kept(cs, p) && cs != [] {
      var k :| 0 <= k < |cs| && cs[k].state == p.citedState.value;
      assert cs[k] in cs;
    }
  }

  /** How many of the entries are kept. */
  ghost function KeptAmong(cs: seq<Classified>, proposed: seq<Proposed>): nat {
    if proposed == [] then 0
    else KeptAmong(cs, proposed[..|proposed| - 1]) + (if MustBeKept(cs, proposed[|proposed| - 1]) then 1 else 0)
  }

  /** Everything a translation has to pass, check by check.  Only evidence with a
      quantity, a region or a party's scope of its own bears one that has them. */
  ghost predicate PassesEveryCheckOn(lex: Lexicon, p: Proposed, evidence: Reading, text: string) {
    && p.translation.Some? && p.translation.value != ""
    && var t, i := p.translation.value, p.implication;
    && !lex.namesCustomerOutcome(t)
    && (lex.namesSupplierOutcome(t) ==> Contains(Lower(p.finding), "supplier"))
    && (forall n :: n in lex.digits(t) ==> n in lex.digits(p.finding))
    && !i.causal && !i.entitlement
    && p.verifier.Some? && !p.verifier.value.assertsCausation && !p.verifier.value.assertsEntitlement
    && (lex.temporal(t) == IsCurrent ==> lex.temporal(text) !in {IsHistorical, IsForecast})
    && (match i.scope
        case Market => true
        case Supplier => evidence.scope == SupplierSpecific || Contains(Lower(text), "supplier")
        case _ => evidence.scope == CustomerSpecific)
    && (i.quantity.Some? && i.quantity.value != "" ==>
          var stated := if evidence.quantity.Some? && evidence.quantity.value != "" then lex.digits(evidence.quantity.value) else lex.digits("");
          forall n :: n in lex.digits(i.quantity.value) ==> n in stated)
    && (evidence.geography.Some? && evidence.geography.value != "" ==>
          && i.geography.Some? && i.geography.value != ""
          && forall r :: r in RegionsNamed(lex, i.geography.value) ==> r in RegionsNamed(lex, evidence.geography.value))
  }

  /** The regions a phrase names, or the phrase itself where it names none. */
  function RegionsNamed(lex: Lexicon, g: string): set<string> {
    if lex.regions(g) == {} then {Norm(g)} else lex.regions(g)
  }

  /** The reading and text compared with: those of the last finding in that state. */
  ghost predicate IsCited(cs: seq<Classified>, p: Proposed, evidence: Reading, text: string)
    requires p.citedState.Some?
  {
    if cs == [] then evidence == Reading("", "", None, IndustryGeneral, None, None, false, Unclear) && text == p.finding else
    exists k :: 0 <= k < |cs| && IsLastCarrying(cs, p.citedState.value, k) && evidence == cs[k].proposition && text == cs[k].finding.text
  }

  lemma SurvivesIff(lex: Lexicon, cs: seq<Classified>, p: Proposed)
    requires Kept(cs, p)
    ensures var evidence, text := CitedReading(cs, p.citedState.value), CitedText(cs, p.citedState.value, p.finding);
            && IsCited(cs, p, evidence, text)
            && (TranslationSurvives(lex, cs, p, p.citedState.value) <==> PassesEveryCheckOn(lex, p, evidence, text))
  {
    LastCarryingIsLast(cs, p.citedState.value);
    if cs != [] {
      var k := LastCarrying(cs, p.citedState.value).value;
      assert IsLastCarrying(cs, p.citedState.value, k);
    }
    SurvivesOnReadingIff(lex, cs, p, CitedReading(cs, p.citedState.value), CitedText(cs, p.citedState.value, p.finding));
  }

  lemma SurvivesOnReadingIff(lex: Lexicon, cs: seq<Classified>, p: Proposed, evidence: Reading, text: string)
    requires p.citedState.Some?
    requires evidence == CitedReading(cs, p.citedState.value) && text == CitedText(cs, p.citedState.value, p.finding)
    ensures TranslationSurvives(lex, cs, p, p.citedState.value) <==> PassesEveryCheckOn(lex, p, evidence, text)
  {
    if Truthy(p.translation) {
      LiteralLayerIff(lex, p.translation.value, p.finding);
      QuantityAllowedIff(lex, p.implication.quantity, evidence.quantity);
      RegionAllowedIff(lex, p.implication.geography, evidence.geography);
    }
  }

  lemma LiteralLayerIff(lex: Lexicon, t: string, finding: string)
    ensures PassesLiteralLayer(lex, t, finding) <==>
            && !lex.namesCustomerOutcome(t)
            && (lex.namesSupplierOutcome(t) ==> Contains(Lower(finding), "supplier"))
            && (forall n :: n in lex.digits(t) ==> n in lex.digits(finding))
  {}

  lemma QuantityAllowedIff(lex: Lexicon, implied: Option<string>, quantity: Option<string>)
    ensures (Truthy(implied) ==> lex.digits(implied.value) <= Tokens(lex, quantity)) <==>
            (implied.Some? && implied.value != "" ==>
               var stated := if quantity.Some? && quantity.value != "" then lex.digits(quantity.value) else lex.digits("");
               forall n :: n in lex.digits(implied.value) ==> n in stated)
  {}

  lemma RegionAllowedIff(lex: Lexicon, implied: Option<string>, cited: Option<string>)
    ensures GeographyAllowed(lex, implied, cited) <==>
            (cited.Some? && cited.value != "" ==>
               && implied.Some? && implied.value != ""
               && forall r :: r in RegionsNamed(lex, implied.value) ==> r in RegionsNamed(lex, cited.value))
  {
    if Truthy(cited) && Truthy(implied) {
      assert ClaimedRegions(lex, implied.value, Norm(implied.value)) == RegionsNamed(lex, implied.value);
      assert ClaimedRegions(lex, cited.value, Norm(cited.value)) == RegionsNamed(lex, cited.value);
    }
  }

  /** The impact of one kept entry: nothing of it is lost but a translation that
      fails a check. */
  ghost predicate IsImpactOf(lex: Lexicon, cs: seq<Classified>, p: Proposed, impact: Impact) {
    && p.citedState == Some(impact.state) && impact.dimension == Strip(p.dimension) && impact.finding == p.finding
    && exists evidence, text :: IsCited(cs, p, evidence, text)
         && impact.translation == if PassesEveryCheckOn(lex, p, evidence, text) then p.translation else None
  }

  /** As many impacts as kept entries, each where its entry's turn comes. */
  ghost predicate HoldsImpactsOf(lex: Lexicon, cs: seq<Classified>, proposed: seq<Proposed>, impacts: seq<Impact>) {
    && |impacts| == KeptAmong(cs, proposed)
    && forall n :: 0 <= n < |proposed| && MustBeKept(cs, proposed[n]) ==>
         && KeptAmong(cs, proposed[..n]) < |impacts|
         && IsImpactOf(lex, cs, proposed[n], impacts[KeptAmong(cs, proposed[..n])])
  }

  lemma {:induction false} ImpactsFollowEntries(lex: Lexicon, cs: seq<Classified>, proposed: seq<Proposed>)
    ensures HoldsImpactsOf(lex, cs, proposed, Impacts(lex, cs, proposed))
    decreases |proposed|
  {
    if proposed != [] {
      var front, last := proposed[..|proposed| - 1], proposed[|proposed| - 1];
      ImpactsFollowEntries(lex, cs, front);
      KeptIff(cs, last);
      if Kept(cs, last) { ImpactOfKept(lex, cs, last); }
      OneMoreEntry(lex, cs, front, last, Impacts(lex, cs, front));
      assert proposed == front + [last];
    }
  }

  lemma ImpactOfKept(lex: Lexicon, cs: seq<Classified>, p: Proposed)
    requires Kept(cs, p)
    ensures IsImpactOf(lex, cs, p, ImpactOf(lex, cs, p))
  {
    SurvivesIff(lex, cs, p);
  }

  lemma {:induction false} OneMoreEntry(lex: Lexicon, cs: seq<Classified>, front: seq<Proposed>, last: Proposed, impacts: seq<Impact>)
    requires HoldsImpactsOf(lex, cs, front, impacts)
    requires Kept(cs, last) <==> MustBeKept(cs, last)
    requires Kept(cs, last) ==> IsImpactOf(lex, cs, last, ImpactOf(lex, cs, last))
    ensures HoldsImpactsOf(lex, cs, front + [last], impacts + (if Kept(cs, last) then [ImpactOf(lex, cs, last)] else []))
  {
    var all, more := front + [last], impacts + (if Kept(cs, last) then [ImpactOf(lex, cs, last)] else []);
    assert all[..|all| - 1] == front;
    forall n | 0 <= n < |all| && MustBeKept(cs, all[n])
      ensures KeptAmong(cs, all[..n]) < |more| && IsImpactOf(lex, cs, all[n], more[KeptAmong(cs, all[..n])])
    {
      if n < |front| {
        assert all[..n] == front[..n] && all[n] == front[n];
      } else {
        assert all[..n] == front;
      }
    }
  }

  /** The filtering loop of `synthesize_and_translate`: every entry that may be
      kept becomes an impact, in order, and loses at most its translation. */
  method FilterImpacts(lex: Lexicon, cs: seq<Classified>, proposed: seq<Proposed>) returns (impacts: seq<Impact>)
    ensures impacts == Impacts(lex, cs, proposed)
    ensures HoldsImpactsOf(lex, cs, proposed, impacts)
  {
    impacts := [];
    for n := 0 to |proposed|
      invariant impacts == Impacts(lex, cs, proposed[..n])
    {
      var p := proposed[n];
      assert proposed[..n + 1][..n] == proposed[..n];
      if p.dimension == "" || p.citedState.None? || !MayCite(cs, p.citedState.value) {
        continue;
      }
      var state := p.citedState.value;
      var translation := p.translation;
      if !Truthy(translation) || !PassesLiteralLayer(lex, translation.value, p.finding) {
        translation := None;
      }
      if translation.Some? {
        var evidence := CitedReading(cs, state);
        var evidenceText := CitedText(cs, state, p.finding);
        if !PassesStructuredLayer(lex, p, evidence, evidenceText) {
          translation := None;
        }
      }
      impacts := impacts + [Impact(Strip(p.dimension), p.finding, state, translation)];
    }
    assert proposed[..|proposed|] == proposed;
    ImpactsFollowEntries(lex, cs, proposed);
  }

  // ----- end to end: from raw findings to surviving translations -----

  function ClassifyAll(lex: Lexicon, fs: seq<Finding>, answers: seq<Answers>): (cs: seq<Classified>)
    requires |answers| == |fs|
    ensures |cs| == |fs|
  {
    seq(|fs|, k requires 0 <= k < |fs| => Classify(lex, fs[k], answers[k]))
  }

  /** Every impact comes from an entry that cites a state some finding carries,
      and a translation in it is that entry's, having passed both layers. */
  lemma {:induction false} ImpactsAreJustified(lex: Lexicon, cs: seq<Classified>, proposed: seq<Proposed>, i: nat)
    returns (n: nat)
    requires i < |Impacts(lex, cs, proposed)|
    ensures n < |proposed| && Kept(cs, proposed[n])
    ensures var impact, p := Impacts(lex, cs, proposed)[i], proposed[n];
            && p.citedState == Some(impact.state)
            && (impact.translation.Some? ==>
                  impact.translation == p.translation && TranslationSurvives(lex, cs, p, impact.state))
    decreases |proposed|
  {
    var front := proposed[..|proposed| - 1];
    if i < |Impacts(lex, cs, front)| {
      n := ImpactsAreJustified(lex, cs, front, i);
    } else {
      n := |proposed| - 1;
    }
  }

  /** The finding a surviving translation rests on. */
  lemma CitedFinding(lex: Lexicon, fs: seq<Finding>, answers: seq<Answers>, p: Proposed) returns (k: nat)
    requires |answers| == |fs| && fs != []
    requires Kept(ClassifyAll(lex, fs, answers), p)
    ensures k < |fs| && IsLastCarrying(ClassifyAll(lex, fs, answers), p.citedState.value, k)
    ensures CitedReading(ClassifyAll(lex, fs, answers), p.citedState.value) == Classify(lex, fs[k], answers[k]).proposition
    ensures CitedText(ClassifyAll(lex, fs, answers), p.citedState.value, p.finding) == fs[k].text
    ensures Classify(lex, fs[k], answers[k]).state == p.citedState.value
  {
    var cs := ClassifyAll(lex, fs, answers);
    LastCarryingIsLast(cs, p.citedState.value);
    k := LastCarrying(cs, p.citedState.value).value;
  }

  /** A translation that comes through both stages, from raw findings on. */
  predicate Survives(lex: Lexicon, fs: seq<Finding>, answers: seq<Answers>, p: Proposed)
    requires |answers| == |fs|
  {
    var cs := ClassifyAll(lex, fs, answers);
    Kept(cs, p) && TranslationSurvives(lex, cs, p, p.citedState.value)
  }

  /** A claim about the customer or the category rests on a finding, the last
      carrying the cited state, that the first pass read as customer-specific
      and, for the two trusted states, the second pass as well. */
  predicate CustomerClaimIsSupported(lex: Lexicon, fs: seq<Finding>, answers: seq<Answers>, p: Proposed)
    requires |answers| == |fs| && p.citedState.Some?
  {
    p.implication.scope.Customer? || p.implication.scope.Category? ==>
      exists k :: 0 <= k < |fs| && IsLastCarrying(ClassifyAll(lex, fs, answers), p.citedState.value, k)
        && fs[k].proposition.scope.CustomerSpecific?
        && (Trusted(p.citedState.value) ==>
              answers[k].second.Some? && answers[k].second.value.reading.scope.CustomerSpecific?)
  }

  lemma CustomerClaimsNeedCustomerEvidence(lex: Lexicon, fs: seq<Finding>, answers: seq<Answers>, p: Proposed)
    requires |answers| == |fs|
    ensures Survives(lex, fs, answers, p) ==> CustomerClaimIsSupported(lex, fs, answers, p)
  {
    if Survives(lex, fs, answers, p) && fs != [] {
      var k := CitedFinding(lex, fs, answers, p);
      ScopeOnlyLoosens(lex, fs[k], answers[k]);
      TrustedIff(lex, fs[k], answers[k]);
    }
  }

  /** No translation survives unless a verifier that saw it answered "no" to
      both causation and entitlement, and the model itself claimed neither. */
  lemma SurvivorsAreNeitherCausalNorEntitling(lex: Lexicon, cs: seq<Classified>, p: Proposed, state: EvidenceState)
    requires TranslationSurvives(lex, cs, p, state)
    ensures p.verifier.Some? && !p.verifier.value.assertsCausation && !p.verifier.value.assertsEntitlement
    ensures !p.implication.causal && !p.implication.entitlement
  {}

  // ----- regions: what the check admits -----

  function CitedRegion(cs: seq<Classified>, state: EvidenceState): Option<string> {
    CitedReading(cs, state).geography
  }

  /** The same entry with another region in its implication. */
  function WithRegion(p: Proposed, g: Option<string>): Proposed {
    p.(implication := p.implication.(geography := g))
  }

  function RegionsOf(lex: Lexicon, g: string): set<string> {
    ClaimedRegions(lex, g, Norm(g))
  }

  lemma RegionIsCheckedApart(lex: Lexicon, cs: seq<Classified>, p: Proposed, state: EvidenceState, g: Option<string>)
    requires TranslationSurvives(lex, cs, p, state)
    ensures TranslationSurvives(lex, cs, WithRegion(p, g), state) <==> GeographyAllowed(lex, g, CitedRegion(cs, state))
  {}

  /** "May narrow, must never broaden" fails without a cited region: then, and
      only then, an entry that survives would survive with any region at all. */
  lemma EveryRegionIsAdmittedIff(lex: Lexicon, cs: seq<Classified>, p: Proposed, state: EvidenceState)
    requires TranslationSurvives(lex, cs, p, state)
    ensures (forall g :: TranslationSurvives(lex, cs, WithRegion(p, g), state)) <==> !Truthy(CitedRegion(cs, state))
  {
    forall g ensures TranslationSurvives(lex, cs, WithRegion(p, g), state) <==> GeographyAllowed(lex, g, CitedRegion(cs, state)) {
      RegionIsCheckedApart(lex, cs, p, state, g);
    }
    assert GeographyAllowed(lex, None, CitedRegion(cs, state)) <==> !Truthy(CitedRegion(cs, state));
    assert TranslationSurvives(lex, cs, WithRegion(p, None), state) <==> !Truthy(CitedRegion(cs, state));
  }

  /** Some region is named, and each region claimed is one the text names. */
  predicate NamesOnly(lex: Lexicon, g: Option<string>, text: string) {
    Truthy(g) && RegionsOf(lex, g.value) <= lex.regions(text)
  }

  /** The regions of the survivors are bound to the cited text exactly when the
      cited reading's own region is. */
  lemma RegionsStayInTheTextIff(lex: Lexicon, cs: seq<Classified>, p: Proposed, state: EvidenceState, text: string)
    requires TranslationSurvives(lex, cs, p, state)
    ensures (forall g :: TranslationSurvives(lex, cs, WithRegion(p, g), state) ==> NamesOnly(lex, g, text))
            <==> NamesOnly(lex, CitedRegion(cs, state), text)
  {
    var cited := CitedRegion(cs, state);
    RegionIsCheckedApart(lex, cs, p, state, cited);
    assert TranslationSurvives(lex, cs, WithRegion(p, cited), state);
    forall g | TranslationSurvives(lex, cs, WithRegion(p, g), state) && NamesOnly(lex, cited, text) ensures NamesOnly(lex, g, text) {
      RegionIsCheckedApart(lex, cs, p, state, g);
    }
  }

  /** Where the evidence an entry cites names a region: set, and not universal. */
  predicate CitesRegion(lex: Lexicon, cs: seq<Classified>, p: Proposed)
    requires p.citedState.Some?
  {
    var geography := CitedRegion(cs, p.citedState.value);
    Truthy(geography) && !Marked(lex.universal, geography.value)
  }

  /** Grounding in the text and validation against the evidence compose. */
  lemma NarrowingComposes(lex: Lexicon, implied: string, evidence: string, text: string)
    requires RegionKeysAreWords(lex) && !Marked(lex.universal, evidence)
    requires GroundGeography(lex, evidence, text).Grounded?
    requires RegionsOf(lex, implied) <= RegionsOf(lex, evidence)
    ensures RegionsOf(lex, implied) <= lex.regions(text)
  {
    if lex.regions(evidence) == {} {
      var word := Strip(Lower(evidence));
      assert word in ClaimedRegions(lex, evidence, word);
      WordNormalFormsAgree(evidence);
    }
  }

  /** A settled region that is not universal stands in the text. */
  lemma CitedRegionStandsInTheText(lex: Lexicon, f: Finding, answers: Answers)
    requires RegionKeysAreWords(lex)
    requires var g := Classify(lex, f, answers).proposition.geography; Truthy(g) && !Marked(lex.universal, g.value)
    ensures NamesOnly(lex, Classify(lex, f, answers).proposition.geography, f.text)
  {
    SurvivingGeographyIsGrounded(lex, f, answers);
    var g := Classify(lex, f, answers).proposition.geography.value;
    NarrowingComposes(lex, g, g, f.text);
  }

  /** Where the cited evidence names a region, every region the implication claims
      is one the text of the finding names, the last carrying the cited state. */
  predicate RegionsAreSupported(lex: Lexicon, fs: seq<Finding>, answers: seq<Answers>, p: Proposed)
    requires |answers| == |fs| && p.citedState.Some?
  {
    CitesRegion(lex, ClassifyAll(lex, fs, answers), p) ==>
      exists k :: 0 <= k < |fs| && IsLastCarrying(ClassifyAll(lex, fs, answers), p.citedState.value, k)
        && NamesOnly(lex, p.implication.geography, fs[k].text)
  }

  /** Geography only narrows, from the raw text to the surviving translation,
      as long as the cited evidence still has a region that is not universal. */
  lemma GeographyOnlyNarrows(lex: Lexicon, fs: seq<Finding>, answers: seq<Answers>, p: Proposed)
    requires RegionKeysAreWords(lex) && |answers| == |fs|
    ensures Survives(lex, fs, answers, p) ==> RegionsAreSupported(lex, fs, answers, p)
  {
    if Survives(lex, fs, answers, p) && CitesRegion(lex, ClassifyAll(lex, fs, answers), p) {
      var cs, state := ClassifyAll(lex, fs, answers), p.citedState.value;
      var k := CitedFinding(lex, fs, answers, p);
      CitedRegionStandsInTheText(lex, fs[k], answers[k]);
      RegionsStayInTheTextIff(lex, cs, p, state, fs[k].text);
      assert WithRegion(p, p.implication.geography) == p;
    }
  }

  // ----- regions: distrust opens the check -----

  lemma {:induction false} SameStatesSameLast(cs: seq<Classified>, ds: seq<Classified>, state: EvidenceState)
    requires |cs| == |ds| && forall k :: 0 <= k < |cs| ==> cs[k].state == ds[k].state
    ensures LastCarrying(cs, state) == LastCarrying(ds, state)
  {
    if cs != [] { SameStatesSameLast(cs[..|cs| - 1], ds[..|ds| - 1], state); }
  }

  /** A second reading that merely disputes the region of the cited finding makes
      the region check weaker, not stronger: every survivor still survives, and
      with any region whatever. */
  lemma DisputeAdmitsEveryRegion(lex: Lexicon, fs: seq<Finding>, answers: seq<Answers>, p: Proposed, k: nat, disputed: string, g: Option<string>)
    requires |answers| == |fs| && Survives(lex, fs, answers, p)
    requires IsLastCarrying(ClassifyAll(lex, fs, answers), p.citedState.value, k)
    requires fs[k].text != "" && answers[k].second.Some?
    requires FieldConflicts(fs[k].proposition.geography, Some(disputed))
    ensures Survives(lex, fs, answers[k := NamingRegion(answers[k], disputed)], WithRegion(p, g))
  {
    var state := p.citedState.value;
    var cs, ds := ClassifyAll(lex, fs, answers), ClassifyAll(lex, fs, answers[k := NamingRegion(answers[k], disputed)]);
    DisputedRegionIsOnlyCleared(lex, fs[k], answers[k], disputed);
    assert forall j :: 0 <= j < |cs| ==> cs[j].state == ds[j].state;
    SameStatesSameLast(cs, ds, state);
    LastCarryingIsLast(cs, state);
    assert ds[k].state == state;
    assert LastCarrying(cs, state) == Some(k);
    OnlyTheRegionMatters(lex, cs, ds, p, k, g);
  }

  lemma OnlyTheRegionMatters(lex: Lexicon, cs: seq<Classified>, ds: seq<Classified>, p: Proposed, k: nat, g: Option<string>)
    requires Kept(cs, p) && TranslationSurvives(lex, cs, p, p.citedState.value)
    requires k < |cs| == |ds| && ds[k] == cs[k].(proposition := cs[k].proposition.(geography := None))
    requires LastCarrying(cs, p.citedState.value) == LastCarrying(ds, p.citedState.value) == Some(k)
    requires ds[k].state == p.citedState.value
    ensures Kept(ds, WithRegion(p, g)) && TranslationSurvives(lex, ds, WithRegion(p, g), p.citedState.value)
  {}

  // ----- numbers -----

  /** Every number the translation states stands in the finding the same entry
      gives.  A quantity its implication names is one the cited finding's first
      reading named, traceable to the text or vouched for by the semantic check. */
  predicate NumbersAreTraced(lex: Lexicon, fs: seq<Finding>, answers: seq<Answers>, p: Proposed)
    requires |answers| == |fs| && p.citedState.Some? && p.translation.Some?
  {
    && lex.digits(p.translation.value) <= lex.digits(p.finding)
    && (Truthy(p.implication.quantity) && !(lex.digits(p.implication.quantity.value) <= lex.digits("")) ==>
          exists k :: 0 <= k < |fs| && IsLastCarrying(ClassifyAll(lex, fs, answers), p.citedState.value, k)
            && Truthy(fs[k].proposition.quantity)
            && lex.digits(p.implication.quantity.value) <= lex.digits(fs[k].proposition.quantity.value)
            && (lex.digits(p.implication.quantity.value) <= AllNumbers(lex, fs[k].text)
                || answers[k].onQuantity == Some(Supported)))
  }

  lemma QuantitiesOnlyNarrow(lex: Lexicon, fs: seq<Finding>, answers: seq<Answers>, p: Proposed)
    requires |answers| == |fs|
    ensures Survives(lex, fs, answers, p) ==> p.translation.Some? && NumbersAreTraced(lex, fs, answers, p)
  {
    if Survives(lex, fs, answers, p) && fs != [] {
      var k := CitedFinding(lex, fs, answers, p);
      if Truthy(Classify(lex, fs[k], answers[k]).proposition.quantity) {
        SurvivingQuantityIsGrounded(lex, fs[k], answers[k]);
      }
    }
  }

  // ----- what can be said on given evidence -----

  /** A translation the evidence does not rule out: nothing about a customer's
      outcome, and not in the present tense on past or forecast evidence. */
  predicate Sayable(lex: Lexicon, cs: seq<Classified>, state: EvidenceState, t: string) {
    && t != "" && MayCite(cs, state) && !lex.namesCustomerOutcome(t)
    && !(lex.temporal(t).IsCurrent?
         && (lex.temporal(CitedText(cs, state, t)).IsHistorical? || lex.temporal(CitedText(cs, state, t)).IsForecast?))
  }

  /** Some entry of the model's answer gets `t` through. */
  ghost predicate CanSurvive(lex: Lexicon, cs: seq<Classified>, state: EvidenceState, t: string) {
    exists p :: Kept(cs, p) && p.citedState == Some(state) && p.translation == Some(t) && TranslationSurvives(lex, cs, p, state)
  }

  const DENIAL := SecondReading(NO_READING, false, false, false, false)

  /** An entry that offers its translation as its own finding. */
  function SelfSupported(cs: seq<Classified>, state: EvidenceState, t: string): Proposed {
    Proposed("d", t, Some(state), Some(t), Implication(Market, None, CitedRegion(cs, state), false, false), Some(DENIAL))
  }

  lemma SelfSupportedSurvives(lex: Lexicon, cs: seq<Classified>, state: EvidenceState, t: string)
    requires SupplierPhrasesSaySupplier(lex) && Sayable(lex, cs, state, t)
    ensures Kept(cs, SelfSupported(cs, state, t)) && TranslationSurvives(lex, cs, SelfSupported(cs, state, t), state)
  {}

  /** All that the evidence decides about the wording of a translation is its
      tense: whatever else `t` states can be got through. */
  lemma TranslationCanSurviveIff(lex: Lexicon, cs: seq<Classified>, state: EvidenceState, t: string)
    requires SupplierPhrasesSaySupplier(lex)
    ensures CanSurvive(lex, cs, state, t) <==> Sayable(lex, cs, state, t)
  {
    LastCarryingIsLast(cs, state);
    if Sayable(lex, cs, state, t) {
      SelfSupportedSurvives(lex, cs, state, t);
    }
  }

  /** No entry with this finding gets a number through that the cited text lacks. */
  ghost predicate NumbersStayInTheText(lex: Lexicon, cs: seq<Classified>, state: EvidenceState, finding: string) {
    forall p :: Kept(cs, p) && p.citedState == Some(state) && p.finding == finding && TranslationSurvives(lex, cs, p, state) ==>
      lex.digits(p.translation.value) <= lex.digits(CitedText(cs, state, finding))
  }

  /** The comparison the code leaves out, of an entry's finding with the evidence
      it cites, is what the promise about numbers needs: with it the promise
      holds, and without it it fails for every finding that is itself sayable. */
  lemma NumbersStayInTheTextIff(lex: Lexicon, cs: seq<Classified>, state: EvidenceState, finding: string)
    requires SupplierPhrasesSaySupplier(lex)
    ensures lex.digits(finding) <= lex.digits(CitedText(cs, state, finding)) ==> NumbersStayInTheText(lex, cs, state, finding)
    ensures Sayable(lex, cs, state, finding) ==>
              (NumbersStayInTheText(lex, cs, state, finding) <==> lex.digits(finding) <= lex.digits(CitedText(cs, state, finding)))
  {
    if Sayable(lex, cs, state, finding) {
      SelfSupportedSurvives(lex, cs, state, finding);
      assert SelfSupported(cs, state, finding).finding == finding;
    }
  }

  // ----- the whole pipeline -----

  /** What is known of an entry whose translation came through. */
  predicate Vetted(lex: Lexicon, fs: seq<Finding>, answers: seq<Answers>, p: Proposed)
    requires |answers| == |fs| && p.citedState.Some? && p.translation.Some?
  {
    && p.verifier.Some? && !p.verifier.value.assertsCausation && !p.verifier.value.assertsEntitlement
    && !p.implication.causal && !p.implication.entitlement
    && CustomerClaimIsSupported(lex, fs, answers, p)
    && RegionsAreSupported(lex, fs, answers, p)
    && NumbersAreTraced(lex, fs, answers, p)
  }

  /** The whole pipeline, for all answers of every model call: each impact that
      leaves synthesis with a translation carries that of a vetted entry. */
  lemma EveryTranslationIsVetted(
      lex: Lexicon, fs: seq<Finding>, answers: seq<Answers>, proposed: seq<Proposed>, i: nat) returns (n: nat)
    requires RegionKeysAreWords(lex) && |answers| == |fs|
    requires i < |Impacts(lex, ClassifyAll(lex, fs, answers), proposed)|
    ensures n < |proposed|
    ensures var impact, p := Impacts(lex, ClassifyAll(lex, fs, answers), proposed)[i], proposed[n];
            && p.citedState == Some(impact.state)
            && (impact.translation.Some? ==> impact.translation == p.translation && Vetted(lex, fs, answers, p))
  {
    n := ImpactsAreJustified(lex, ClassifyAll(lex, fs, answers), proposed, i);
    if Impacts(lex, ClassifyAll(lex, fs, answers), proposed)[i].translation.Some? {
      SurvivorsAreNeitherCausalNorEntitling(lex, ClassifyAll(lex, fs, answers), proposed[n], proposed[n].citedState.value);
      CustomerClaimsNeedCustomerEvidence(lex, fs, answers, proposed[n]);
      GeographyOnlyNarrows(lex, fs, answers, proposed[n]);
      QuantitiesOnlyNarrow(lex, fs, answers, proposed[n]);
    }
  }
}
