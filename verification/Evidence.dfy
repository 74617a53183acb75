/** Evidence classification (app/pipeline/market_signal_intelligence.py): two
    model readings of one text are reconciled, a deterministic check over the
    raw text overrides them, and only then is an evidence state assigned.
    Model calls are arbitrary answers that may also be missing (`None`). */
module Evidence {
  import opened Options
  import opened Texts

  datatype Scope = IndustryGeneral | GlobalMarket | RegionalMarket | SupplierSpecific | CustomerSpecific

  datatype Attribution = VerifiedFact | OfficialSource | ThirdPartyReport | SupplierClaim | Unclear

  datatype Verdict = Supports | Contradicts | Inconclusive | NotApplicable | OtherVerdict

  datatype SourceTier = Tier1 | Tier2 | Tier3 | Tier4 | Unclassified

  datatype EvidenceState = ExternalMarketEvidence | Inferred | Unknown | Contradicted

  datatype Reading = Reading(
    subject: string,
    predicateText: string,
    quantity: Option<string>,
    scope: Scope,
    geography: Option<string>,
    timeframe: Option<string>,
    negated: bool,
    attribution: Attribution)

  datatype SecondReading = SecondReading(
    reading: Reading,
    negatesClaim: bool,
    assertsCausation: bool,
    assertsEntitlement: bool,
    isSelfReport: bool)

  datatype Proposition = Proposition(reading: Reading, disputed: bool)

  datatype Finding = Finding(
    question: string,
    text: string,
    answerFound: bool,
    proposition: Reading,
    verdict: Verdict,
    sources: seq<SourceTier>)

  datatype SemanticVerdict = Supported | Refuted | NotEstablished

  // Every answer a model gives while one finding is classified.
  datatype Answers = Answers(
    second: Option<SecondReading>,
    onQuantity: Option<SemanticVerdict>,
    onPredicate: Option<SemanticVerdict>)

  // ----- reconciling two readings (reconcile_dual_extraction) -----

  /** Place in the source's specificity order, least specific first. */
  function Specificity(s: Scope): nat {
    match s
    case IndustryGeneral => 0
    case GlobalMarket => 1
    case RegionalMarket => 2
    case SupplierSpecific => 3
    case CustomerSpecific => 4
  }

  function LessSpecific(a: Scope, b: Scope): Scope {
    if Specificity(a) <= Specificity(b) then a else b
  }

  /** `_reconcile_conservatively`: risky when either says so or nobody can confirm. */
  function ReconcileConservatively(extracted: bool, verified: Option<bool>): (risky: bool)
    ensures !risky <==> !extracted && verified == Some(false)
  {
    verified.None? || extracted || verified.value
  }

  predicate SubjectsConflict(a: string, b: string) {
    b != "" && a != b && !Contains(b, a) && !Contains(a, b)
  }

  /** The second reading only disputes what it states. */
  predicate FieldConflicts(first: Option<string>, second: Option<string>) {
    NormOf(second) != "" && NormOf(first) != NormOf(second)
  }

  function Tokens(lex: Lexicon, o: Option<string>): set<string> {
    if Truthy(o) then lex.digits(o.value) else lex.digits("")
  }

  predicate QuantitiesConflict(lex: Lexicon, first: Option<string>, second: Option<string>) {
    Tokens(lex, second) != {} && Tokens(lex, first) != Tokens(lex, second)
  }

  predicate PredicatesOpposed(lex: Lexicon, a: string, b: string) {
    exists k :: 0 <= k < |lex.opposites| &&
      ((Contains(Norm(a), lex.opposites[k].0) && Contains(Norm(b), lex.opposites[k].1))
       || (Contains(Norm(a), lex.opposites[k].1) && Contains(Norm(b), lex.opposites[k].0)))
  }

  function Reconcile(lex: Lexicon, first: Reading, second: Option<SecondReading>): Proposition {
    match second
    case None =>
      Proposition(
        first.(subject := "", quantity := None, geography := None, timeframe := None, attribution := SupplierClaim),
        true)
    case Some(s) =>
      Proposition(
        Reading(
          if SubjectsConflict(Norm(first.subject), Norm(s.reading.subject)) then "" else first.subject,
          first.predicateText,
          if QuantitiesConflict(lex, first.quantity, s.reading.quantity) then None else first.quantity,
          LessSpecific(first.scope, s.reading.scope),
          if FieldConflicts(first.geography, s.reading.geography) then None else first.geography,
          if FieldConflicts(first.timeframe, s.reading.timeframe) then None else first.timeframe,
          ReconcileConservatively(first.negated, Some(s.negatesClaim)),
          if ReconcileConservatively(first.attribution.SupplierClaim?, Some(s.isSelfReport))
          then SupplierClaim else first.attribution),
        PredicatesOpposed(lex, first.predicateText, s.reading.predicateText))
  }

  // ----- grounding in the raw text -----

  datatype Grounding = Grounded | ContradictedByText | Ungrounded

  function GroundQuantityInText(lex: Lexicon, quantity: string, text: string): Grounding {
    var claimed, stated := lex.digits(quantity), AllNumbers(lex, text);
    if claimed != {} && claimed <= stated then Grounded
    else if stated != {} && claimed != {} && claimed !! stated then ContradictedByText
    else Ungrounded
  }

  function GroundDirectionInText(lex: Lexicon, claimed: Direction, text: string): Grounding {
    match DirectionOf(lex, text)
    case None => Ungrounded
    case Some(stated) => if stated == claimed then Grounded else ContradictedByText
  }

  /** The second layer speaks only where the first is silent. */
  function Refine(layer1: Grounding, answer: Option<SemanticVerdict>): Grounding {
    if !layer1.Ungrounded? then layer1
    else match answer
      case Some(Supported) => Grounded
      case Some(Refuted) => ContradictedByText
      case _ => Ungrounded
  }

  function ClaimedRegions(lex: Lexicon, geography: string, normalised: string): set<string> {
    if lex.regions(geography) != {} then lex.regions(geography) else {normalised}
  }

  function GroundGeography(lex: Lexicon, geography: string, text: string): Grounding {
    if Marked(lex.universal, geography) then
      if Marked(lex.universal, text) then Grounded else Ungrounded
    else
      var claimed := ClaimedRegions(lex, geography, Strip(Lower(geography)));
      var stated := lex.regions(text);
      if stated == {} then Ungrounded
      else if claimed <= stated then Grounded
      else if claimed * stated != {} then Ungrounded
      else ContradictedByText
  }

  /** The direction check; an empty predicate is never put to the second layer. */
  function GroundPredicate(lex: Lexicon, predicateText: string, text: string, answer: Option<SemanticVerdict>): Grounding {
    match DirectionOf(lex, predicateText)
    case None => Ungrounded
    case Some(claimed) =>
      Refine(GroundDirectionInText(lex, claimed, text), if predicateText == "" then None else answer)
  }

  /** The grounding block of `classify_evidence`, field by field in its order. */
  function GroundProposition(lex: Lexicon, p: Proposition, text: string, answers: Answers): Proposition {
    if text == "" then p else
    var r := p.reading;
    var negated := r.negated || Marked(lex.negation, text);
    var attribution := if Marked(lex.selfReport, text) then SupplierClaim else r.attribution;
    var quantity :=
      if Truthy(r.quantity)
         && !Refine(GroundQuantityInText(lex, r.quantity.value, text), answers.onQuantity).Grounded?
      then None else r.quantity;
    var disputed := p.disputed || GroundPredicate(lex, r.predicateText, text, answers.onPredicate).ContradictedByText?;
    var scope := if r.scope.GlobalMarket? && !Marked(lex.universal, text) then RegionalMarket else r.scope;
    var geography :=
      if Truthy(r.geography) && !GroundGeography(lex, r.geography.value, text).Grounded? then None else r.geography;
    Proposition(
      r.(negated := negated, attribution := attribution, quantity := quantity, scope := scope, geography := geography),
      disputed)
  }

  // ----- assigning a state (classify_evidence) -----

  predicate Credible(sources: seq<SourceTier>) {
    exists k :: 0 <= k < |sources| && (sources[k].Tier1? || sources[k].Tier2? || sources[k].Tier3?)
  }

  /** `" ".join(filter(None, [predicate, quantity])) or finding_text`. */
  function CoreClaim(r: Reading, text: string): string {
    if r.predicateText != "" && Truthy(r.quantity) then r.predicateText + " " + r.quantity.value
    else if r.predicateText != "" then r.predicateText
    else if Truthy(r.quantity) then r.quantity.value
    else text
  }

  predicate Relevant(lex: Lexicon, f: Finding, p: Proposition) {
    lex.relevant(f.question, CoreClaim(p.reading, f.text))
  }

  function AssignState(lex: Lexicon, f: Finding, p: Proposition, unverified: bool): EvidenceState {
    if p.reading.negated then Contradicted
    else if unverified then Unknown
    else if p.disputed then Unknown
    else if !f.answerFound || f.text == "" then Unknown
    else if !Relevant(lex, f, p) then Unknown
    else match f.verdict
      case Contradicts => Contradicted
      case Inconclusive => Unknown
      case NotApplicable => Unknown
      case _ =>
        if p.reading.attribution.SupplierClaim? then Inferred
        else if Credible(f.sources) then ExternalMarketEvidence
        else Inferred
  }

  datatype Classified = Classified(finding: Finding, state: EvidenceState, proposition: Reading)

  /** An empty text is never sent for a second reading. */
  function SecondOf(f: Finding, answers: Answers): Option<SecondReading> {
    if f.text == "" then None else answers.second
  }

  function SettledProposition(lex: Lexicon, f: Finding, answers: Answers): Proposition {
    GroundProposition(lex, Reconcile(lex, f.proposition, SecondOf(f, answers)), f.text, answers)
  }

  function Classify(lex: Lexicon, f: Finding, answers: Answers): Classified {
    var p := SettledProposition(lex, f, answers);
    Classified(f, AssignState(lex, f, p, f.text != "" && SecondOf(f, answers).None?), p.reading)
  }

  /** The loop of `classify_evidence`: one classified item per finding, in order,
      each depending on its own finding and its own answers only. */
  method ClassifyEvidence(lex: Lexicon, findings: seq<Finding>, answers: seq<Answers>) returns (classified: seq<Classified>)
    requires |answers| == |findings|
    ensures |classified| == |findings|
    ensures forall k :: 0 <= k < |findings| ==> classified[k] == Classify(lex, findings[k], answers[k])
  {
    classified := [];
    for i := 0 to |findings|
      invariant |classified| == i
      invariant forall k :: 0 <= k < i ==> classified[k] == Classify(lex, findings[k], answers[k])
    {
      var f := findings[i];
      var second: Option<SecondReading> := None;
      if f.text != "" {
        second := answers[i].second;
      }
      var unverified := f.text != "" && second.None?;
      var p := Reconcile(lex, f.proposition, second);
      if f.text != "" {
        p := GroundProposition(lex, p, f.text, answers[i]);
      }
      classified := classified + [Classified(f, AssignState(lex, f, p, unverified), p.reading)];
    }
  }

  // ----- integrity of the assigned state, for all model answers -----

  predicate Trusted(s: EvidenceState) {
    s.ExternalMarketEvidence? || s.Inferred?
  }

  function Strength(s: EvidenceState): nat {
    match s
    case ExternalMarketEvidence => 2
    case Inferred => 1
    case _ => 0
  }

  /** A negation marker in the text decides, whatever either model says. */
  lemma NegationMarkerContradicts(lex: Lexicon, f: Finding, answers: Answers)
    requires f.text != "" && Marked(lex.negation, f.text)
    ensures Classify(lex, f, answers).state == Contradicted
  {}

  /** Evidence without a second reading is never trusted; neither is a claim
      whose direction the text itself reverses. */
  lemma UnconfirmedOrReversedIsNeverTrusted(lex: Lexicon, f: Finding, answers: Answers)
    requires f.text != ""
    requires
      || answers.second.None?
      || (DirectionOf(lex, f.text) == Some(Up) && DirectionOf(lex, f.proposition.predicateText) == Some(Down))
      || (DirectionOf(lex, f.text) == Some(Down) && DirectionOf(lex, f.proposition.predicateText) == Some(Up))
    ensures !Trusted(Classify(lex, f, answers).state)
  {}

  /** What must all hold for a finding to be trusted at all. */
  predicate PassesEveryCheck(lex: Lexicon, f: Finding, answers: Answers) {
    && f.answerFound && f.text != "" && answers.second.Some?
    && !f.proposition.negated && !answers.second.value.negatesClaim && !Marked(lex.negation, f.text)
    && !PredicatesOpposed(lex, f.proposition.predicateText, answers.second.value.reading.predicateText)
    && !GroundPredicate(lex, f.proposition.predicateText, f.text, answers.onPredicate).ContradictedByText?
    && Relevant(lex, f, SettledProposition(lex, f, answers))
    && (f.verdict.Supports? || f.verdict.OtherVerdict?)
  }

  predicate NobodySuspectsSelfReport(lex: Lexicon, f: Finding, answers: Answers)
    requires answers.second.Some?
  {
    !f.proposition.attribution.SupplierClaim? && !answers.second.value.isSelfReport && !Marked(lex.selfReport, f.text)
  }

  /** The exact meaning of the two trusted states: every check passes, and the
      stronger one also needs a credible source and three voices (first reading,
      second reading, text) that none of them calls a self-report. */
  lemma TrustedIff(lex: Lexicon, f: Finding, answers: Answers)
    ensures Trusted(Classify(lex, f, answers).state) <==> PassesEveryCheck(lex, f, answers)
    ensures Classify(lex, f, answers).state == ExternalMarketEvidence <==>
            PassesEveryCheck(lex, f, answers) && NobodySuspectsSelfReport(lex, f, answers) && Credible(f.sources)
  {}

  function Flagged(s: SecondReading, negates: bool, selfReport: bool): SecondReading {
    s.(negatesClaim := s.negatesClaim || negates, isSelfReport := s.isSelfReport || selfReport)
  }

  /** Turning a risk flag of the second reading on, or losing that reading
      altogether, never raises the state. */
  lemma DistrustNeverRaisesState(lex: Lexicon, f: Finding, answers: Answers, negates: bool, selfReport: bool)
    requires answers.second.Some?
    ensures Strength(Classify(lex, f, answers.(second := Some(Flagged(answers.second.value, negates, selfReport)))).state)
         <= Strength(Classify(lex, f, answers).state)
    ensures Strength(Classify(lex, f, answers.(second := None)).state) <= Strength(Classify(lex, f, answers).state)
  {
    var flagged := answers.(second := Some(Flagged(answers.second.value, negates, selfReport)));
    TrustedIff(lex, f, answers);
    TrustedIff(lex, f, flagged);
    if f.text != "" {
      var p, q := SettledProposition(lex, f, answers), SettledProposition(lex, f, flagged);
      assert CoreClaim(p.reading, f.text) == CoreClaim(q.reading, f.text);
    }
  }

  /** The settled scope is never more specific than either reading made it. */
  lemma ScopeOnlyLoosens(lex: Lexicon, f: Finding, answers: Answers)
    ensures var scope := Classify(lex, f, answers).proposition.scope;
            && (scope.CustomerSpecific? ==> f.proposition.scope.CustomerSpecific?)
            && (scope.SupplierSpecific? ==> Specificity(f.proposition.scope) >= Specificity(SupplierSpecific))
            && (SecondOf(f, answers).Some? ==>
                  && (scope.CustomerSpecific? ==> answers.second.value.reading.scope.CustomerSpecific?)
                  && (scope.SupplierSpecific? ==>
                        Specificity(answers.second.value.reading.scope) >= Specificity(SupplierSpecific)))
  {}

  /** A quantity that survives is one the first reading gave, traceable to the
      text: all its numbers stand there, or the text was silent about it and the
      semantic check said it was supported. */
  lemma SurvivingQuantityIsGrounded(lex: Lexicon, f: Finding, answers: Answers)
    requires Truthy(Classify(lex, f, answers).proposition.quantity)
    ensures f.text != "" && Classify(lex, f, answers).proposition.quantity == f.proposition.quantity
    ensures var claimed := lex.digits(f.proposition.quantity.value);
            || (claimed != {} && claimed <= AllNumbers(lex, f.text))
            || (answers.onQuantity == Some(Supported)
                && (claimed == {} || AllNumbers(lex, f.text) == {} || !(claimed !! AllNumbers(lex, f.text))))
  {}

  /** The same second reading, naming a region. */
  function NamingRegion(answers: Answers, g: string): Answers
    requires answers.second.Some?
  {
    var s := answers.second.value;
    answers.(second := Some(s.(reading := s.reading.(geography := Some(g)))))
  }

  function WithoutRegion(p: Proposition): Proposition {
    p.(reading := p.reading.(geography := None))
  }

  lemma DisputeClearsTheRegion(lex: Lexicon, first: Reading, answers: Answers, g: string)
    requires answers.second.Some? && FieldConflicts(first.geography, Some(g))
    ensures Reconcile(lex, first, NamingRegion(answers, g).second) == WithoutRegion(Reconcile(lex, first, answers.second))
  {}

  lemma GroundingIgnoresTheRegion(lex: Lexicon, p: Proposition, text: string, a: Answers, b: Answers)
    requires a.onQuantity == b.onQuantity && a.onPredicate == b.onPredicate
    ensures GroundProposition(lex, WithoutRegion(p), text, b) == WithoutRegion(GroundProposition(lex, p, text, a))
  {}

  lemma StateIgnoresTheRegion(lex: Lexicon, f: Finding, p: Proposition, unverified: bool)
    ensures AssignState(lex, f, WithoutRegion(p), unverified) == AssignState(lex, f, p, unverified)
  {
    assert CoreClaim(WithoutRegion(p).reading, f.text) == CoreClaim(p.reading, f.text);
  }

  /** A second reading that disputes the region clears it and touches nothing
      else: the finding keeps its state, however trusted. */
  lemma DisputedRegionIsOnlyCleared(lex: Lexicon, f: Finding, answers: Answers, g: string)
    requires f.text != "" && answers.second.Some?
    requires FieldConflicts(f.proposition.geography, Some(g))
    ensures var c := Classify(lex, f, answers);
            Classify(lex, f, NamingRegion(answers, g)) == c.(proposition := c.proposition.(geography := None))
  {
    var named := NamingRegion(answers, g);
    DisputeClearsTheRegion(lex, f.proposition, answers, g);
    GroundingIgnoresTheRegion(lex, Reconcile(lex, f.proposition, answers.second), f.text, answers, named);
    assert SettledProposition(lex, f, named) == WithoutRegion(SettledProposition(lex, f, answers));
    StateIgnoresTheRegion(lex, f, SettledProposition(lex, f, answers), false);
  }

  /** A geography that survives is grounded in the text. */
  lemma SurvivingGeographyIsGrounded(lex: Lexicon, f: Finding, answers: Answers)
    requires Truthy(Classify(lex, f, answers).proposition.geography)
    ensures f.text != ""
    ensures var geography := Classify(lex, f, answers).proposition.geography.value;
            && f.proposition.geography == Some(geography)
            && GroundGeography(lex, geography, f.text).Grounded?
  {}
}
