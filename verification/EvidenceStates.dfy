/** What the four evidence states and the settled reading amount to, in terms of
    the three voices heard about a finding: the first reading, the second reading
    and the text itself. */
module EvidenceStates {
  import opened Options
  import opened Texts
  import opened Evidence

  // ----- what each voice says -----

  /** A second reading is only taken of a text. */
  predicate Heard(f: Finding, answers: Answers) { f.text != "" && answers.second.Some? }

  /** A negation: by the first reading, by the second, or by a marker in the text. */
  predicate SomeoneNegates(lex: Lexicon, f: Finding, answers: Answers) {
    || f.proposition.negated
    || (Heard(f, answers) && answers.second.value.negatesClaim)
    || (f.text != "" && exists k :: 0 <= k < |lex.negation| && Contains(Lower(f.text), lex.negation[k]))
  }

  /** A self-report: likewise. */
  predicate SomeoneSuspectsSelfReport(lex: Lexicon, f: Finding, answers: Answers) {
    || f.proposition.attribution.SupplierClaim?
    || (Heard(f, answers) && answers.second.value.isSelfReport)
    || (f.text != "" && exists k :: 0 <= k < |lex.selfReport| && Contains(Lower(f.text), lex.selfReport[k]))
  }

  /** The two readings use the two sides of one pair of opposites. */
  predicate ReadingsClash(lex: Lexicon, f: Finding, answers: Answers)
    requires answers.second.Some?
  {
    var a, b := Norm(f.proposition.predicateText), Norm(answers.second.value.reading.predicateText);
    exists k :: 0 <= k < |lex.opposites| &&
      ((Contains(a, lex.opposites[k].0) && Contains(b, lex.opposites[k].1))
       || (Contains(a, lex.opposites[k].1) && Contains(b, lex.opposites[k].0)))
  }

  predicate SpeaksOf(lex: Lexicon, text: string, up: bool) {
    var rises, falls := lex.movesUp(Lower(text)), lex.movesDown(Lower(text));
    if up then rises && !falls else falls && !rises
  }

  /** The first reading names a direction and the text says the other; or the text
      says none and the semantic check refutes the reading. */
  predicate TextReverses(lex: Lexicon, f: Finding, answers: Answers) {
    var claim := f.proposition.predicateText;
    exists up: bool :: SpeaksOf(lex, claim, up) &&
      (SpeaksOf(lex, f.text, !up)
       || (!SpeaksOf(lex, f.text, up) && claim != "" && answers.onPredicate == Some(Refuted)))
  }

  /** The quantity that is left: the first reading's, unless the second states
      other numbers, or the text neither states them all nor, where it states
      nothing to the contrary, has them vouched for. */
  predicate QuantityStands(lex: Lexicon, f: Finding, answers: Answers) {
    && Heard(f, answers)
    && Truthy(f.proposition.quantity)
    && var claimed, stated := lex.digits(f.proposition.quantity.value), lex.digits(Lower(f.text)) + lex.numberWords(Lower(f.text));
    && var second := answers.second.value.reading.quantity;
    && (var others := if second.Some? && second.value != "" then lex.digits(second.value) else lex.digits("");
        others == {} || others == claimed)
    && (|| (claimed != {} && claimed <= stated)
        || (answers.onQuantity == Some(Supported) && (claimed == {} || stated == {} || !(claimed !! stated))))
  }

  /** What relevance is judged on: predicate and quantity, else the whole text. */
  function ClaimText(lex: Lexicon, f: Finding, answers: Answers): string {
    var claim := f.proposition.predicateText;
    if QuantityStands(lex, f, answers) then
      if claim != "" then claim + " " + f.proposition.quantity.value else f.proposition.quantity.value
    else if claim != "" then claim
    else f.text
  }

  predicate HasCredibleSource(f: Finding) { Tier1 in f.sources || Tier2 in f.sources || Tier3 in f.sources }

  /** Nothing stands between the finding and its verdict. */
  predicate Settled(lex: Lexicon, f: Finding, answers: Answers) {
    && Heard(f, answers) && f.answerFound
    && !ReadingsClash(lex, f, answers) && !TextReverses(lex, f, answers)
    && lex.relevant(f.question, ClaimText(lex, f, answers))
  }

  // ----- the settled reading, field by field -----

  lemma NegationIff(lex: Lexicon, f: Finding, answers: Answers)
    ensures Classify(lex, f, answers).proposition.negated <==> SomeoneNegates(lex, f, answers)
  {}

  lemma SelfReportIff(lex: Lexicon, f: Finding, answers: Answers)
    ensures Classify(lex, f, answers).proposition.attribution.SupplierClaim?
            <==> SomeoneSuspectsSelfReport(lex, f, answers) || !Heard(f, answers)
    ensures !Classify(lex, f, answers).proposition.attribution.SupplierClaim? ==>
              Classify(lex, f, answers).proposition.attribution == f.proposition.attribution
  {}

  lemma GroundedQuantityIff(lex: Lexicon, quantity: string, text: string, answer: Option<SemanticVerdict>)
    ensures var claimed, stated := lex.digits(quantity), lex.digits(Lower(text)) + lex.numberWords(Lower(text));
            Refine(GroundQuantityInText(lex, quantity, text), answer).Grounded? <==>
              || (claimed != {} && claimed <= stated)
              || (answer == Some(Supported) && (claimed == {} || stated == {} || !(claimed !! stated)))
  {}

  lemma ReconciledQuantityIff(lex: Lexicon, f: Finding, answers: Answers)
    ensures var q := Reconcile(lex, f.proposition, SecondOf(f, answers)).reading.quantity;
            && (Truthy(q) ==> q == f.proposition.quantity)
            && (Truthy(q) <==>
                  && Heard(f, answers) && Truthy(f.proposition.quantity)
                  && var second := answers.second.value.reading.quantity;
                  && var others := if second.Some? && second.value != "" then lex.digits(second.value) else lex.digits("");
                  others == {} || others == lex.digits(f.proposition.quantity.value))
  {}

  lemma QuantityIff(lex: Lexicon, f: Finding, answers: Answers)
    ensures var settled := Classify(lex, f, answers).proposition.quantity;
            && (Truthy(settled) <==> QuantityStands(lex, f, answers))
            && (Truthy(settled) ==> settled == f.proposition.quantity)
  {
    ReconciledQuantityIff(lex, f, answers);
    if Truthy(f.proposition.quantity) { GroundedQuantityIff(lex, f.proposition.quantity.value, f.text, answers.onQuantity); }
  }

  /** Whether the text of a finding supports a region the first reading names. */
  predicate RegionStandsInText(lex: Lexicon, g: string, text: string) {
    if exists k :: 0 <= k < |lex.universal| && Contains(Lower(g), lex.universal[k])
    then exists k :: 0 <= k < |lex.universal| && Contains(Lower(text), lex.universal[k])
    else lex.regions(text) != {} && (if lex.regions(g) != {} then lex.regions(g) else {Strip(Lower(g))}) <= lex.regions(text)
  }

  lemma RegionIff(lex: Lexicon, f: Finding, answers: Answers)
    ensures var settled := Classify(lex, f, answers).proposition.geography;
            && (Truthy(settled) <==>
                  && Heard(f, answers) && Truthy(f.proposition.geography)
                  && (NormOf(answers.second.value.reading.geography) == ""
                      || NormOf(answers.second.value.reading.geography) == Norm(f.proposition.geography.value))
                  && RegionStandsInText(lex, f.proposition.geography.value, f.text))
            && (Truthy(settled) ==> settled == f.proposition.geography)
  {}

  /** The less specific of the two scopes; a global one must be said by the text. */
  lemma ScopeIs(lex: Lexicon, f: Finding, answers: Answers)
    ensures var settled := Classify(lex, f, answers).proposition.scope;
            var agreed := if Heard(f, answers) then LessSpecific(f.proposition.scope, answers.second.value.reading.scope) else f.proposition.scope;
            settled == if agreed == GlobalMarket && f.text != ""
                          && !(exists k :: 0 <= k < |lex.universal| && Contains(Lower(f.text), lex.universal[k]))
                       then RegionalMarket else agreed
    ensures forall a, b :: LessSpecific(a, b) in {a, b} && Before(LessSpecific(a, b), a) && Before(LessSpecific(a, b), b)
  {}

  /** The source's order, least specific first. */
  predicate Before(a: Scope, b: Scope) {
    || a == b
    || a == IndustryGeneral
    || (a == GlobalMarket && b != IndustryGeneral)
    || (a == RegionalMarket && b in {SupplierSpecific, CustomerSpecific})
    || (a == SupplierSpecific && b == CustomerSpecific)
  }

  /** Subject and time frame stand unless there was no second reading or it names
      another; neither is ever replaced. */
  lemma SubjectAndTimeframeAre(lex: Lexicon, f: Finding, answers: Answers)
    ensures var settled, first := Classify(lex, f, answers).proposition, f.proposition;
            && settled.predicateText == first.predicateText
            && settled.subject == (if Heard(f, answers) && SubjectAgrees(Norm(first.subject), Norm(answers.second.value.reading.subject))
                                   then first.subject else "")
            && settled.timeframe == (if Heard(f, answers) && (NormOf(answers.second.value.reading.timeframe) == ""
                                         || NormOf(answers.second.value.reading.timeframe) == NormOf(first.timeframe))
                                     then first.timeframe else None)
  {}

  predicate SubjectAgrees(first: string, second: string) {
    second == "" || first == second || Contains(second, first) || Contains(first, second)
  }

  // ----- the states -----

  /** A direction is in dispute when nobody confirmed it, the readings clash, or
      the text says otherwise. */
  lemma DisputeIff(lex: Lexicon, f: Finding, answers: Answers)
    ensures SettledProposition(lex, f, answers).disputed <==>
            !Heard(f, answers) || ReadingsClash(lex, f, answers) || TextReverses(lex, f, answers)
  {
    assert SpeaksOf(lex, f.proposition.predicateText, true) <==> DirectionOf(lex, f.proposition.predicateText) == Some(Up);
    assert SpeaksOf(lex, f.proposition.predicateText, false) <==> DirectionOf(lex, f.proposition.predicateText) == Some(Down);
    assert SpeaksOf(lex, f.text, true) <==> DirectionOf(lex, f.text) == Some(Up);
    assert SpeaksOf(lex, f.text, false) <==> DirectionOf(lex, f.text) == Some(Down);
  }

  lemma RelevanceIff(lex: Lexicon, f: Finding, answers: Answers)
    ensures Relevant(lex, f, SettledProposition(lex, f, answers)) <==> lex.relevant(f.question, ClaimText(lex, f, answers))
  {
    QuantityIff(lex, f, answers);
    SubjectAndTimeframeAre(lex, f, answers);
  }

  lemma SourcesIff(f: Finding)
    ensures Credible(f.sources) <==> HasCredibleSource(f)
  {}

  /** The state of a finding, for all answers: a negation by any voice decides;
      then whatever is unheard, unanswered, disputed or beside the question is
      unknown; only then does the verdict count, and a supporting one is external
      evidence exactly with a credible source and nobody suspecting a self-report. */
  lemma StateIs(lex: Lexicon, f: Finding, answers: Answers)
    ensures Classify(lex, f, answers).finding == f
    ensures Classify(lex, f, answers).state ==
            if SomeoneNegates(lex, f, answers) then Contradicted
            else if !Settled(lex, f, answers) then Unknown
            else if f.verdict == Contradicts then Contradicted
            else if f.verdict == Inconclusive || f.verdict == NotApplicable then Unknown
            else if HasCredibleSource(f) && !SomeoneSuspectsSelfReport(lex, f, answers) then ExternalMarketEvidence
            else Inferred
  {
    NegationIff(lex, f, answers);
    SelfReportIff(lex, f, answers);
    RelevanceIff(lex, f, answers);
    SourcesIff(f);
    DisputeIff(lex, f, answers);
  }

  /** Evidence against the signal is never lost: CONTRADICTED exactly on a
      negation or on a settled finding whose verdict contradicts. */
  lemma ContradictedIff(lex: Lexicon, f: Finding, answers: Answers)
    ensures Classify(lex, f, answers).state == Contradicted <==>
            SomeoneNegates(lex, f, answers) || (Settled(lex, f, answers) && f.verdict == Contradicts)
  {
    StateIs(lex, f, answers);
  }
}
