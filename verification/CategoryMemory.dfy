/** How retrieved memory becomes the history a classification sees
    (app/pipeline/memory_service.py:357-572).  The category answer passes no
    business date (app/pipeline/category_strategy_profile.py:350), so none appears. */
module CategoryMemory {
  import opened Options
  import opened Texts
  import opened CategoryStrategy
  import opened MoneyText

  datatype FactType =
    | SpendConcentration | StrategyClassification | PriceHistoryContradiction | ContractMechanism
    | OtherType(name: string)

  // `retired` is a temporal status of SUPERSEDED or EXPIRED.
  datatype MemoryItem = MemoryItem(
    supplier: Option<string>, factType: FactType, retired: bool, finding: string, implication: Option<string>)

  // ----- percentages in a text -----

  predicate PercentAt(s: string, i: nat) {
    0 < i < |s| && s[i] == '%' && IsDigit(s[i - 1])
  }

  ghost predicate HasPercent(s: string) { exists i :: 0 <= i < |s| && PercentAt(s, i) }

  /** `re.findall(r"[+-]?\d+(?:\.\d+)?%", s)` finds something exactly where a
      percent sign follows a digit; what it finds is left open. */
  ghost predicate FindsPercentages(numbers: string -> seq<string>) {
    forall s :: numbers(s) != [] <==> HasPercent(s)
  }

  /** The finding's own figures, else those of its implication. */
  function NumbersOf(numbers: string -> seq<string>, finding: string, implication: Option<string>): seq<string> {
    if numbers(finding) != [] then numbers(finding)
    else if implication.Some? then numbers(implication.value)
    else []
  }

  // ----- reconciling (reconcile_one, reconcile_memory_for_category) -----

  predicate IsClaimConsistency(t: FactType) { t.PriceHistoryContradiction? || t.ContractMechanism? }

  predicate IsConcentration(t: FactType) { t.SpendConcentration? || t.StrategyClassification? }

  function ReconcileOne(numbers: string -> seq<string>, item: MemoryItem, current: string): Precedent {
    if item.retired then Precedent(STALE, item.finding, false) else
    var was, now := NumbersOf(numbers, item.finding, item.implication), NumbersOf(numbers, current, None);
    if was != [] && now != [] then
      if was == now then Precedent(SUPPORTS, item.finding, false)
      else if IsClaimConsistency(item.factType) then Precedent(CONTRADICTS, item.finding, false)
      else Precedent(COMPLEMENTS, item.finding, true)
    else
      Precedent(COMPLEMENTS, item.finding,
                Strip(item.finding) != "" && Strip(current) != "" && Strip(item.finding) != Strip(current))
  }

  /** A supplier whose share the diagnosis knows. */
  predicate Known(rows: seq<Row>, supplier: string) {
    supplier != "" && RowOf(rows, supplier).share.Some?
  }

  function ShareSentence(rows: seq<Row>, supplier: string): string
    requires Known(rows, supplier)
  {
    supplier + " holds " + RowOf(rows, supplier).share.value.text + "% of category spend."
  }

  /** The last matching item decides. */
  function PrecedentFor(rows: seq<Row>, numbers: string -> seq<string>, items: seq<MemoryItem>, supplier: string): Option<Precedent> {
    if items == [] || !Known(rows, supplier) then None else
    var last := items[|items| - 1];
    if last.supplier == Some(supplier) && IsConcentration(last.factType)
    then Some(ReconcileOne(numbers, last, ShareSentence(rows, supplier)))
    else PrecedentFor(rows, numbers, items[..|items| - 1], supplier)
  }

  function RelatedFor(rows: seq<Row>, items: seq<MemoryItem>, supplier: string): seq<RelatedItem> {
    if items == [] || !Known(rows, supplier) then [] else
    var last := items[|items| - 1];
    RelatedFor(rows, items[..|items| - 1], supplier)
    + (if last.supplier == Some(supplier) && !IsConcentration(last.factType)
       then [RelatedItem(last.finding, last.implication)] else [])
  }

  // A related item keeps the supplier it is about; category-level items have none.
  datatype Related = Related(supplier: Option<string>, item: RelatedItem)

  function OfSupplier(related: seq<Related>, supplier: string): seq<RelatedItem> {
    if related == [] then []
    else OfSupplier(related[..|related| - 1], supplier)
         + (if related[|related| - 1].supplier == Some(supplier) then [related[|related| - 1].item] else [])
  }

  ghost predicate HoldsPrecedents(precedents: map<string, Precedent>, rows: seq<Row>, numbers: string -> seq<string>, items: seq<MemoryItem>) {
    forall s :: PrecedentFor(rows, numbers, items, s) == if s in precedents then Some(precedents[s]) else None
  }

  ghost predicate HoldsRelated(related: seq<Related>, rows: seq<Row>, items: seq<MemoryItem>) {
    forall s :: Known(rows, s) ==> OfSupplier(related, s) == RelatedFor(rows, items, s)
  }

  lemma OneMoreRelated(related: seq<Related>, r: Related, supplier: string)
    ensures OfSupplier(related + [r], supplier)
            == if r.supplier == Some(supplier) then OfSupplier(related, supplier) + [r.item] else OfSupplier(related, supplier)
  {
    assert (related + [r])[..|related|] == related;
  }

  /** `reconcile_memory_for_category`: one pass sorts every item into the
      precedent of its supplier, its related context, or nothing. */
  method ReconcileMemory(rows: seq<Row>, numbers: string -> seq<string>, items: seq<MemoryItem>)
    returns (precedents: map<string, Precedent>, related: seq<Related>)
    ensures HoldsPrecedents(precedents, rows, numbers, items)
    ensures HoldsRelated(related, rows, items)
  {
    precedents, related := map[], [];
    for n := 0 to |items|
      invariant HoldsPrecedents(precedents, rows, numbers, items[..n])
      invariant HoldsRelated(related, rows, items[..n])
    {
      var item := items[n];
      ghost var before := related;
      assert items[..n + 1][..n] == items[..n];
      if item.supplier.Some? && Known(rows, item.supplier.value) {
        if IsConcentration(item.factType) {
          precedents := precedents[item.supplier.value := ReconcileOne(numbers, item, ShareSentence(rows, item.supplier.value))];
        } else {
          related := related + [Related(item.supplier, RelatedItem(item.finding, item.implication))];
        }
      } else if !item.retired && item.supplier.None? {
        related := related + [Related(None, RelatedItem(item.finding, item.implication))];
      }
      forall s | Known(rows, s) ensures OfSupplier(related, s) == RelatedFor(rows, items[..n + 1], s) {
        if related != before { OneMoreRelated(before, related[|before|], s); }
      }
    }
    assert items[..|items|] == items;
  }

  /** The history an answer sees when it retrieves these items. */
  function HistoryOf(rows: seq<Row>, numbers: string -> seq<string>, items: seq<MemoryItem>,
                     onFinding: (nat, Finding) -> Option<Precedent>): History {
    History(supplier => PrecedentFor(rows, numbers, items, supplier), supplier => RelatedFor(rows, items, supplier), onFinding)
  }

  // ----- what reconciling says -----

  /** A retired item is stale; equal figures on both sides confirm, different ones
      conflict for a claim about its own moment and otherwise complement as a
      difference, and without figures on both sides the texts are compared. */
  lemma ReconcileOneIs(numbers: string -> seq<string>, item: MemoryItem, current: string)
    ensures var p, stated := ReconcileOne(numbers, item, current),
                if numbers(item.finding) != [] then numbers(item.finding)
                else if item.implication.Some? then numbers(item.implication.value) else [];
            var figures, differ := stated != [] && numbers(current) != [], stated != numbers(current);
            && p.text == item.finding
            && (p.relationship == STALE <==> item.retired)
            && (p.relationship == SUPPORTS <==> !item.retired && figures && !differ)
            && (p.relationship == CONTRADICTS <==>
                  !item.retired && figures && differ && item.factType in {PriceHistoryContradiction, ContractMechanism})
            && (p.relationship == COMPLEMENTS <==>
                  !item.retired && (figures ==> differ && item.factType !in {PriceHistoryContradiction, ContractMechanism}))
            && (p.valuesDiffer <==>
                  && p.relationship == COMPLEMENTS
                  && (figures || (Strip(item.finding) != "" && Strip(current) != "" && Strip(item.finding) != Strip(current))))
  {}

  /** An item is a supplier's own precedent, or related to it. */
  predicate IsPrecedentOf(item: MemoryItem, supplier: string) {
    item.supplier == Some(supplier) && item.factType in {SpendConcentration, StrategyClassification}
  }

  /** Item `i` is the last of them. */
  predicate IsLastPrecedent(items: seq<MemoryItem>, supplier: string, i: nat) {
    i < |items| && IsPrecedentOf(items[i], supplier) && forall j :: i < j < |items| ==> !IsPrecedentOf(items[j], supplier)
  }

  /** The last such item decides, compared with the supplier's share of spend; a
      supplier without a known share has no precedent. */
  ghost predicate IsPrecedent(rows: seq<Row>, numbers: string -> seq<string>, items: seq<MemoryItem>, supplier: string, p: Option<Precedent>) {
    match p
    case None =>
      supplier == "" || RowOf(rows, supplier).share.None? || forall i :: 0 <= i < |items| ==> !IsPrecedentOf(items[i], supplier)
    case Some(precedent) =>
      && supplier != "" && RowOf(rows, supplier).share.Some?
      && exists i: nat :: IsLastPrecedent(items, supplier, i)
           && precedent == ReconcileOne(numbers, items[i], supplier + " holds " + RowOf(rows, supplier).share.value.text + "% of category spend.")
  }

  lemma {:induction false} PrecedentIsLast(rows: seq<Row>, numbers: string -> seq<string>, items: seq<MemoryItem>, supplier: string)
    ensures IsPrecedent(rows, numbers, items, supplier, PrecedentFor(rows, numbers, items, supplier))
  {
    if items != [] && Known(rows, supplier) {
      var front, last := items[..|items| - 1], items[|items| - 1];
      PrecedentIsLast(rows, numbers, front, supplier);
      assert items == front + [last];
      OneMoreItemDecides(rows, numbers, front, last, supplier, PrecedentFor(rows, numbers, front, supplier));
    }
  }

  lemma OneMoreItemDecides(rows: seq<Row>, numbers: string -> seq<string>, front: seq<MemoryItem>, last: MemoryItem, supplier: string, p: Option<Precedent>)
    requires Known(rows, supplier) && IsPrecedent(rows, numbers, front, supplier, p)
    ensures IsPrecedent(rows, numbers, front + [last], supplier,
                        if IsPrecedentOf(last, supplier) then Some(ReconcileOne(numbers, last, ShareSentence(rows, supplier))) else p)
  {
    var items := front + [last];
    if IsPrecedentOf(last, supplier) {
      assert IsLastPrecedent(items, supplier, |front|);
    } else if p.Some? {
      var i: nat :| IsLastPrecedent(front, supplier, i) && p.value == ReconcileOne(numbers, front[i], ShareSentence(rows, supplier));
      assert IsLastPrecedent(items, supplier, i) && items[i] == front[i];
    }
  }

  /** Its other items are related context, in the order they were retrieved. */
  lemma {:induction false} RelatedOfSum(rows: seq<Row>, a: seq<MemoryItem>, b: seq<MemoryItem>, supplier: string)
    ensures RelatedFor(rows, a + b, supplier) == RelatedFor(rows, a, supplier) + RelatedFor(rows, b, supplier)
    decreases |b|
  {
    if b == [] {
      assert a + b == a;
    } else {
      assert (a + b)[..|a + b| - 1] == a + b[..|b| - 1];
      RelatedOfSum(rows, a, b[..|b| - 1], supplier);
    }
  }

  lemma RelatedOfOne(rows: seq<Row>, item: MemoryItem, supplier: string)
    ensures RelatedFor(rows, [item], supplier)
            == if supplier != "" && RowOf(rows, supplier).share.Some? && item.supplier == Some(supplier)
                  && item.factType !in {SpendConcentration, StrategyClassification}
               then [RelatedItem(item.finding, item.implication)] else []
  {
    assert [item][..0] == [];
  }

  // ----- what supplier precedents can be -----

  /** A text is its stripped form with spaces around it. */
  lemma StripInside(s: string) returns (lead: string, tail: string)
    ensures s == lead + Strip(s) + tail
    ensures forall i :: 0 <= i < |lead| ==> IsSpace(lead[i])
    ensures forall i :: 0 <= i < |tail| ==> IsSpace(tail[i])
  {
    var word;
    word, tail := StripSplits(s);
    SkippingLeavesSuffix(s);
    lead := s[..|s| - |SkipSpaces(s)|];
    forall i | 0 <= i < |lead| ensures IsSpace(lead[i]) { SkippedAreSpaces(s, i); }
  }

  lemma PercentSurvivesStrip(s: string)
    ensures HasPercent(s) <==> HasPercent(Strip(s))
  {
    var lead, tail := StripInside(s);
    var word := Strip(s);
    if i :| 0 <= i < |s| && PercentAt(s, i) {
      assert !IsSpace(s[i]) && !IsSpace(s[i - 1]);
      assert i - 1 >= |lead| && i < |lead| + |word|;
      assert PercentAt(word, i - |lead|);
    }
    if i :| 0 <= i < |word| && PercentAt(word, i) {
      assert PercentAt(s, |lead| + i);
    }
  }

  lemma ShareSentenceHasPercent(rows: seq<Row>, supplier: string)
    requires Known(rows, supplier)
    requires var text := RowOf(rows, supplier).share.value.text; text != "" && IsDigit(text[|text| - 1])
    ensures HasPercent(ShareSentence(rows, supplier)) && Strip(ShareSentence(rows, supplier)) != ""
  {
    var s := ShareSentence(rows, supplier);
    var k := |supplier + " holds " + RowOf(rows, supplier).share.value.text|;
    assert PercentAt(s, k);
    NotBlank(s, k);
  }

  /** What can reach a supplier's reason: a precedent confirms, differs or is
      retired.  The sentences for a change over time and for a contradiction never
      appear, and the one for a recurrence only quotes a blank text. */
  lemma SupplierPrecedentsAre(rows: seq<Row>, numbers: string -> seq<string>, items: seq<MemoryItem>, supplier: string)
    requires FindsPercentages(numbers) && PrecedentFor(rows, numbers, items, supplier).Some?
    requires var text := RowOf(rows, supplier).share.value.text; text != "" && IsDigit(text[|text| - 1])
    ensures var p := PrecedentFor(rows, numbers, items, supplier).value;
            && p.relationship in {SUPPORTS, COMPLEMENTS, STALE}
            && (p.relationship == COMPLEMENTS && !p.valuesDiffer ==> Strip(p.text) == "")
  {
    var last := items[|items| - 1];
    if last.supplier == Some(supplier) && IsConcentration(last.factType) {
      var current := ShareSentence(rows, supplier);
      ShareSentenceHasPercent(rows, supplier);
      PercentSurvivesStrip(current);
      PercentSurvivesStrip(last.finding);
    } else {
      SupplierPrecedentsAre(rows, numbers, items[..|items| - 1], supplier);
    }
  }
}
