/** The validation pass over the commercial kernel (app/pipeline/kernel.py:366-383). */
module Kernel {
  import opened Options

  datatype EvidenceState = Verified | Calculated | SupplierClaim | StakeholderView | Assumed | Inferred | Unknown | Contradicted

  // What the evidence states: an amount, a text, or a list of either.
  datatype Value = Number(amount: real) | Words(text: string) | Many(items: seq<Value>)

  datatype Fact = Fact(
    entity: string, metric: string, period: Option<string>,
    value: Option<Value>, currency: Option<string>, state: EvidenceState)

  datatype Key = Key(entity: string, metric: string, period: Option<string>)

  function KeyOf(f: Fact): Key { Key(f.entity, f.metric, f.period) }

  datatype Check = MissingEntity | MissingCurrency | DuplicateConsistent | DuplicateConflicting

  datatype Violation = Violation(check: Check, key: Key)

  predicate NeedsCurrency(f: Fact) {
    && f.metric in ["annual_spend", "scenario_annual_impact", "scenario_difference"]
    && f.value.Some? && f.currency.None? && !f.state.Contradicted?
  }

  predicate SaysTheSame(f: Fact, g: Fact) { f.value == g.value && f.currency == g.currency }

  /** The first fact of a key: the only one the later facts are compared with. */
  function FirstOf(facts: seq<Fact>, key: Key): Option<Fact> {
    if facts == [] then None
    else if FirstOf(facts[..|facts| - 1], key).Some? then FirstOf(facts[..|facts| - 1], key)
    else if KeyOf(facts[|facts| - 1]) == key then Some(facts[|facts| - 1])
    else None
  }

  /** The violations of one fact, given the facts before it. */
  function OfFact(before: seq<Fact>, f: Fact): seq<Violation> {
    (if f.entity == "" then [Violation(MissingEntity, KeyOf(f))] else [])
    + (if NeedsCurrency(f) then [Violation(MissingCurrency, KeyOf(f))] else [])
    + (var prior := FirstOf(before, KeyOf(f));
       if prior.None? then []
       else [Violation(if SaysTheSame(prior.value, f) then DuplicateConsistent else DuplicateConflicting, KeyOf(f))])
  }

  function Violations(facts: seq<Fact>): seq<Violation> {
    if facts == [] then []
    else Violations(facts[..|facts| - 1]) + OfFact(facts[..|facts| - 1], facts[|facts| - 1])
  }

  /** The map of first facts by key, as a lookup. */
  ghost predicate SeenHoldsFirsts(seen: map<Key, Fact>, facts: seq<Fact>) {
    forall key :: (if key in seen then Some(seen[key]) else None) == FirstOf(facts, key)
  }

  method CheckFact(seen: map<Key, Fact>, f: Fact, ghost before: seq<Fact>)
    returns (found: seq<Violation>, seen': map<Key, Fact>)
    requires SeenHoldsFirsts(seen, before)
    ensures found == OfFact(before, f)
    ensures SeenHoldsFirsts(seen', before + [f])
  {
    found, seen' := [], seen;
    assert (before + [f])[..|before|] == before;
    if f.entity == "" {
      found := found + [Violation(MissingEntity, KeyOf(f))];
    }
    if NeedsCurrency(f) {
      found := found + [Violation(MissingCurrency, KeyOf(f))];
    }
    assert FirstOf(before, KeyOf(f)) == if KeyOf(f) in seen then Some(seen[KeyOf(f)]) else None;
    if KeyOf(f) in seen {
      var check := if SaysTheSame(seen[KeyOf(f)], f) then DuplicateConsistent else DuplicateConflicting;
      found := found + [Violation(check, KeyOf(f))];
    } else {
      seen' := seen[KeyOf(f) := f];
    }
  }

  /** `validate_kernel`. */
  method ValidateKernel(facts: seq<Fact>) returns (found: seq<Violation>)
    ensures found == Violations(facts)
    ensures Duplicates(found) + |Keys(facts)| == |facts|
  {
    found := [];
    var seen: map<Key, Fact> := map[];
    for n := 0 to |facts|
      invariant found == Violations(facts[..n])
      invariant SeenHoldsFirsts(seen, facts[..n])
    {
      assert facts[..n + 1] == facts[..n] + [facts[n]];
      var next;
      next, seen := CheckFact(seen, facts[n], facts[..n]);
      found := found + next;
    }
    assert facts[..|facts|] == facts;
    DuplicatesCountRepeatedKeys(facts);
  }

  // ----- counting duplicates -----

  predicate IsDuplicate(v: Violation) { v.check.DuplicateConsistent? || v.check.DuplicateConflicting? }

  function Duplicates(vs: seq<Violation>): nat {
    if vs == [] then 0 else Duplicates(vs[..|vs| - 1]) + (if IsDuplicate(vs[|vs| - 1]) then 1 else 0)
  }

  function Keys(facts: seq<Fact>): set<Key> { set f | f in facts :: KeyOf(f) }

  lemma {:induction false} DuplicatesOfSum(a: seq<Violation>, b: seq<Violation>)
    ensures Duplicates(a + b) == Duplicates(a) + Duplicates(b)
  {
    if b == [] {
      assert a + b == a;
    } else {
      DuplicatesOfSum(a, b[..|b| - 1]);
      assert (a + b)[..|a + b| - 1] == a + b[..|b| - 1];
    }
  }

  lemma {:induction false} FirstOfIsFirst(facts: seq<Fact>, key: Key)
    ensures FirstOf(facts, key).Some? <==> key in Keys(facts)
    ensures FirstOf(facts, key).Some? ==> FirstOf(facts, key).value in facts && KeyOf(FirstOf(facts, key).value) == key
  {
    if facts != [] {
      var front, last := facts[..|facts| - 1], facts[|facts| - 1];
      FirstOfIsFirst(front, key);
      assert facts == front + [last];
      assert Keys(facts) == Keys(front) + {KeyOf(last)};
    }
  }

  lemma DuplicatesOfFact(before: seq<Fact>, f: Fact)
    ensures Duplicates(OfFact(before, f)) == if KeyOf(f) in Keys(before) then 1 else 0
  {
    FirstOfIsFirst(before, KeyOf(f));
    var a := if f.entity == "" then [Violation(MissingEntity, KeyOf(f))] else [];
    var b := if NeedsCurrency(f) then [Violation(MissingCurrency, KeyOf(f))] else [];
    var prior := FirstOf(before, KeyOf(f));
    var c := if prior.None? then []
             else [Violation(if SaysTheSame(prior.value, f) then DuplicateConsistent else DuplicateConflicting, KeyOf(f))];
    assert OfFact(before, f) == a + b + c;
    DuplicatesOfSum(a + b, c);
    DuplicatesOfSum(a, b);
  }

  /** As many duplicate violations as facts beyond the distinct keys. */
  lemma {:induction false} DuplicatesCountRepeatedKeys(facts: seq<Fact>)
    ensures Duplicates(Violations(facts)) == |facts| - |Keys(facts)|
  {
    if facts == [] {
      assert Keys(facts) == {};
    } else {
      var front, last := facts[..|facts| - 1], facts[|facts| - 1];
      DuplicatesCountRepeatedKeys(front);
      DuplicatesOfSum(Violations(front), OfFact(front, last));
      DuplicatesOfFact(front, last);
      assert facts == front + [last];
      assert Keys(facts) == Keys(front) + {KeyOf(last)};
    }
  }

  // ----- conflicts -----

  ghost predicate Reports(facts: seq<Fact>, check: Check) {
    exists v :: v in Violations(facts) && v.check == check
  }

  predicate Agree(f: Fact, g: Fact) {
    KeyOf(f) == KeyOf(g) ==> SaysTheSame(f, g)
  }

  ghost predicate AllAgree(facts: seq<Fact>) {
    forall f, g :: f in facts && g in facts ==> Agree(f, g)
  }

  lemma ConflictOfFact(before: seq<Fact>, f: Fact)
    ensures (exists v :: v in OfFact(before, f) && v.check == DuplicateConflicting)
            <==> FirstOf(before, KeyOf(f)).Some? && !SaysTheSame(FirstOf(before, KeyOf(f)).value, f)
  {}

  /** No conflict is reported exactly when all facts of a key agree pairwise,
      although each is compared only with the first. */
  lemma {:induction false} NoConflictIffAllAgree(facts: seq<Fact>)
    ensures !Reports(facts, DuplicateConflicting) <==> AllAgree(facts)
  {
    if facts != [] {
      var front, last := facts[..|facts| - 1], facts[|facts| - 1];
      NoConflictIffAllAgree(front);
      ConflictOfFact(front, last);
      FirstOfIsFirst(front, KeyOf(last));
      assert facts == front + [last];
      ReportsSplit(facts, DuplicateConflicting);
      AgreeWithFirst(front, last);
    }
  }

  lemma ReportsSplit(facts: seq<Fact>, check: Check)
    requires facts != []
    ensures Reports(facts, check) <==> Reports(facts[..|facts| - 1], check)
                                       || exists v :: v in OfFact(facts[..|facts| - 1], facts[|facts| - 1]) && v.check == check
  {}

  /** Against agreeing facts, agreeing with the first of a key is agreeing with all. */
  lemma AgreeWithFirst(front: seq<Fact>, last: Fact)
    ensures AllAgree(front + [last]) <==>
            AllAgree(front) && (FirstOf(front, KeyOf(last)).Some? ==> SaysTheSame(FirstOf(front, KeyOf(last)).value, last))
  {
    var first := FirstOf(front, KeyOf(last));
    FirstOfIsFirst(front, KeyOf(last));
    var facts := front + [last];
    if AllAgree(facts) {
      forall f, g | f in front && g in front ensures Agree(f, g) { assert f in facts && g in facts; }
      if first.Some? { assert first.value in facts && last in facts && Agree(first.value, last); }
    }
    if AllAgree(front) && (first.Some? ==> SaysTheSame(first.value, last)) {
      forall f, g | f in facts && g in facts ensures Agree(f, g) {
        assert f in front || f == last;
        assert g in front || g == last;
        if f in front && KeyOf(f) == KeyOf(last) { assert KeyOf(last) in Keys(front); assert Agree(first.value, f); }
        if g in front && KeyOf(g) == KeyOf(last) { assert KeyOf(last) in Keys(front); assert Agree(first.value, g); }
      }
    }
  }

  // ----- which violations there are -----

  /** A spend or scenario figure with a value, without a currency, not contradicted. */
  predicate LacksCurrency(f: Fact) {
    && (f.metric == "annual_spend" || f.metric == "scenario_annual_impact" || f.metric == "scenario_difference")
    && f.value.Some? && f.currency.None? && f.state != Contradicted
  }

  /** Fact `k` repeats the key of an earlier one, the first of which is `j`. */
  predicate Repeats(facts: seq<Fact>, j: nat, k: nat) {
    && j < k < |facts| && KeyOf(facts[j]) == KeyOf(facts[k])
    && forall i :: 0 <= i < j ==> KeyOf(facts[i]) != KeyOf(facts[k])
  }

  /** What fact `k` is reported for. */
  ghost predicate ReportedFor(facts: seq<Fact>, k: nat, check: Check)
    requires k < |facts|
  {
    match check
    case MissingEntity => facts[k].entity == ""
    case MissingCurrency => LacksCurrency(facts[k])
    case DuplicateConsistent =>
      exists j :: 0 <= j < k && Repeats(facts, j, k) && facts[j].value == facts[k].value && facts[j].currency == facts[k].currency
    case DuplicateConflicting =>
      exists j :: 0 <= j < k && Repeats(facts, j, k) && !(facts[j].value == facts[k].value && facts[j].currency == facts[k].currency)
  }

  lemma {:induction false} FirstOfIs(facts: seq<Fact>, key: Key)
    ensures FirstOf(facts, key).Some? ==>
              exists j :: 0 <= j < |facts| && facts[j] == FirstOf(facts, key).value && KeyOf(facts[j]) == key
                          && forall i :: 0 <= i < j ==> KeyOf(facts[i]) != key
    ensures FirstOf(facts, key).None? ==> forall i :: 0 <= i < |facts| ==> KeyOf(facts[i]) != key
  {
    if facts != [] {
      var front := facts[..|facts| - 1];
      FirstOfIs(front, key);
      assert forall i :: 0 <= i < |front| ==> facts[i] == front[i];
      if FirstOf(front, key).Some? {
        var j :| 0 <= j < |front| && front[j] == FirstOf(front, key).value && KeyOf(front[j]) == key
                 && forall i :: 0 <= i < j ==> KeyOf(front[i]) != key;
        assert facts[j] == FirstOf(facts, key).value;
      }
    }
  }

  lemma LastIsReportedIff(facts: seq<Fact>, v: Violation)
    requires facts != []
    ensures v in OfFact(facts[..|facts| - 1], facts[|facts| - 1])
            <==> v.key == KeyOf(facts[|facts| - 1]) && ReportedFor(facts, |facts| - 1, v.check)
  {
    var front, last, n := facts[..|facts| - 1], facts[|facts| - 1], |facts| - 1;
    var prior := FirstOf(front, KeyOf(last));
    FirstOfIs(front, KeyOf(last));
    assert forall i :: 0 <= i < |front| ==> facts[i] == front[i];
    if prior.Some? {
      var j :| 0 <= j < |front| && front[j] == prior.value && KeyOf(front[j]) == KeyOf(last)
               && forall i :: 0 <= i < j ==> KeyOf(front[i]) != KeyOf(last);
      assert Repeats(facts, j, n);
      assert forall i :: 0 <= i < n && Repeats(facts, i, n) ==> i == j;
    }
    OfFactIff(front, last, v);
  }

  lemma OfFactIff(before: seq<Fact>, f: Fact, v: Violation)
    ensures v in OfFact(before, f) <==>
            && v.key == KeyOf(f)
            && match v.check
               case MissingEntity => f.entity == ""
               case MissingCurrency => LacksCurrency(f)
               case DuplicateConsistent =>
                 var prior := FirstOf(before, KeyOf(f)); prior.Some? && SaysTheSame(prior.value, f)
               case DuplicateConflicting =>
                 var prior := FirstOf(before, KeyOf(f)); prior.Some? && !SaysTheSame(prior.value, f)
  {}

  lemma ReportedForIsLocal(facts: seq<Fact>, k: nat, check: Check)
    requires k < |facts| - 1
    ensures ReportedFor(facts, k, check) <==> ReportedFor(facts[..|facts| - 1], k, check)
  {
    var front := facts[..|facts| - 1];
    assert forall i :: 0 <= i < |front| ==> facts[i] == front[i];
    assert forall j :: 0 <= j < k ==> (Repeats(facts, j, k) <==> Repeats(front, j, k));
  }

  /** Exactly these violations are reported, each under the key of its fact; a
      repeated key is compared with its first fact. */
  lemma {:induction false} ViolationIff(facts: seq<Fact>, v: Violation)
    ensures v in Violations(facts) <==> exists k :: 0 <= k < |facts| && KeyOf(facts[k]) == v.key && ReportedFor(facts, k, v.check)
  {
    if facts != [] {
      var front, last := facts[..|facts| - 1], |facts| - 1;
      ViolationIff(front, v);
      LastIsReportedIff(facts, v);
      forall k | 0 <= k < last ensures KeyOf(facts[k]) == KeyOf(front[k]) && (ReportedFor(facts, k, v.check) <==> ReportedFor(front, k, v.check)) {
        ReportedForIsLocal(facts, k, v.check);
      }
      if v in Violations(front) {
        var k :| 0 <= k < |front| && KeyOf(front[k]) == v.key && ReportedFor(front, k, v.check);
        assert ReportedFor(facts, k, v.check);
      }
    }
  }

  /** The other two checks fire exactly on the facts that lack what they need. */
  lemma {:induction false} FieldChecksIff(facts: seq<Fact>)
    ensures Reports(facts, MissingEntity) <==> exists f :: f in facts && f.entity == ""
    ensures Reports(facts, MissingCurrency) <==> exists f :: f in facts && NeedsCurrency(f)
  {
    if facts != [] {
      var front, last := facts[..|facts| - 1], facts[|facts| - 1];
      FieldChecksIff(front);
      assert facts == front + [last];
      ReportsSplit(facts, MissingEntity);
      ReportsSplit(facts, MissingCurrency);
      FieldChecksOfFact(front, last);
      assert last in facts;
      assert forall f :: f in facts <==> f in front || f == last;
    }
  }

  lemma FieldChecksOfFact(before: seq<Fact>, f: Fact)
    ensures (exists v :: v in OfFact(before, f) && v.check == MissingEntity) <==> f.entity == ""
    ensures (exists v :: v in OfFact(before, f) && v.check == MissingCurrency) <==> NeedsCurrency(f)
  {
    var entity, currency := Violation(MissingEntity, KeyOf(f)), Violation(MissingCurrency, KeyOf(f));
    assert f.entity == "" ==> OfFact(before, f)[0] == entity;
    assert NeedsCurrency(f) ==> OfFact(before, f)[if f.entity == "" then 1 else 0] == currency;
  }

  /** Violations come in the order of the facts they are reported for. */
  lemma {:induction false} EarlierFactsAreReportedFirst(facts: seq<Fact>, n: nat)
    requires n <= |facts|
    ensures Violations(facts[..n]) <= Violations(facts)
  {
    if n < |facts| {
      EarlierFactsAreReportedFirst(facts[..|facts| - 1], n);
      assert facts[..|facts| - 1][..n] == facts[..n];
    } else {
      assert facts[..n] == facts;
    }
  }
}
