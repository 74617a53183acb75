/** The one place where history reaches the roadmap: it looks for "capacity" in
    the reason of a monitored supplier (app/pipeline/dependency_roadmap.py:164),
    and the reason carries history text.
    Long sentences are written as sums of shorter literals throughout: the
    verifier expands a literal character by character. */
module CategoryWording {
  import opened Options
  import opened Texts
  import opened Roadmap
  import RoadmapOrder
  import opened StableSorting
  import opened CategoryStrategy
  import opened CategoryTheorems
  import opened CategoryMemory

  // ----- the source's sentences -----

  const CAPACITY_TAIL := " is stated but not yet validated" + " -- confirm the figure before relying on it as an alternative"

  const CAPACITY_REASON := "capacity" + CAPACITY_TAIL

  // Only the middle word has a 'p', so no other part can begin "cap...".
  const MONITOR_OPENING := "current evidence does" + " not clearly"
  const MONITOR_CLOSING := " a stronger classification" + " than ongoing monitoring"
  const MONITOR_REASON := MONITOR_OPENING + " support" + MONITOR_CLOSING

  /** A sentence appended after a space, with a stored text inside. */
  function Quoting(head: string, text: string, tail: string): string { " " + head + text + tail }

  const DIFFERS_HEAD := "-- this differs from a previously" + " recorded observation ("
  const DIFFERS_TAIL := "); whether that reflects a genuine change" + " over time or a conflicting observation"
                        + " is not established, since the period" + " of the prior observation is unknown"

  function SourceBase(g: Ground, row: Row, profile: Profile): string {
    var share := if row.share.Some? then row.share.value.text else "";
    match g
    case HighShare =>
      "holds " + share + "% of category spend -- a concentration level"
      + " worth actively challenging with dual-sourcing or competitive pressure," + " not treating as settled"
    case OpenQualification =>
      "qualification is not yet complete (stated: " + (if profile.qualification.Some? then profile.qualification.value.value else "")
      + ") -- do not treat as an" + " immediately usable alternative"
    case FastGrowth =>
      "already holds " + share + "% of category spend and is growing faster than the category"
      + " -- worth actively managing the relationship," + " not just monitoring it"
    case UnvalidatedCapacity => CAPACITY_REASON
    case NothingStronger => MONITOR_REASON
  }

  function SourcePrecedent(p: Precedent): string {
    match p.relationship
    case SUPPORTS => Quoting("-- this confirms a previously recorded observation", "", ", not a new or isolated finding")
    case COMPLEMENTS =>
      if p.valuesDiffer then Quoting(DIFFERS_HEAD, p.text, DIFFERS_TAIL)
      else Quoting("-- this recurs a previous observation for this supplier (", p.text, "), not a one-off")
    case TEMPORAL_CHANGE =>
      Quoting("(previously recorded: ", p.text, " -- this reflects genuine change over time, not a discrepancy)")
    case CONTRADICTS =>
      Quoting("-- note: this differs from a same-period prior observation (", p.text,
              "); current evidence is what this classification is based on")
    case _ => ""
  }

  function SourceRelated(r: RelatedItem): string {
    Quoting("(Related historical context," + " not directly comparable evidence" + " -- historical Memory indicates: ",
            r.proposition + (if Truthy(r.implication) then " This may matter because: " + r.implication.value else ""),
            ")")
  }

  predicate StartsWithSpace(s: string) { s == "" || s[0] == ' ' }

  /** What the roadmap's reading rests on: the two monitoring reasons, a history
      sentence appended after a space, and the sentence for values that differ. */
  ghost predicate SourceWording(w: Wording) {
    && (forall row, profile :: w.base(UnvalidatedCapacity, row, profile) == CAPACITY_REASON)
    && (forall row, profile :: w.base(NothingStronger, row, profile) == MONITOR_REASON)
    && (forall p :: StartsWithSpace(w.precedent(p)))
    && (forall r :: StartsWithSpace(w.related(r)))
    && (forall text :: w.precedent(Precedent(COMPLEMENTS, text, true)) == Quoting(DIFFERS_HEAD, text, DIFFERS_TAIL))
  }

  lemma QuotingStartsWithSpace(head: string, text: string, tail: string)
    ensures StartsWithSpace(Quoting(head, text, tail))
  {}

  lemma PrecedentStartsWithSpace(p: Precedent)
    ensures StartsWithSpace(SourcePrecedent(p))
  {
    forall head, text, tail ensures StartsWithSpace(Quoting(head, text, tail)) { QuotingStartsWithSpace(head, text, tail); }
  }

  lemma RelatedStartsWithSpace(r: RelatedItem)
    ensures StartsWithSpace(SourceRelated(r))
  {
    forall head, text, tail ensures StartsWithSpace(Quoting(head, text, tail)) { QuotingStartsWithSpace(head, text, tail); }
  }

  lemma DifferingValuesAreQuoted(text: string)
    ensures SourcePrecedent(Precedent(COMPLEMENTS, text, true)) == Quoting(DIFFERS_HEAD, text, DIFFERS_TAIL)
  {}

  lemma MonitoringBasesAre(row: Row, profile: Profile)
    ensures SourceBase(UnvalidatedCapacity, row, profile) == CAPACITY_REASON
    ensures SourceBase(NothingStronger, row, profile) == MONITOR_REASON
  {}

  /** The sentences of the source have these properties. */
  lemma SourceSentencesQualify(w: Wording)
    requires w.base == SourceBase && w.precedent == SourcePrecedent && w.related == SourceRelated
    ensures SourceWording(w)
  {
    forall row, profile
      ensures w.base(UnvalidatedCapacity, row, profile) == CAPACITY_REASON && w.base(NothingStronger, row, profile) == MONITOR_REASON
    {
      MonitoringBasesAre(row, profile);
    }
    forall p ensures StartsWithSpace(w.precedent(p)) { PrecedentStartsWithSpace(p); }
    forall r ensures StartsWithSpace(w.related(r)) { RelatedStartsWithSpace(r); }
    forall text ensures w.precedent(Precedent(COMPLEMENTS, text, true)) == Quoting(DIFFERS_HEAD, text, DIFFERS_TAIL) {
      DifferingValuesAreQuoted(text);
    }
  }

  // ----- which reasons mention capacity -----

  lemma LowerOfSum(a: string, b: string)
    ensures Lower(a + b) == Lower(a) + Lower(b)
  {}

  lemma WordInSum(a: string, b: string, word: string)
    requires Contains(a, word) || Contains(b, word)
    ensures Contains(a + b, word)
  {
    if Contains(a, word) {
      var i :| 0 <= i <= |a| && OccursAt(a, word, i);
      assert (a + b)[i..i + |word|] == a[i..i + |word|];
      assert OccursAt(a + b, word, i);
    } else {
      var i :| 0 <= i <= |b| && OccursAt(b, word, i);
      assert (a + b)[|a| + i..|a| + i + |word|] == b[i..i + |word|];
      assert OccursAt(a + b, word, |a| + i);
    }
  }

  lemma SpacesAreOutside(text: string, word: string, i: nat, p: nat)
    requires OccursAt(text, word, i) && NoSpaces(word) && p < |text| && IsSpace(text[p])
    ensures p < i || i + |word| <= p
  {
    var k := if i <= p < i + |word| then p - i else 0;
    assert k < |word| ==> text[i..i + |word|][k] == text[i + k];
  }

  lemma WordIsOnOneSide(a: string, b: string, word: string)
    requires NoSpaces(word) && StartsWithSpace(b) && Contains(a + b, word)
    ensures Contains(a, word) || Contains(b, word)
  {
    var i :| 0 <= i <= |a + b| && OccursAt(a + b, word, i);
    if i + |word| <= |a| {
      assert a[i..i + |word|] == (a + b)[i..i + |word|];
      assert OccursAt(a, word, i);
    } else {
      SpacesAreOutside(a + b, word, i, |a|);
      assert b[i - |a|..i - |a| + |word|] == (a + b)[i..i + |word|];
      assert OccursAt(b, word, i - |a|);
    }
  }

  lemma SpaceStays(b: string)
    requires StartsWithSpace(b)
    ensures StartsWithSpace(Lower(b))
  {}

  lemma MentionIsOnOneSide(a: string, b: string)
    requires StartsWithSpace(b)
    ensures MentionsCapacity(a + b) <==> MentionsCapacity(a) || MentionsCapacity(b)
  {
    LowerOfSum(a, b);
    SpaceStays(b);
    CapacityIsOnOneSide(Lower(a), Lower(b));
  }

  lemma CapacityIsOnOneSide(a: string, b: string)
    requires StartsWithSpace(b)
    ensures Contains(a + b, "capacity") <==> Contains(a, "capacity") || Contains(b, "capacity")
  {
    if Contains(a + b, "capacity") {
      WordIsOnOneSide(a, b, "capacity");
    } else if Contains(a, "capacity") || Contains(b, "capacity") {
      WordInSum(a, b, "capacity");
    }
  }

  predicate HasNoP(s: string) { forall i :: 0 <= i < |s| ==> LowerChar(s[i]) != 'p' }

  lemma NoMentionWithoutP(s: string)
    requires HasNoP(s) || (|s| == 8 && s[0] == ' ')
    ensures !MentionsCapacity(s)
  {
    forall i | 0 <= i <= |s| ensures !OccursAt(Lower(s), "capacity", i) {
      if i + 8 <= |s| {
        var found := Lower(s)[i..i + 8];
        assert found[0] == LowerChar(s[i]) && found[2] == LowerChar(s[i + 2]);
        assert "capacity"[0] == 'c' && "capacity"[2] == 'p';
      }
    }
  }

  lemma MonitorPartsHaveNoP()
    ensures HasNoP("current evidence does") && HasNoP(" not clearly")
    ensures HasNoP(" a stronger classification") && HasNoP(" than ongoing monitoring")
  {}

  lemma MonitorReasonMentionsNothing()
    ensures !MentionsCapacity(MONITOR_REASON)
  {
    MonitorPartsHaveNoP();
    NoMentionWithoutP(MONITOR_OPENING);
    NoMentionWithoutP(" support");
    NoMentionWithoutP(MONITOR_CLOSING);
    MentionIsOnOneSide(MONITOR_OPENING, " support");
    MentionIsOnOneSide(MONITOR_OPENING + " support", MONITOR_CLOSING);
  }

  lemma CapacityIsMentioned(word: string, tail: string)
    requires Lower(word) == "capacity"
    ensures MentionsCapacity(word + tail)
  {
    LowerOfSum(word, tail);
    assert Lower(word + tail)[0..8] == "capacity";
    assert OccursAt(Lower(word + tail), "capacity", 0);
  }

  lemma MentionInside(head: string, note: string, tail: string)
    requires MentionsCapacity(note)
    ensures MentionsCapacity(Quoting(head, note, tail))
  {
    LowerOfSum(" " + head, note);
    LowerOfSum(" " + head + note, tail);
    WordInSum(Lower(" " + head), Lower(note), "capacity");
    WordInSum(Lower(" " + head + note), Lower(tail), "capacity");
  }

  // ----- when the initiative exists -----

  lemma BaseMentionsCapacityIff(w: Wording, g: Ground, row: Row, profile: Profile)
    requires SourceWording(w) && StrategyOn(g).MonitorOnly?
    ensures MentionsCapacity(w.base(g, row, profile)) <==> g.UnvalidatedCapacity?
  {
    if g.UnvalidatedCapacity? {
      assert w.base(g, row, profile) == CAPACITY_REASON;
      CapacityIsMentioned("capacity", CAPACITY_TAIL);
    } else {
      assert w.base(g, row, profile) == MONITOR_REASON;
      MonitorReasonMentionsNothing();
    }
  }

  lemma HistoryStartsWithSpace(w: Wording, h: History, supplier: string)
    requires SourceWording(w)
    ensures StartsWithSpace(HistoryText(w, h, supplier))
  {}

  /** A monitored supplier gets a capacity initiative exactly when its capacity
      figure is unvalidated or the text history appended happens to mention
      capacity, which no branch intends. */
  lemma CapacityInitiativeIff(c: Case, h: History, profile: Profile)
    requires SourceWording(c.wording) && StrategyOn(GroundFor(c, profile)).MonitorOnly?
    ensures ForSupplier(Classified(c, h, profile)) != []
            <==> GroundFor(c, profile).UnvalidatedCapacity? || MentionsCapacity(HistoryText(c.wording, h, profile.supplier))
  {
    HistoryStartsWithSpace(c.wording, h, profile.supplier);
    BaseMentionsCapacityIff(c.wording, GroundFor(c, profile), RowOf(c.rows, profile.supplier), profile);
    MentionIsOnOneSide(BaseReason(c, profile), HistoryText(c.wording, h, profile.supplier));
  }

  // ----- the whole roadmap -----

  function EvidenceFor(c: Case, h: History, drivers: seq<Driver>, esgClaims: seq<EsgClaim>): Evidence {
    Evidence(c.priceGrowth.Some?, c.contradictedFact, Strategies(c, h), drivers, esgClaims)
  }

  function NameOf(i: Initiative): string { i.name }

  /** The names of the roadmap's initiatives, in order. */
  function RoadmapNames(c: Case, h: History, drivers: seq<Driver>, esgClaims: seq<EsgClaim>): seq<string> {
    Image(Initiatives(EvidenceFor(c, h, drivers, esgClaims)), NameOf)
  }

  lemma {:induction false} SuppliersFollowVerdicts(ss: seq<SupplierStrategy>, ts: seq<SupplierStrategy>, strategy: Strategy)
    requires SameVerdicts(ss, ts)
    ensures Suppliers(ss, strategy) == Suppliers(ts, strategy)
    decreases |ss|
  {
    if ss != [] { SuppliersFollowVerdicts(ss[..|ss| - 1], ts[..|ts| - 1], strategy); }
  }

  lemma RestFollowsVerdicts(e: Evidence, ts: seq<SupplierStrategy>)
    requires SameVerdicts(e.strategies, ts)
    ensures Downstream(e) == Downstream(e.(strategies := ts)) && Investigations(e) == Investigations(e.(strategies := ts))
  {
    SuppliersFollowVerdicts(e.strategies, ts, Challenge);
    SuppliersFollowVerdicts(e.strategies, ts, Qualify);
  }

  lemma InitiativesAround(e: Evidence)
    ensures Initiatives(e) == (Baseline(e) + Resolution(e)) + ForSuppliers(e.strategies) + (Downstream(e) + Investigations(e))
  {}

  lemma NamesAroundIff(a: seq<Initiative>, x: seq<Initiative>, y: seq<Initiative>, b: seq<Initiative>)
    ensures Image((a + x) + b, NameOf) == Image((a + y) + b, NameOf) <==> Image(x, NameOf) == Image(y, NameOf)
  {
    ImageOfSum(a + x, b, NameOf);
    ImageOfSum(a, x, NameOf);
    ImageOfSum(a + y, b, NameOf);
    ImageOfSum(a, y, NameOf);
    MiddleIff(Image(a, NameOf), Image(x, NameOf), Image(y, NameOf), Image(b, NameOf));
  }

  lemma MiddleIff(a: seq<string>, x: seq<string>, y: seq<string>, b: seq<string>)
    ensures (a + x) + b == (a + y) + b <==> x == y
  {
    if (a + x) + b == (a + y) + b {
      assert |x| == |y|;
      assert x == ((a + x) + b)[|a|..|a| + |x|];
      assert y == ((a + y) + b)[|a|..|a| + |y|];
    }
  }

  /** The roadmap differs only where the suppliers' own initiatives differ. */
  lemma RoadmapDiffersInSuppliersOnly(c: Case, h: History, k: History, drivers: seq<Driver>, esgClaims: seq<EsgClaim>)
    ensures RoadmapNames(c, h, drivers, esgClaims) == RoadmapNames(c, k, drivers, esgClaims)
            <==> Image(ForSuppliers(Strategies(c, h)), NameOf) == Image(ForSuppliers(Strategies(c, k)), NameOf)
  {
    var e, f := EvidenceFor(c, h, drivers, esgClaims), EvidenceFor(c, k, drivers, esgClaims);
    StrategiesIgnoreHistory(c, h, k);
    InitiativesAround(e);
    InitiativesAround(f);
    RestFollowsVerdicts(e, f.strategies);
    NamesAroundIff(Baseline(e) + Resolution(e), ForSuppliers(e.strategies), ForSuppliers(f.strategies), Downstream(e) + Investigations(e));
  }

  // ----- profile by profile, in the order of the answer -----

  /** The profiles in the order their strategies are listed. */
  function Ordered(c: Case): seq<Profile> {
    StableSort(c.profiles, (p: Profile) => StrategyRank(StrategyOn(GroundFor(c, p))), 4)
  }

  lemma StrategiesFollowProfiles(c: Case, h: History)
    ensures Strategies(c, h) == ClassifiedAll(c, h, Ordered(c))
  {
    ImageOfSort(c.profiles, p => Classified(c, h, p), (p: Profile) => StrategyRank(StrategyOn(GroundFor(c, p))), STRATEGY_RANK, 4);
  }

  lemma OrderedProfilesAreTheProfiles(c: Case, p: Profile)
    ensures p in Ordered(c) <==> p in c.profiles
  {
    StableSortPermutes(c.profiles, (p: Profile) => StrategyRank(StrategyOn(GroundFor(c, p))), 4);
    assert p in multiset(Ordered(c)) <==> p in multiset(c.profiles);
  }

  /** History speaks of capacity where nothing current does. */
  predicate AddsCapacity(c: Case, h: History, p: Profile) {
    GroundFor(c, p).NothingStronger? && MentionsCapacity(HistoryText(c.wording, h, p.supplier))
  }

  predicate GetsCapacityInitiative(c: Case, h: History, p: Profile) {
    GroundFor(c, p).UnvalidatedCapacity? || AddsCapacity(c, h, p)
  }

  /** What a supplier adds to the roadmap, by name. */
  lemma NamesOfOneProfile(c: Case, h: History, p: Profile)
    requires SourceWording(c.wording)
    ensures Image(ForSupplier(Classified(c, h, p)), NameOf)
            == if GetsCapacityInitiative(c, h, p) then [CapacityName(p.supplier)]
               else if StrategyOn(GroundFor(c, p)).Qualify? then [QualifyName(p.supplier)]
               else []
  {
    if StrategyOn(GroundFor(c, p)).MonitorOnly? { CapacityInitiativeIff(c, h, p); }
  }

  lemma OneMoreProfile(c: Case, h: History, ps: seq<Profile>)
    requires ps != []
    ensures var front, last := ps[..|ps| - 1], ps[|ps| - 1];
            && ForSuppliers(ClassifiedAll(c, h, ps)) == ForSuppliers(ClassifiedAll(c, h, front)) + ForSupplier(Classified(c, h, last))
            && Image(ForSuppliers(ClassifiedAll(c, h, ps)), NameOf)
               == Image(ForSuppliers(ClassifiedAll(c, h, front)), NameOf) + Image(ForSupplier(Classified(c, h, last)), NameOf)
  {
    var front, last := ps[..|ps| - 1], ps[|ps| - 1];
    assert ClassifiedAll(c, h, ps)[..|ps| - 1] == ClassifiedAll(c, h, front);
    ImageOfSum(ForSuppliers(ClassifiedAll(c, h, front)), ForSupplier(Classified(c, h, last)), NameOf);
  }

  ghost predicate SameAdditions(c: Case, h: History, k: History, ps: seq<Profile>) {
    forall i :: 0 <= i < |ps| ==> AddsCapacity(c, h, ps[i]) == AddsCapacity(c, k, ps[i])
  }

  lemma {:induction false} SameAdditionsSameNames(c: Case, h: History, k: History, ps: seq<Profile>)
    requires SourceWording(c.wording) && SameAdditions(c, h, k, ps)
    ensures Image(ForSuppliers(ClassifiedAll(c, h, ps)), NameOf) == Image(ForSuppliers(ClassifiedAll(c, k, ps)), NameOf)
  {
    if ps == [] {
      assert ClassifiedAll(c, h, ps) == [] && ClassifiedAll(c, k, ps) == [];
    } else {
      var front, last := ps[..|ps| - 1], ps[|ps| - 1];
      assert AddsCapacity(c, h, last) == AddsCapacity(c, k, last);
      SameAdditionsSameNames(c, h, k, front);
      NamesOfOneProfile(c, h, last);
      NamesOfOneProfile(c, k, last);
      OneMoreProfile(c, h, ps);
      OneMoreProfile(c, k, ps);
    }
  }

  predicate Blank(h: History, supplier: string) { h.precedent(supplier).None? && h.related(supplier) == [] }

  ghost predicate AllBlank(k: History, ps: seq<Profile>) { forall i :: 0 <= i < |ps| ==> Blank(k, ps[i].supplier) }

  ghost predicate NoneAdds(c: Case, h: History, ps: seq<Profile>) { forall i :: 0 <= i < |ps| ==> !AddsCapacity(c, h, ps[i]) }

  lemma BlankAddsNothing(c: Case, k: History, p: Profile)
    requires Blank(k, p.supplier)
    ensures !AddsCapacity(c, k, p)
  {
    assert HistoryText(c.wording, k, p.supplier) == "";
  }

  lemma OneProfileIsNoShorter(c: Case, h: History, k: History, p: Profile)
    requires SourceWording(c.wording) && Blank(k, p.supplier)
    ensures |ForSupplier(Classified(c, k, p))| + (if AddsCapacity(c, h, p) then 1 else 0) == |ForSupplier(Classified(c, h, p))|
  {
    BlankAddsNothing(c, k, p);
    NamesOfOneProfile(c, h, p);
    NamesOfOneProfile(c, k, p);
    assert |Image(ForSupplier(Classified(c, h, p)), NameOf)| == |ForSupplier(Classified(c, h, p))|;
    assert |Image(ForSupplier(Classified(c, k, p)), NameOf)| == |ForSupplier(Classified(c, k, p))|;
  }

  function AddedBy(c: Case, h: History, ps: seq<Profile>): nat {
    if ps == [] then 0 else AddedBy(c, h, ps[..|ps| - 1]) + if AddsCapacity(c, h, ps[|ps| - 1]) then 1 else 0
  }

  /** History adds one initiative for each such profile. */
  lemma {:induction false} HistoryAddsSoMany(c: Case, h: History, k: History, ps: seq<Profile>)
    requires SourceWording(c.wording) && AllBlank(k, ps)
    ensures |ForSuppliers(ClassifiedAll(c, h, ps))| == |ForSuppliers(ClassifiedAll(c, k, ps))| + AddedBy(c, h, ps)
  {
    if ps == [] {
      assert ClassifiedAll(c, h, ps) == [] && ClassifiedAll(c, k, ps) == [];
    } else {
      HistoryAddsSoMany(c, h, k, ps[..|ps| - 1]);
      OneProfileIsNoShorter(c, h, k, ps[|ps| - 1]);
      OneMoreProfile(c, h, ps);
      OneMoreProfile(c, k, ps);
    }
  }

  lemma {:induction false} NothingAddedIff(c: Case, h: History, ps: seq<Profile>)
    ensures AddedBy(c, h, ps) == 0 <==> NoneAdds(c, h, ps)
  {
    if ps != [] {
      var front := ps[..|ps| - 1];
      NothingAddedIff(c, h, front);
      assert forall i :: 0 <= i < |front| ==> ps[i] == front[i];
    }
  }

  lemma SupplierNamesAgreeIff(c: Case, h: History, k: History, ps: seq<Profile>)
    requires SourceWording(c.wording) && AllBlank(k, ps)
    ensures Image(ForSuppliers(ClassifiedAll(c, h, ps)), NameOf) == Image(ForSuppliers(ClassifiedAll(c, k, ps)), NameOf)
            <==> NoneAdds(c, h, ps)
  {
    HistoryAddsSoMany(c, h, k, ps);
    NothingAddedIff(c, h, ps);
    if NoneAdds(c, h, ps) {
      forall i | 0 <= i < |ps| ensures AddsCapacity(c, h, ps[i]) == AddsCapacity(c, k, ps[i]) { BlankAddsNothing(c, k, ps[i]); }
      SameAdditionsSameNames(c, h, k, ps);
    } else {
      assert |Image(ForSuppliers(ClassifiedAll(c, h, ps)), NameOf)| == |ForSuppliers(ClassifiedAll(c, h, ps))|;
      assert |Image(ForSuppliers(ClassifiedAll(c, k, ps)), NameOf)| == |ForSuppliers(ClassifiedAll(c, k, ps))|;
    }
  }

  lemma OrderIsImmaterial(c: Case, h: History)
    ensures NoneAdds(c, h, Ordered(c)) <==> !exists p :: p in c.profiles && AddsCapacity(c, h, p)
  {
    var ps := Ordered(c);
    if p :| p in c.profiles && AddsCapacity(c, h, p) {
      OrderedProfilesAreTheProfiles(c, p);
    } else {
      forall i | 0 <= i < |ps| ensures !AddsCapacity(c, h, ps[i]) { OrderedProfilesAreTheProfiles(c, ps[i]); }
    }
  }

  /** History alters the roadmap, compared with an answer that has none, exactly
      when for some profile nothing current speaks and its history text mentions
      capacity.  Everything else about the roadmap is free of history. */
  lemma RoadmapIgnoresHistoryIff(c: Case, h: History, k: History, drivers: seq<Driver>, esgClaims: seq<EsgClaim>)
    requires SourceWording(c.wording) && forall p :: p in c.profiles ==> Blank(k, p.supplier)
    ensures RoadmapNames(c, h, drivers, esgClaims) == RoadmapNames(c, k, drivers, esgClaims)
            <==> !exists p :: p in c.profiles && AddsCapacity(c, h, p)
  {
    var ps := Ordered(c);
    forall i | 0 <= i < |ps| ensures Blank(k, ps[i].supplier) { OrderedProfilesAreTheProfiles(c, ps[i]); }
    RoadmapDiffersInSuppliersOnly(c, h, k, drivers, esgClaims);
    StrategiesFollowProfiles(c, h);
    StrategiesFollowProfiles(c, k);
    SupplierNamesAgreeIff(c, h, k, ps);
    OrderIsImmaterial(c, h);
  }

  // ----- two histories -----

  lemma CapacityNamesDiffer(s: string, t: string)
    ensures CapacityName(s) == CapacityName(t) <==> s == t
    ensures CapacityName(s) != QualifyName(t)
  {
    RoadmapOrder.TagsTellKindsApart(s, "", []);
    RoadmapOrder.TagsTellKindsApart(t, "", []);
    var head, tail := "Validate ", "'s stated capacity figure";
    assert CapacityName(s)[|head|..|CapacityName(s)| - |tail|] == s;
    assert CapacityName(t)[|head|..|CapacityName(t)| - |tail|] == t;
  }

  lemma NamedByOneProfile(c: Case, h: History, p: Profile, s: string)
    requires SourceWording(c.wording)
    ensures CapacityName(s) in Image(ForSupplier(Classified(c, h, p)), NameOf) <==> p.supplier == s && GetsCapacityInitiative(c, h, p)
  {
    NamesOfOneProfile(c, h, p);
    CapacityNamesDiffer(s, p.supplier);
  }

  ghost predicate SomeoneGets(c: Case, h: History, ps: seq<Profile>, s: string) {
    exists i :: 0 <= i < |ps| && ps[i].supplier == s && GetsCapacityInitiative(c, h, ps[i])
  }

  lemma SomeoneGetsSplits(c: Case, h: History, front: seq<Profile>, last: Profile, s: string)
    ensures SomeoneGets(c, h, front + [last], s)
            <==> SomeoneGets(c, h, front, s) || (last.supplier == s && GetsCapacityInitiative(c, h, last))
  {
    var ps := front + [last];
    if i :| 0 <= i < |front| && front[i].supplier == s && GetsCapacityInitiative(c, h, front[i]) { assert ps[i] == front[i]; }
    if last.supplier == s && GetsCapacityInitiative(c, h, last) { assert ps[|front|] == last; }
  }

  /** The supplier-driven names of the roadmap for some of the profiles. */
  function NamesFor(c: Case, h: History, ps: seq<Profile>): seq<string> {
    Image(ForSuppliers(ClassifiedAll(c, h, ps)), NameOf)
  }

  lemma NamesOneMore(c: Case, h: History, ps: seq<Profile>, front: seq<Profile>, last: Profile, x: string)
    requires ps == front + [last]
    ensures x in NamesFor(c, h, ps) <==> x in NamesFor(c, h, front) || x in Image(ForSupplier(Classified(c, h, last)), NameOf)
  {
    assert ps[..|ps| - 1] == front;
    OneMoreProfile(c, h, ps);
  }

  lemma NamedIffStep(c: Case, h: History, ps: seq<Profile>, front: seq<Profile>, last: Profile, s: string)
    requires SourceWording(c.wording) && ps == front + [last]
    requires CapacityName(s) in NamesFor(c, h, front) <==> SomeoneGets(c, h, front, s)
    ensures CapacityName(s) in NamesFor(c, h, ps) <==> SomeoneGets(c, h, ps, s)
  {
    NamedByOneProfile(c, h, last, s);
    NamesOneMore(c, h, ps, front, last, CapacityName(s));
    SomeoneGetsSplits(c, h, front, last, s);
  }

  lemma NobodyIsNamed(c: Case, h: History, s: string)
    ensures CapacityName(s) in NamesFor(c, h, []) <==> SomeoneGets(c, h, [], s)
  {
    assert ClassifiedAll(c, h, []) == [];
  }

  lemma {:induction false} NamedIff(c: Case, h: History, ps: seq<Profile>, s: string)
    requires SourceWording(c.wording)
    ensures CapacityName(s) in NamesFor(c, h, ps) <==> SomeoneGets(c, h, ps, s)
    decreases |ps|
  {
    if ps == [] {
      NobodyIsNamed(c, h, s);
    } else {
      var front, last := ps[..|ps| - 1], ps[|ps| - 1];
      NamedIff(c, h, front, s);
      assert ps == front + [last];
      NamedIffStep(c, h, ps, front, last, s);
    }
  }

  predicate DistinctProfiles(ps: seq<Profile>) {
    forall i, j :: 0 <= i < |ps| && 0 <= j < |ps| && ps[i].supplier == ps[j].supplier ==> ps[i] == ps[j]
  }

  lemma OneOfDistinctGets(c: Case, h: History, ps: seq<Profile>, i: nat)
    requires DistinctProfiles(ps) && i < |ps|
    ensures SomeoneGets(c, h, ps, ps[i].supplier) <==> GetsCapacityInitiative(c, h, ps[i])
  {}

  lemma SameNamesSameAdditions(c: Case, h: History, k: History, ps: seq<Profile>, i: nat)
    requires SourceWording(c.wording) && DistinctProfiles(ps) && i < |ps|
    requires NamesFor(c, h, ps) == NamesFor(c, k, ps)
    ensures AddsCapacity(c, h, ps[i]) == AddsCapacity(c, k, ps[i])
  {
    NamedIff(c, h, ps, ps[i].supplier);
    NamedIff(c, k, ps, ps[i].supplier);
    OneOfDistinctGets(c, h, ps, i);
    OneOfDistinctGets(c, k, ps, i);
  }

  /** Between any two histories: with one profile a supplier, as the source's
      dictionary of profiles has it, the roadmaps have the same initiatives in the
      same order exactly when the histories mention capacity for the same of the
      suppliers of which nothing current speaks. */
  lemma RoadmapsAgreeIff(c: Case, h: History, k: History, drivers: seq<Driver>, esgClaims: seq<EsgClaim>)
    requires SourceWording(c.wording) && DistinctProfiles(c.profiles)
    ensures RoadmapNames(c, h, drivers, esgClaims) == RoadmapNames(c, k, drivers, esgClaims)
            <==> forall p :: p in c.profiles ==> AddsCapacity(c, h, p) == AddsCapacity(c, k, p)
  {
    var ps := Ordered(c);
    RoadmapDiffersInSuppliersOnly(c, h, k, drivers, esgClaims);
    StrategiesFollowProfiles(c, h);
    StrategiesFollowProfiles(c, k);
    OrderedProfilesAreDistinct(c);
    if RoadmapNames(c, h, drivers, esgClaims) == RoadmapNames(c, k, drivers, esgClaims) {
      forall p | p in c.profiles ensures AddsCapacity(c, h, p) == AddsCapacity(c, k, p) {
        OrderedProfilesAreTheProfiles(c, p);
        var i :| 0 <= i < |ps| && ps[i] == p;
        SameNamesSameAdditions(c, h, k, ps, i);
      }
    }
    if forall p :: p in c.profiles ==> AddsCapacity(c, h, p) == AddsCapacity(c, k, p) {
      forall i | 0 <= i < |ps| ensures AddsCapacity(c, h, ps[i]) == AddsCapacity(c, k, ps[i]) {
        OrderedProfilesAreTheProfiles(c, ps[i]);
      }
      SameAdditionsSameNames(c, h, k, ps);
    }
  }

  lemma OrderedProfilesAreDistinct(c: Case)
    requires DistinctProfiles(c.profiles)
    ensures DistinctProfiles(Ordered(c))
  {
    var ps := Ordered(c);
    forall i, j | 0 <= i < |ps| && 0 <= j < |ps| && ps[i].supplier == ps[j].supplier ensures ps[i] == ps[j] {
      OrderedProfilesAreTheProfiles(c, ps[i]);
      OrderedProfilesAreTheProfiles(c, ps[j]);
    }
  }

  // ----- it happens -----

  const MARINE := "Capacity" + " Marine"

  const MARINE_ROW := Row(MARINE, Some(Percent(10.0, "10.0")), None)

  /** A supplier with a tenth of the spend, no qualification and no capacity figure. */
  function QuietCase(w: Wording): Case {
    Case([MARINE_ROW], [Profile(MARINE, None, None)], None, None, [], false, false, None, None, false, None, w)
  }

  /** What an earlier case stored about it when it was monitored: the finding
      text, and the strategy's reason as its implication. */
  const MARINE_MEMORY := MemoryItem(Some(MARINE), StrategyClassification, false, MARINE_NOTE, Some(MONITOR_REASON))

  const MARINE_NOTE := MARINE + ": monitor."

  predicate NoPercentSign(s: string) { '%' !in s }

  lemma NoSignNoPercent(s: string)
    requires NoPercentSign(s)
    ensures !HasPercent(s)
  {}

  lemma SignsOfSum(a: string, b: string)
    requires NoPercentSign(a) && NoPercentSign(b)
    ensures NoPercentSign(a + b)
  {}

  lemma NoteHasNoPercent()
    ensures !HasPercent(MARINE_NOTE) && Strip(MARINE_NOTE) != ""
  {
    forall i | 0 <= i < |MARINE_NOTE| ensures MARINE_NOTE[i] != '%' {}
    NotBlank(MARINE_NOTE, 0);
  }

  lemma MonitorPartsHaveNoSign()
    ensures NoPercentSign("current evidence does") && NoPercentSign(" not clearly") && NoPercentSign(" support")
    ensures NoPercentSign(" a stronger classification") && NoPercentSign(" than ongoing monitoring")
  {}

  lemma MonitorReasonHasNoPercent()
    ensures !HasPercent(MONITOR_REASON)
  {
    MonitorPartsHaveNoSign();
    SignsOfSum("current evidence does", " not clearly");
    SignsOfSum(" a stronger classification", " than ongoing monitoring");
    SignsOfSum(MONITOR_OPENING, " support");
    SignsOfSum(MONITOR_OPENING + " support", MONITOR_CLOSING);
    NoSignNoPercent(MONITOR_REASON);
  }

  lemma MarineHistory(numbers: string -> seq<string>)
    requires FindsPercentages(numbers)
    ensures PrecedentFor([MARINE_ROW], numbers, [MARINE_MEMORY], MARINE) == Some(Precedent(COMPLEMENTS, MARINE_NOTE, true))
    ensures RelatedFor([MARINE_ROW], [MARINE_MEMORY], MARINE) == []
  {
    var rows := [MARINE_ROW];
    assert RowOf(rows, MARINE) == MARINE_ROW;
    ShareSentenceHasPercent(rows, MARINE);
    PercentSurvivesStrip(ShareSentence(rows, MARINE));
    PercentSurvivesStrip(MARINE_NOTE);
    NoteHasNoPercent();
    MonitorReasonHasNoPercent();
    DifferingTextsReconcile(numbers, MARINE_MEMORY, ShareSentence(rows, MARINE));
  }

  lemma DifferingTextsReconcile(numbers: string -> seq<string>, item: MemoryItem, current: string)
    requires FindsPercentages(numbers) && !item.retired
    requires !HasPercent(item.finding) && (item.implication.Some? ==> !HasPercent(item.implication.value))
    requires HasPercent(Strip(current)) && !HasPercent(Strip(item.finding))
    requires Strip(item.finding) != "" && Strip(current) != ""
    ensures ReconcileOne(numbers, item, current) == Precedent(COMPLEMENTS, item.finding, true)
  {}

  lemma MarineIsQuiet(w: Wording)
    ensures GroundFor(QuietCase(w), Profile(MARINE, None, None)).NothingStronger?
  {
    assert RowOf([MARINE_ROW], MARINE) == MARINE_ROW;
  }

  lemma CapacityLowered()
    ensures Lower("Capacity") == "capacity"
  {}

  lemma MarineNoteMentionsCapacity()
    ensures MentionsCapacity(MARINE_NOTE)
  {
    CapacityLowered();
    CapacityIsMentioned("Capacity", " Marine" + ": monitor.");
    assert "Capacity" + (" Marine" + ": monitor.") == MARINE_NOTE;
  }

  lemma QuotedNoteIsMentioned(w: Wording, h: History, supplier: string, note: string)
    requires SourceWording(w) && MentionsCapacity(note)
    requires h.precedent(supplier) == Some(Precedent(COMPLEMENTS, note, true)) && h.related(supplier) == []
    ensures MentionsCapacity(HistoryText(w, h, supplier))
  {
    MentionInside(DIFFERS_HEAD, note, DIFFERS_TAIL);
    var quoted := Quoting(DIFFERS_HEAD, note, DIFFERS_TAIL);
    assert PrecedentText(w, h.precedent(supplier)) == quoted && RelatedText(w, h.related(supplier)) == "";
    assert quoted + "" == quoted;
  }

  /** History does alter a roadmap: a supplier called "Capacity Marine", monitored
      now as in an earlier case, is quoted back and gets a capacity initiative. */
  lemma HistoryCanAddAnInitiative(w: Wording, numbers: string -> seq<string>, onFinding: (nat, Finding) -> Option<Precedent>,
                                  drivers: seq<Driver>, esgClaims: seq<EsgClaim>)
    requires SourceWording(w) && FindsPercentages(numbers)
    ensures RoadmapNames(QuietCase(w), HistoryOf([MARINE_ROW], numbers, [MARINE_MEMORY], onFinding), drivers, esgClaims)
            != RoadmapNames(QuietCase(w), HistoryOf([MARINE_ROW], numbers, [], onFinding), drivers, esgClaims)
  {
    var c, profile := QuietCase(w), Profile(MARINE, None, None);
    var h, k := HistoryOf([MARINE_ROW], numbers, [MARINE_MEMORY], onFinding), HistoryOf([MARINE_ROW], numbers, [], onFinding);
    MarineHistory(numbers);
    MarineIsQuiet(w);
    MarineNoteMentionsCapacity();
    QuotedNoteIsMentioned(w, h, MARINE, MARINE_NOTE);
    assert profile in c.profiles && AddsCapacity(c, h, profile);
    RoadmapIgnoresHistoryIff(c, h, k, drivers, esgClaims);
  }
}
