/** History never decides: whatever is retrieved, the same suppliers get the same
    strategies in the same order and the same findings surface.  Only the order
    of the priorities, the wording, and one roadmap initiative can move. */
module CategoryTheorems {
  import opened Options
  import opened Texts
  import opened Roadmap
  import opened StableSorting
  import opened CategoryStrategy

  // ----- strategies -----

  datatype Verdict = Verdict(supplier: string, strategy: Strategy)

  function VerdictOf(s: SupplierStrategy): Verdict { Verdict(s.supplier, s.strategy) }

  /** What current evidence alone says of every supplier. */
  function Verdicts(c: Case, profiles: seq<Profile>): seq<Verdict> {
    Image(profiles, (profile: Profile) => Verdict(profile.supplier, StrategyOn(GroundFor(c, profile))))
  }

  const VERDICT_RANK := (v: Verdict) => StrategyRank(v.strategy)

  /** The ordered (supplier, strategy) list is a function of current evidence alone. */
  lemma StrategiesFollowEvidence(c: Case, h: History)
    ensures Image(Strategies(c, h), VerdictOf) == StableSort(Verdicts(c, c.profiles), VERDICT_RANK, 4)
  {
    var unsorted := ClassifiedAll(c, h, c.profiles);
    assert Image(unsorted, VerdictOf) == Verdicts(c, c.profiles);
    ImageOfSort(unsorted, VerdictOf, STRATEGY_RANK, VERDICT_RANK, 4);
  }

  lemma StrategiesIgnoreHistory(c: Case, h: History, k: History)
    ensures |Strategies(c, h)| == |Strategies(c, k)|
    ensures forall i :: 0 <= i < |Strategies(c, h)| ==>
              && Strategies(c, h)[i].supplier == Strategies(c, k)[i].supplier
              && Strategies(c, h)[i].strategy == Strategies(c, k)[i].strategy
  {
    StrategiesFollowEvidence(c, h);
    StrategiesFollowEvidence(c, k);
    var hs, ks := Strategies(c, h), Strategies(c, k);
    forall i | 0 <= i < |hs| ensures hs[i].supplier == ks[i].supplier && hs[i].strategy == ks[i].strategy {
      assert Image(hs, VerdictOf)[i] == VerdictOf(hs[i]) && Image(ks, VerdictOf)[i] == VerdictOf(ks[i]);
    }
  }

  lemma StrategyRanksBelowFour(ss: seq<SupplierStrategy>)
    ensures RanksBelow(ss, STRATEGY_RANK, 4)
  {}

  /** Challenged suppliers lead, then develop, qualify, monitor; nobody is lost. */
  lemma StrategiesAreAllListedInOrder(c: Case, h: History)
    ensures SortedByRank(Strategies(c, h), STRATEGY_RANK)
    ensures multiset(Strategies(c, h)) == multiset(ClassifiedAll(c, h, c.profiles))
  {
    StrategyRanksBelowFour(ClassifiedAll(c, h, c.profiles));
    StableSortIsSorted(ClassifiedAll(c, h, c.profiles), STRATEGY_RANK, 4);
    StableSortPermutes(ClassifiedAll(c, h, c.profiles), STRATEGY_RANK, 4);
  }

  // ----- findings -----

  datatype Claim = Claim(dimension: Dimension, says: Sentence, state: State, impact: Impact)

  function ClaimOf(f: Finding): Claim { Claim(f.dimension, f.says, f.state, f.impact) }

  predicate SameClaims(fs: seq<Finding>, gs: seq<Finding>) {
    |fs| == |gs| && forall i :: 0 <= i < |fs| ==> ClaimOf(fs[i]) == ClaimOf(gs[i])
  }

  predicate SameVerdicts(ss: seq<SupplierStrategy>, ts: seq<SupplierStrategy>) {
    |ss| == |ts| && forall i :: 0 <= i < |ss| ==> ss[i].supplier == ts[i].supplier && ss[i].strategy == ts[i].strategy
  }

  lemma SameVerdictsHideSameShares(ss: seq<SupplierStrategy>, ts: seq<SupplierStrategy>, supplier: string)
    requires SameVerdicts(ss, ts)
    ensures HasShareInStrategy(ss, supplier) == HasShareInStrategy(ts, supplier)
  {}

  lemma {:induction false} SameShares(w: Wording, rows: seq<Row>, ss: seq<SupplierStrategy>, ts: seq<SupplierStrategy>)
    requires SameVerdicts(ss, ts)
    ensures OnShares(w, rows, ss) == OnShares(w, rows, ts)
  {
    if rows != [] {
      SameShares(w, rows[..|rows| - 1], ss, ts);
      SameVerdictsHideSameShares(ss, ts, rows[|rows| - 1].supplier);
    }
  }

  lemma FindingsFollowVerdicts(c: Case, ss: seq<SupplierStrategy>, ts: seq<SupplierStrategy>)
    requires SameVerdicts(ss, ts)
    ensures SameClaims(FindingsOf(c, ss), FindingsOf(c, ts))
  {
    FindingsRegroup(c, ss);
    FindingsRegroup(c, ts);
    SameShares(c.wording, c.rows, ss, ts);
    SameStrategyClaims(ss, ts);
    SameClaimsInside((OnContract(c) + OnPriceHistory(c)) + OnShares(c.wording, c.rows, ss), OnStrategies(ss), OnStrategies(ts),
                     OnContradiction(c) + OnPrice(c) + OnMarketAlone(c));
  }

  lemma SameStrategyClaims(ss: seq<SupplierStrategy>, ts: seq<SupplierStrategy>)
    requires SameVerdicts(ss, ts)
    ensures SameClaims(OnStrategies(ss), OnStrategies(ts))
  {}

  lemma SameClaimsInside(before: seq<Finding>, fs: seq<Finding>, gs: seq<Finding>, after: seq<Finding>)
    requires SameClaims(fs, gs)
    ensures SameClaims(before + fs + after, before + gs + after)
  {}

  lemma HistoryKeepsClaims(w: Wording, fs: seq<Finding>, h: History)
    ensures SameClaims(Annotated(w, fs, h), fs)
  {}

  lemma {:induction false} SurfacingFollowsClaims(fs: seq<Finding>, gs: seq<Finding>)
    requires SameClaims(fs, gs)
    ensures SameClaims(Surfaced(fs), Surfaced(gs))
  {
    if fs != [] {
      var f, g := fs[|fs| - 1], gs[|gs| - 1];
      assert ClaimOf(f) == ClaimOf(g);
      SurfacingFollowsClaims(fs[..|fs| - 1], gs[..|gs| - 1]);
    }
  }

  lemma GuardingFollowsClaims(fs: seq<Finding>, gs: seq<Finding>)
    requires SameClaims(fs, gs)
    ensures SameClaims(Image(fs, Guarded), Image(gs, Guarded))
  {}

  /** The surfaced findings make the same claims in the same order, whatever
      the history. */
  lemma SurfacedFindingsIgnoreHistory(c: Case, h: History, k: History)
    ensures SameClaims(SurfacedFor(c, h), SurfacedFor(c, k))
  {
    StrategiesIgnoreHistory(c, h, k);
    var fs, gs := FindingsOf(c, Strategies(c, h)), FindingsOf(c, Strategies(c, k));
    FindingsFollowVerdicts(c, Strategies(c, h), Strategies(c, k));
    HistoryKeepsClaims(c.wording, fs, h);
    HistoryKeepsClaims(c.wording, gs, k);
    var annotatedFs, annotatedGs := Annotated(c.wording, fs, h), Annotated(c.wording, gs, k);
    assert SameClaims(annotatedFs, annotatedGs) by {
      forall i | 0 <= i < |fs| ensures ClaimOf(annotatedFs[i]) == ClaimOf(annotatedGs[i]) {
        assert ClaimOf(annotatedFs[i]) == ClaimOf(fs[i]) && ClaimOf(fs[i]) == ClaimOf(gs[i]) && ClaimOf(annotatedGs[i]) == ClaimOf(gs[i]);
      }
    }
    GuardingFollowsClaims(annotatedFs, annotatedGs);
    SurfacingFollowsClaims(Image(annotatedFs, Guarded), Image(annotatedGs, Guarded));
  }

  // ----- guardrails -----

  predicate Allowed(f: Finding) {
    !(f.state.Contradicted? && f.impact.Background?) && !(f.state.SupplierClaim? && f.impact.DecisionChanging?)
  }

  lemma {:induction false} SharesAreAllowed(w: Wording, rows: seq<Row>, ss: seq<SupplierStrategy>, f: Finding)
    requires f in OnShares(w, rows, ss)
    ensures f.state == Calculated
  {
    if f in OnShares(w, rows[..|rows| - 1], ss) { SharesAreAllowed(w, rows[..|rows| - 1], ss, f); }
  }

  lemma FixedFindingsAreAllowed(c: Case, f: Finding)
    requires f in OnContract(c) + OnPriceHistory(c) || f in OnContradiction(c) + OnPrice(c) + OnMarketAlone(c)
    ensures Allowed(f)
  {}

  lemma FindingsAreAllowed(c: Case, ss: seq<SupplierStrategy>, f: Finding)
    requires f in FindingsOf(c, ss)
    ensures Allowed(f)
  {
    FindingsRegroup(c, ss);
    FindingOrigin(OnContract(c) + OnPriceHistory(c), OnShares(c.wording, c.rows, ss), OnStrategies(ss),
                  OnContradiction(c) + OnPrice(c) + OnMarketAlone(c), f);
    if f in OnShares(c.wording, c.rows, ss) {
      SharesAreAllowed(c.wording, c.rows, ss, f);
    } else if f in OnStrategies(ss) {
      var i := StrategyFindingOrigin(ss, f);
    } else {
      FixedFindingsAreAllowed(c, f);
    }
  }

  /** The guardrails are a safety net only: on the findings this pipeline builds
      they correct nothing, as their documentation promises. */
  lemma GuardrailsAreIdle(c: Case, h: History)
    ensures Image(Annotated(c.wording, FindingsOf(c, Strategies(c, h)), h), Guarded)
            == Annotated(c.wording, FindingsOf(c, Strategies(c, h)), h)
  {
    var found := FindingsOf(c, Strategies(c, h));
    var fs := Annotated(c.wording, found, h);
    forall i | 0 <= i < |fs| ensures Guarded(fs[i]) == fs[i] {
      assert found[i] in found;
      FindingsAreAllowed(c, Strategies(c, h), found[i]);
      assert ClaimOf(fs[i]) == ClaimOf(found[i]);
    }
  }

  // ----- what surfaces -----

  lemma {:induction false} SurfacedIff(fs: seq<Finding>, f: Finding)
    ensures f in Surfaced(fs) <==> f in fs && !f.impact.Background?
  {
    if fs != [] {
      var front, last := fs[..|fs| - 1], fs[|fs| - 1];
      assert fs == front + [last];
      SurfacedIff(front, f);
    }
  }

  /** Guarded and surfaced, no list of findings loses a contradiction. */
  lemma EveryContradictionSurfaces(fs: seq<Finding>, i: nat)
    requires i < |fs| && fs[i].state.Contradicted?
    ensures Guarded(fs[i]) in Surfaced(Image(fs, Guarded))
  {
    assert Image(fs, Guarded)[i] == Guarded(fs[i]);
    SurfacedIff(Image(fs, Guarded), Guarded(fs[i]));
  }

  predicate Names(f: Finding, supplier: string) {
    || (f.says.HoldsShare? && f.says.supplier == supplier)
    || (f.says.StrategyIs? && f.says.supplier == supplier)
  }

  predicate DecidesOn(f: Finding, supplier: string) {
    f.impact.DecisionChanging? && Names(f, supplier)
  }

  lemma {:induction false} ShareFindingHasRow(w: Wording, rows: seq<Row>, ss: seq<SupplierStrategy>, supplier: string, f: Finding)
    requires f in OnShares(w, rows, ss) && DecidesOn(f, supplier)
    ensures exists i :: 0 <= i < |rows| && rows[i].supplier == supplier && ShareAtLeast(rows[i], 50.0)
  {
    var front, last := rows[..|rows| - 1], rows[|rows| - 1];
    if f in OnShares(w, front, ss) {
      ShareFindingHasRow(w, front, ss, supplier, f);
      var i :| 0 <= i < |front| && front[i].supplier == supplier && ShareAtLeast(front[i], 50.0);
      assert rows[i] == front[i];
    }
  }

  lemma {:induction false} RowHasShareFinding(w: Wording, rows: seq<Row>, ss: seq<SupplierStrategy>, i: nat)
    requires i < |rows| && ShareAtLeast(rows[i], 50.0) && !HasShareInStrategy(ss, rows[i].supplier)
    ensures exists f :: f in OnShares(w, rows, ss) && DecidesOn(f, rows[i].supplier)
  {
    var front, last := rows[..|rows| - 1], rows[|rows| - 1];
    if i == |front| {
      var f := OnShare(w, last, ss)[0];
      assert f in OnShares(w, rows, ss) && DecidesOn(f, last.supplier);
    } else {
      RowHasShareFinding(w, front, ss, i);
      var f :| f in OnShares(w, front, ss) && DecidesOn(f, front[i].supplier);
      assert f in OnShares(w, rows, ss);
    }
  }

  predicate DistinctSuppliers(rows: seq<Row>) {
    forall i, j :: 0 <= i < j < |rows| ==> rows[i].supplier != rows[j].supplier
  }

  lemma {:induction false} RowIsFound(rows: seq<Row>, i: nat)
    requires i < |rows| && DistinctSuppliers(rows)
    ensures RowOf(rows, rows[i].supplier) == rows[i]
  {
    if i < |rows| - 1 { RowIsFound(rows[..|rows| - 1], i); }
  }

  lemma {:induction false} FoundRowIsListed(rows: seq<Row>, supplier: string)
    requires RowOf(rows, supplier).share.Some?
    ensures exists i :: 0 <= i < |rows| && rows[i].supplier == supplier && rows[i] == RowOf(rows, supplier)
  {
    if rows[|rows| - 1].supplier != supplier {
      FoundRowIsListed(rows[..|rows| - 1], supplier);
      var i :| 0 <= i < |rows| - 1 && rows[..|rows| - 1][i].supplier == supplier && rows[..|rows| - 1][i] == RowOf(rows, supplier);
      assert rows[i] == RowOf(rows, supplier);
    }
  }

  lemma ListedStrategyHasProfile(c: Case, h: History, s: SupplierStrategy) returns (profile: Profile)
    requires s in Strategies(c, h)
    ensures profile in c.profiles && s == Classified(c, h, profile)
  {
    var unsorted := ClassifiedAll(c, h, c.profiles);
    StrategyRanksBelowFour(unsorted);
    var i := SortedItemIsAnInput(unsorted, STRATEGY_RANK, 4, s);
    profile := c.profiles[i];
  }

  lemma ChallengedIffDominant(c: Case, profile: Profile)
    ensures StrategyOn(GroundFor(c, profile)).Challenge? <==> ShareAtLeast(RowOf(c.rows, profile.supplier), 50.0)
  {}

  lemma StrategyComesFromProfile(c: Case, h: History, s: SupplierStrategy)
    requires s in Strategies(c, h)
    ensures s.strategy.Challenge? <==> ShareAtLeast(RowOf(c.rows, s.supplier), 50.0)
  {
    var profile := ListedStrategyHasProfile(c, h, s);
    ChallengedIffDominant(c, profile);
  }

  /** Findings that do not come from a share or a strategy name no supplier. */
  lemma SupplierFindingOrigin(c: Case, ss: seq<SupplierStrategy>, supplier: string, f: Finding)
    requires f in FindingsOf(c, ss) && Names(f, supplier)
    ensures f in OnShares(c.wording, c.rows, ss) || f in OnStrategies(ss)
  {
    FindingsRegroup(c, ss);
    FindingOrigin(OnContract(c) + OnPriceHistory(c), OnShares(c.wording, c.rows, ss), OnStrategies(ss),
                  OnContradiction(c) + OnPrice(c) + OnMarketAlone(c), f);
    FixedFindingsNameNobody(c, f, supplier);
  }

  lemma FixedFindingsNameNobody(c: Case, f: Finding, supplier: string)
    ensures f in OnContract(c) + OnPriceHistory(c) ==> !Names(f, supplier)
    ensures f in OnContradiction(c) + OnPrice(c) + OnMarketAlone(c) ==> !Names(f, supplier)
  {}

  lemma FindingsRegroup(c: Case, ss: seq<SupplierStrategy>)
    ensures FindingsOf(c, ss) == (OnContract(c) + OnPriceHistory(c)) + OnShares(c.wording, c.rows, ss) + OnStrategies(ss)
                                 + (OnContradiction(c) + OnPrice(c) + OnMarketAlone(c))
  {}

  lemma FindingOrigin(a: seq<Finding>, b: seq<Finding>, d: seq<Finding>, e: seq<Finding>, f: Finding)
    requires f in a + b + d + e
    ensures f in a || f in b || f in d || f in e
  {}

  lemma StrategyFindingOrigin(ss: seq<SupplierStrategy>, f: Finding) returns (i: nat)
    requires f in OnStrategies(ss)
    ensures i < |ss| && f == OnStrategy(ss[i]) && ss[i] in ss
  {
    i :| 0 <= i < |ss| && OnStrategies(ss)[i] == f;
  }

  /** Where a decision-changing finding comes from. */
  lemma DecisiveFindingHasShare(c: Case, h: History, supplier: string, f: Finding)
    requires DistinctSuppliers(c.rows)
    ensures f in FindingsOf(c, Strategies(c, h)) && DecidesOn(f, supplier) ==> ShareAtLeast(RowOf(c.rows, supplier), 50.0)
  {
    var ss := Strategies(c, h);
    if f in FindingsOf(c, ss) && DecidesOn(f, supplier) {
      SupplierFindingOrigin(c, ss, supplier, f);
      if f in OnShares(c.wording, c.rows, ss) {
        ShareFindingHasRow(c.wording, c.rows, ss, supplier, f);
        var i :| 0 <= i < |c.rows| && c.rows[i].supplier == supplier && ShareAtLeast(c.rows[i], 50.0);
        RowIsFound(c.rows, i);
      } else {
        var i := StrategyFindingOrigin(ss, f);
        StrategyComesFromProfile(c, h, ss[i]);
      }
    }
  }

  lemma DominantSupplierHasFinding(c: Case, h: History, supplier: string) returns (f: Finding)
    requires ShareAtLeast(RowOf(c.rows, supplier), 50.0)
    ensures f in FindingsOf(c, Strategies(c, h)) && DecidesOn(f, supplier)
  {
    var ss := Strategies(c, h);
    if i :| 0 <= i < |ss| && ss[i].supplier == supplier {
      assert ss[i] in ss;
      StrategyComesFromProfile(c, h, ss[i]);
      f := OnStrategy(ss[i]);
      assert OnStrategies(ss)[i] == f;
      assert f in OnStrategies(ss);
    } else {
      FoundRowIsListed(c.rows, supplier);
      var i :| 0 <= i < |c.rows| && c.rows[i].supplier == supplier && c.rows[i] == RowOf(c.rows, supplier);
      RowHasShareFinding(c.wording, c.rows, ss, i);
      f :| f in OnShares(c.wording, c.rows, ss) && DecidesOn(f, c.rows[i].supplier);
    }
  }

  /** A supplier is reported as decision-changing exactly when it holds at least
      half of the category's spend, whether or not it has a profile, and
      whatever the history. */
  lemma DecisionChangingIffDominant(c: Case, h: History, supplier: string)
    requires DistinctSuppliers(c.rows)
    ensures (exists f :: f in SurfacedFor(c, h) && DecidesOn(f, supplier)) <==> ShareAtLeast(RowOf(c.rows, supplier), 50.0)
  {
    var found := FindingsOf(c, Strategies(c, h));
    var fs := Annotated(c.wording, found, h);
    GuardrailsAreIdle(c, h);
    if f :| f in SurfacedFor(c, h) && DecidesOn(f, supplier) {
      SurfacedIff(fs, f);
      var i :| 0 <= i < |fs| && fs[i] == f;
      assert ClaimOf(f) == ClaimOf(found[i]) && found[i] in found;
      DecisiveFindingHasShare(c, h, supplier, found[i]);
    }
    if ShareAtLeast(RowOf(c.rows, supplier), 50.0) {
      var f := DominantSupplierHasFinding(c, h, supplier);
      var i :| 0 <= i < |found| && found[i] == f;
      assert ClaimOf(fs[i]) == ClaimOf(f);
      SurfacedIff(fs, fs[i]);
      assert fs[i] in SurfacedFor(c, h) && DecidesOn(fs[i], supplier);
    }
  }

  // ----- priorities -----

  lemma {:induction false} HeadlinesIgnoreHistory(ss: seq<SupplierStrategy>, ts: seq<SupplierStrategy>, h: History, k: History)
    requires SameVerdicts(ss, ts)
    ensures Image(OnEach(ss, h), HeadlineOf) == Image(OnEach(ts, k), HeadlineOf)
    decreases |ss|
  {
    if ss != [] {
      var s, t := ss[|ss| - 1], ts[|ts| - 1];
      HeadlinesIgnoreHistory(ss[..|ss| - 1], ts[..|ts| - 1], h, k);
      assert Image(OnEach(ss, h), HeadlineOf)
          == Image(OnEach(ss[..|ss| - 1], h), HeadlineOf) + Image(OnOne(s, h), HeadlineOf);
      assert Image(OnEach(ts, k), HeadlineOf)
          == Image(OnEach(ts[..|ts| - 1], k), HeadlineOf) + Image(OnOne(t, k), HeadlineOf);
    }
  }

  lemma TakingOneOut<T>(ys: seq<T>, i: nat)
    requires i < |ys|
    ensures multiset(ys[..i] + ys[i + 1..]) == multiset(ys) - multiset{ys[i]}
  {
    assert ys == ys[..i] + [ys[i]] + ys[i + 1..];
  }

  lemma ImageWithoutOne<S, T>(ys: seq<S>, i: nat, f: S -> T)
    requires i < |ys|
    ensures multiset(Image(ys, f)) == multiset(Image(ys[..i] + ys[i + 1..], f)) + multiset{f(ys[i])}
  {
    var image := Image(ys, f);
    assert Image(ys[..i] + ys[i + 1..], f) == image[..i] + image[i + 1..];
    assert image == image[..i] + [f(ys[i])] + image[i + 1..];
  }

  lemma TakingFirstOut<S, T>(xs: seq<S>, f: S -> T)
    requires xs != []
    ensures multiset(xs[1..]) == multiset(xs) - multiset{xs[0]}
    ensures multiset(Image(xs, f)) == multiset(Image(xs[1..], f)) + multiset{f(xs[0])}
  {
    assert xs == [xs[0]] + xs[1..];
    assert Image(xs, f) == [f(xs[0])] + Image(xs[1..], f);
  }

  lemma {:induction false} ImageOfPermutation<S, T>(xs: seq<S>, ys: seq<S>, f: S -> T)
    requires multiset(xs) == multiset(ys)
    ensures multiset(Image(xs, f)) == multiset(Image(ys, f))
    decreases |xs|
  {
    if xs == [] {
      assert |multiset(ys)| == 0 && ys == [];
    } else {
      assert xs[0] in multiset(ys);
      var i :| 0 <= i < |ys| && ys[i] == xs[0];
      TakingFirstOut(xs, f);
      TakingOneOut(ys, i);
      ImageOfPermutation(xs[1..], ys[..i] + ys[i + 1..], f);
      ImageWithoutOne(ys, i, f);
    }
  }

  lemma RecurrenceRanksBelowTwo(ps: seq<Priority>)
    ensures RanksBelow(ps, RECURRENCE_RANK, 2)
  {}

  lemma SortingKeepsHeadlines(ps: seq<Priority>)
    ensures multiset(Image(StableSort(ps, RECURRENCE_RANK, 2), HeadlineOf)) == multiset(Image(ps, HeadlineOf))
  {
    RecurrenceRanksBelowTwo(ps);
    StableSortPermutes(ps, RECURRENCE_RANK, 2);
    ImageOfPermutation(StableSort(ps, RECURRENCE_RANK, 2), ps, HeadlineOf);
  }

  /** History can move a priority but neither adds nor drops one: before the
      cut to five, any two histories give permutations of the same headlines. */
  lemma PrioritiesArePermuted(c: Case, h: History, k: History)
    ensures multiset(Headlines(c, h)) == multiset(Headlines(c, k))
  {
    StrategiesIgnoreHistory(c, h, k);
    HeadlinesIgnoreHistory(Strategies(c, h), Strategies(c, k), h, k);
    SortingKeepsHeadlines(OnEach(Strategies(c, h), h));
    SortingKeepsHeadlines(OnEach(Strategies(c, k), k));
  }

  lemma RecurringFirst(ps: seq<Priority>)
    ensures Image(StableSort(ps, RECURRENCE_RANK, 2), HeadlineOf)
            == Image(OfRank(ps, RECURRENCE_RANK, 0), HeadlineOf) + Image(OfRank(ps, RECURRENCE_RANK, 1), HeadlineOf)
  {
    assert StableSort(ps, RECURRENCE_RANK, 1) == OfRank(ps, RECURRENCE_RANK, 0);
    ImageOfSum(OfRank(ps, RECURRENCE_RANK, 0), OfRank(ps, RECURRENCE_RANK, 1), HeadlineOf);
  }

  /** Recurring opportunities lead, and each half keeps the strategies' order. */
  lemma RecurringPrioritiesLead(c: Case, h: History)
    ensures var listed := OnEach(Strategies(c, h), h);
            Headlines(c, h) == Image(OfRank(listed, RECURRENCE_RANK, 0), HeadlineOf)
                               + Image(OfRank(listed, RECURRENCE_RANK, 1), HeadlineOf) + ClosingPriorities(c)
  {
    RecurringFirst(OnEach(Strategies(c, h), h));
  }
}
