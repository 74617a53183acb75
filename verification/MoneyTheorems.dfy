/** Reading back what the money printer wrote, and what the reader does to a
    number written without commas. */
module MoneyTheorems {
  import opened Options
  import opened Texts
  import opened Rounding
  import opened MoneyText

  // ----- values of digit strings -----

  lemma {:induction false} ValueOfDigits(n: nat)
    ensures ValueOf(Digits(n)) == n
  {
    if n >= 10 {
      ValueOfDigits(n / 10);
      assert Digits(n)[..|Digits(n)| - 1] == Digits(n / 10);
    }
  }

  lemma {:induction false} ValueOfPadded(n: nat, width: nat)
    requires n < Pow10(width)
    ensures ValueOf(Padded(n, width)) == n
  {
    if width > 0 {
      ValueOfPadded(n / 10, width - 1);
      assert Padded(n, width)[..width - 1] == Padded(n / 10, width - 1);
    }
  }

  lemma {:induction false} ValueOfSum(a: string, b: string)
    requires AllDigits(a) && AllDigits(b)
    ensures AllDigits(a + b) && ValueOf(a + b) == ValueOf(a) * Pow10(|b|) + ValueOf(b)
  {
    if b == "" {
      assert a + b == a;
    } else {
      var front := b[..|b| - 1];
      ValueOfSum(a, front);
      assert (a + b)[..|a + b| - 1] == a + front;
      assert ValueOf(a + b) == 10 * ValueOf(a + front) + DigitOf(b[|b| - 1]);
      MoveTen(ValueOf(a), Pow10(|front|));
    }
  }

  lemma MoveTen(v: nat, p: nat)
    ensures 10 * (v * p) == v * (10 * p)
  {}

  lemma SumsRegroup(a: string, b: string, c: string)
    ensures (a + b) + c == a + (b + c)
  {}

  // ----- the shape of a grouped number -----

  function Lead(n: nat): string { if n < 1000 then Digits(n) else Lead(n / 1000) }

  function Groups(n: nat): string {
    if n < 1000 then "" else Groups(n / 1000) + ("," + Padded(n % 1000, 3))
  }

  predicate IsGroups(g: string)
    decreases |g|
  {
    g == "" || (|g| >= 4 && g[0] == ',' && AllDigits(g[1..4]) && IsGroups(g[4..]))
  }

  lemma {:induction false} GroupedSplits(n: nat)
    ensures Grouped(n) == Lead(n) + Groups(n)
  {
    if n >= 1000 {
      GroupedSplits(n / 1000);
      var last := "," + Padded(n % 1000, 3);
      assert Grouped(n) == Grouped(n / 1000) + last;
      assert (Lead(n / 1000) + Groups(n / 1000)) + last == Lead(n / 1000) + (Groups(n / 1000) + last);
    } else {
      assert Lead(n) + Groups(n) == Lead(n);
    }
  }

  lemma {:induction false} OneMoreGroup(g: string, digits: string)
    requires IsGroups(g) && |digits| == 3 && AllDigits(digits)
    ensures IsGroups(g + ("," + digits))
    decreases |g|
  {
    var last := "," + digits;
    if g == "" {
      assert g + last == last;
      assert last[1..4] == digits && last[4..] == "";
    } else {
      OneMoreGroup(g[4..], digits);
      assert (g + last)[1..4] == g[1..4];
      assert (g + last)[4..] == g[4..] + last;
    }
  }

  lemma {:induction false} GroupsAreGroups(n: nat)
    ensures IsGroups(Groups(n))
  {
    if n >= 1000 {
      GroupsAreGroups(n / 1000);
      OneMoreGroup(Groups(n / 1000), Padded(n % 1000, 3));
    }
  }

  lemma {:induction false} LeadIsShort(n: nat)
    ensures 1 <= |Lead(n)| <= 3 && AllDigits(Lead(n))
  {
    if n >= 1000 {
      LeadIsShort(n / 1000);
    } else if n >= 10 {
      assert Digits(n) == Digits(n / 10) + [CharOf(n % 10)];
      assert n / 10 >= 10 ==> Digits(n / 10) == Digits(n / 10 / 10) + [CharOf(n / 10 % 10)];
      assert n / 10 / 10 < 10 && |Digits(n / 10 / 10)| == 1;
    }
  }

  /** A group run takes every group, then whatever groups follow. */
  lemma {:induction false} GroupRunTakesGroups(g: string, rest: string)
    requires IsGroups(g)
    ensures GroupRun(g + rest) == |g| + GroupRun(rest)
    decreases |g|
  {
    if g == "" {
      assert g + rest == rest;
    } else {
      GroupRunTakesGroups(g[4..], rest);
      assert (g + rest)[1..4] == g[1..4];
      assert (g + rest)[4..] == g[4..] + rest;
    }
  }

  lemma {:induction false} DigitRunTakesDigits(ds: string, rest: string)
    requires AllDigits(ds) && (rest == "" || !IsDigit(rest[0]))
    ensures DigitRun(ds + rest) == |ds|
  {
    if ds == "" {
      assert ds + rest == rest;
    } else {
      DigitRunTakesDigits(ds[1..], rest);
      assert (ds + rest)[1..] == ds[1..] + rest;
    }
  }

  predicate IsFraction(f: string) {
    f == "" || (|f| > 1 && f[0] == '.' && AllDigits(f[1..]))
  }

  /** After a number with fraction `f` the text `t` does not continue it. */
  predicate NumberEnds(f: string, t: string) {
    && (t == "" || !IsDigit(t[0]))
    && (f == "" ==> TailRun(t) == 0)
  }

  lemma PointRuns(s: string, rest: string)
    requires s == "." + rest && DigitRun(rest) > 0
    ensures FractionRun(s) == 1 + DigitRun(rest) && GroupRun(s) == 0
  {
    assert s[1..] == rest;
  }

  lemma PlacesRun(places: string, t: string)
    requires AllDigits(places) && places != "" && (t == "" || !IsDigit(t[0]))
    ensures FractionRun("." + (places + t)) == 1 + |places| && GroupRun("." + (places + t)) == 0
  {
    DigitRunTakesDigits(places, t);
    PointRuns("." + (places + t), places + t);
  }

  lemma FractionRunTakesAll(f: string, t: string)
    requires IsFraction(f) && f != "" && (t == "" || !IsDigit(t[0]))
    ensures FractionRun(f + t) == |f| && GroupRun(f + t) == 0
  {
    assert f == "." + f[1..];
    SumsRegroup(".", f[1..], t);
    PlacesRun(f[1..], t);
  }

  lemma TailRunTakesAll(groups: string, f: string, t: string)
    requires IsGroups(groups) && IsFraction(f) && NumberEnds(f, t)
    ensures TailRun(groups + (f + t)) == |groups| + |f|
    ensures groups + (f + t) != "" ==> !IsDigit((groups + (f + t))[0])
  {
    GroupRunTakesGroups(groups, f + t);
    if f == "" {
      assert f + t == t;
      assert (groups + t)[|groups|..] == t;
    } else {
      FractionRunTakesAll(f, t);
      assert (groups + (f + t))[|groups|..] == f + t;
    }
  }

  lemma MatchOfParts(lead: string, tail: string)
    requires 1 <= |lead| <= 3 && AllDigits(lead)
    requires tail != "" ==> !IsDigit(tail[0])
    ensures NumberMatch(lead + tail) == |lead| + TailRun(tail)
  {
    DigitRunTakesDigits(lead, tail);
    assert (lead + tail)[|lead|..] == tail;
  }

  lemma NumberMatchesUpToTail(lead: string, groups: string, f: string, t: string)
    requires 1 <= |lead| <= 3 && AllDigits(lead) && IsGroups(groups) && IsFraction(f) && NumberEnds(f, t)
    ensures NumberMatch(((lead + groups) + f) + t) == |lead| + |groups| + |f|
  {
    TailRunTakesAll(groups, f, t);
    MatchOfParts(lead, groups + (f + t));
    SumsRegroup(lead + groups, f, t);
    SumsRegroup(lead, groups, f + t);
  }

  /** The first alternative matches all of a grouped number with a fraction, and
      no more where the text ends the number. */
  lemma GroupedNumberMatchesWhole(n: nat, f: string, t: string)
    requires IsFraction(f) && NumberEnds(f, t)
    ensures NumberMatch((Grouped(n) + f) + t) == |Grouped(n) + f|
  {
    GroupsAreGroups(n);
    LeadIsShort(n);
    GroupedSplits(n);
    NumberMatchesUpToTail(Lead(n), Groups(n), f, t);
  }

  // ----- commas -----

  lemma {:induction false} WithoutOfSum(a: string, b: string, chars: string)
    ensures Without(a + b, chars) == Without(a, chars) + Without(b, chars)
  {
    if a == "" {
      assert a + b == b;
    } else {
      WithoutOfSum(a[1..], b, chars);
      assert (a + b)[1..] == a[1..] + b;
      SumsRegroup([a[0]], Without(a[1..], chars), Without(b, chars));
    }
  }

  lemma {:induction false} WithoutKeeps(s: string, chars: string)
    requires forall i :: 0 <= i < |s| ==> s[i] !in chars
    ensures Without(s, chars) == s
  {
    if s != "" { WithoutKeeps(s[1..], chars); }
  }

  lemma {:induction false} WithoutAddsNoDigits(s: string, chars: string)
    requires NoDigits(s)
    ensures NoDigits(Without(s, chars))
  {
    if s != "" { WithoutAddsNoDigits(s[1..], chars); }
  }

  lemma {:induction false} GroupedWithoutCommas(n: nat)
    ensures AllDigits(Without(Grouped(n), ",")) && Without(Grouped(n), ",") != ""
    ensures ValueOf(Without(Grouped(n), ",")) == n
  {
    if n < 1000 {
      WithoutKeeps(Digits(n), ",");
      ValueOfDigits(n);
    } else {
      GroupedWithoutCommas(n / 1000);
      var front, last := Grouped(n / 1000), Padded(n % 1000, 3);
      assert Pow10(1) == 10 && Pow10(2) == 100 && Pow10(3) == 1000;
      assert Grouped(n) == (front + ",") + last;
      WithoutOfSum(front + ",", last, ",");
      WithoutOfSum(front, ",", ",");
      WithoutKeeps(last, ",");
      assert Without(",", ",") == "";
      ValueOfPadded(n % 1000, 3);
      ValueOfSum(Without(front, ","), last);
      assert Without(Grouped(n), ",") == Without(front, ",") + last;
    }
  }

  // ----- finding the number behind its prefix -----

  lemma {:induction false} FirstNumberSkipsPrefix(p: string, s: string)
    requires NoDigits(p)
    ensures FirstNumber(p + s) == FirstNumber(s)
  {
    if p == "" {
      assert p + s == s;
    } else {
      assert NumberMatch(p + s) == 0;
      assert (p + s)[1..] == p[1..] + s;
      FirstNumberSkipsPrefix(p[1..], s);
    }
  }

  // ----- cleaning -----

  /** The characters a printed number is made of; no cleaning pattern has one. */
  predicate NumberChar(c: char) { IsDigit(c) || c == ',' || c == '.' || c == '-' }

  predicate NumberText(s: string) { forall i :: 0 <= i < |s| ==> NumberChar(s[i]) }

  predicate LettersOnly(word: string) { forall i :: 0 <= i < |word| ==> !NumberChar(word[i]) && !('A' <= word[i] <= 'Z') }

  lemma WordStopsBeforeNumber(s: string, word: string, k: nat)
    requires k < |s| && NumberChar(s[k]) && Begins(s, word) && LettersOnly(word)
    ensures |word| <= k
  {}

  lemma SkippingStopsAtOther(s: string, k: nat) returns (j: nat)
    requires k < |s| && !IsSpace(s[k])
    ensures j == |s| - |SkipSpaces(s)| <= k && SkipSpaces(s) == s[j..]
  {
    j := |s| - |SkipSpaces(s)|;
    SkippingLeavesSuffix(s);
    if k < j { SkippedAreSpaces(s, k); }
  }

  lemma PhraseStopsBeforeNumber(s: string, head: string, k: nat)
    requires k < |s| && NumberChar(s[k]) && head != "" && LettersOnly(head)
    ensures UnitPhrase(s, head) <= k
  {
    if UnitPhrase(s, head) > 0 {
      WordStopsBeforeNumber(s, head, k);
      var tail := s[|head|..];
      var j := SkippingStopsAtOther(tail, k - |head|);
      assert tail[j..][k - |head| - j] == s[k];
      WordStopsBeforeNumber(tail[j..], "unit", k - |head| - j);
    }
  }

  lemma UnitMatchStopsBeforeNumber(s: string, k: nat)
    requires k < |s| && NumberChar(s[k])
    ensures UnitMatch(s) <= k
  {
    PhraseStopsBeforeNumber(s, "per", k);
    PhraseStopsBeforeNumber(s, "/", k);
    if Begins(s, "each") { WordStopsBeforeNumber(s, "each", k); }
  }

  /** A pattern none of whose matches reaches a character of a number. */
  ghost predicate SparesNumbers(matcher: string -> nat) {
    forall s, k :: 0 <= k < |s| && NumberChar(s[k]) ==> matcher(s) <= k
  }

  lemma UnitMatchSparesNumbers()
    ensures SparesNumbers(UnitMatch)
  {
    forall s: string, k | 0 <= k < |s| && NumberChar(s[k]) ensures UnitMatch(s) <= k {
      UnitMatchStopsBeforeNumber(s, k);
    }
  }

  /** Removing such a pattern passes over a number and goes on behind it. */
  lemma {:induction false} DroppingKeepsNumbers(s: string, tail: string, matcher: string -> nat)
    requires SparesNumbers(matcher) && NumberText(s)
    ensures DropMatches(s + tail, matcher) == s + DropMatches(tail, matcher)
  {
    if s == "" {
      assert s + tail == tail;
    } else {
      assert NumberChar((s + tail)[0]);
      assert (s + tail)[1..] == s[1..] + tail;
      DroppingKeepsNumbers(s[1..], tail, matcher);
      SumsRegroup([s[0]], s[1..], DropMatches(tail, matcher));
    }
  }

  lemma KeptCharStaysAhead(c: char, q: string, s: string)
    requires NoDigits(q) && !IsDigit(c)
    ensures NoDigits([c] + q) && ([c] + q) + s == [c] + (q + s)
  {}

  /** Before a number it works on the digit-free text there alone. */
  lemma {:induction false} DroppingWorksOnPrefix(p: string, s: string, matcher: string -> nat) returns (q: string)
    requires SparesNumbers(matcher) && NoDigits(p) && s != "" && NumberChar(s[0])
    ensures NoDigits(q) && DropMatches(p + s, matcher) == q + DropMatches(s, matcher)
    decreases |p|
  {
    if p == "" {
      assert p + s == s;
      q := "";
    } else {
      assert (p + s)[|p|] == s[0];
      var n := matcher(p + s);
      if n > 0 {
        assert (p + s)[n..] == p[n..] + s;
        q := DroppingWorksOnPrefix(p[n..], s, matcher);
      } else {
        assert (p + s)[1..] == p[1..] + s;
        var rest := DroppingWorksOnPrefix(p[1..], s, matcher);
        KeptCharStaysAhead(p[0], rest, DropMatches(s, matcher));
        q := [p[0]] + rest;
      }
    }
  }

  lemma CleanedAroundNumber(p: string, s: string, tail: string) returns (q: string)
    requires NoDigits(p) && NumberText(s) && s != ""
    ensures NoDigits(q) && Cleaned((p + s) + tail) == q + (s + Cleaned(tail))
  {
    WithoutOfSum(p + s, tail, SYMBOLS);
    WithoutOfSum(p, s, SYMBOLS);
    WithoutKeeps(s, SYMBOLS);
    WithoutAddsNoDigits(p, SYMBOLS);
    var rest := Without(tail, SYMBOLS);
    SumsRegroup(Without(p, SYMBOLS), s, rest);
    assert (s + rest)[0] == s[0];
    UnitMatchSparesNumbers();
    q := DroppingWorksOnPrefix(Without(p, SYMBOLS), s + rest, UnitMatch);
    DroppingKeepsNumbers(s, rest, UnitMatch);
  }

  lemma MatchIsFirstNumber(s: string)
    requires s != "" && NumberMatch(s) > 0
    ensures FirstNumber(s) == Some(s[..NumberMatch(s)])
  {}

  /** The reader takes the number, or the part of it the pattern matches, whatever
      digit-free text stands before it and whatever text after. */
  lemma ReadingFindsNumber(p: string, s: string, tail: string, n: nat)
    requires NoDigits(p) && NumberText(s) && s != "" && IsDigit(s[0])
    requires 0 < n <= |s| && NumberMatch(s + Cleaned(tail)) == n
    ensures ParseNumericValue((p + s) + tail) == AsNumber(Without(s[..n], ","))
  {
    assert ((p + s) + tail)[|p|] == s[0];
    NotBlank((p + s) + tail, |p|);
    var q := CleanedAroundNumber(p, s, tail);
    FirstNumberSkipsPrefix(q, s + Cleaned(tail));
    MatchIsFirstNumber(s + Cleaned(tail));
    assert (s + Cleaned(tail))[..n] == s[..n];
  }

  // ----- the value -----

  lemma ValueOfWhole(whole: string)
    requires AllDigits(whole) && whole != ""
    ensures AsNumber(whole) == Some(ValueOf(whole) as real)
  {
    RunOfDigits(whole);
    assert whole[..|whole|] == whole;
  }

  lemma SplitAtPoint(raw: string, whole: string, places: string)
    requires raw == whole + ("." + places) && AllDigits(whole) && AllDigits(places)
    ensures raw[..|whole|] == whole && raw[|whole|] == '.' && raw[|whole| + 1..] == places
  {}

  lemma ValueWithPoint(raw: string, whole: string, places: string)
    requires raw == whole + ("." + places) && AllDigits(whole) && whole != "" && AllDigits(places)
    ensures AsNumber(raw) == Some(Decimal(ValueOf(whole), ValueOf(places), |places|))
  {
    DigitRunTakesDigits(whole, "." + places);
    SplitAtPoint(raw, whole, places);
  }

  lemma FractionIsFraction(units: nat, decimals: nat)
    ensures IsFraction(Fraction(units, decimals))
  {}

  lemma FractionHasNoComma(units: nat, decimals: nat)
    ensures Without(Fraction(units, decimals), ",") == Fraction(units, decimals)
  {
    WithoutKeeps(Fraction(units, decimals), ",");
  }

  /** The digits before and after the point make up the whole number. */
  lemma {:induction false} PlacesAddUp(units: nat, decimals: nat)
    ensures units == Whole(units, decimals) * Pow10(decimals) + ValueOf(Padded(units, decimals))
  {
    if decimals > 0 {
      PlacesAddUp(units / 10, decimals - 1);
      assert Padded(units, decimals)[..decimals - 1] == Padded(units / 10, decimals - 1);
      MoveTen(Whole(units, decimals), Pow10(decimals - 1));
    }
  }

  lemma PartsAddUp(units: nat, whole: nat, rest: nat, places: nat)
    requires units == whole * Pow10(places) + rest
    ensures Decimal(whole, rest, places) == units as real / Pow10(places) as real
  {}

  lemma WholeAndFractionHaveValue(whole: string, units: nat, decimals: nat)
    requires AllDigits(whole) && whole != ""
    ensures AsNumber(whole + Fraction(units, decimals))
            == Some(Decimal(ValueOf(whole), ValueOf(Padded(units, decimals)), decimals))
  {
    if decimals == 0 {
      ValueOfWhole(whole);
      assert whole + "" == whole;
      assert Pow10(0) == 1;
    } else {
      ValueWithPoint(whole + Fraction(units, decimals), whole, Padded(units, decimals));
    }
  }

  lemma FixedPointWithoutCommas(units: nat, decimals: nat)
    ensures Without(FixedPoint(units, decimals), ",")
            == Without(Grouped(Whole(units, decimals)), ",") + Fraction(units, decimals)
  {
    WithoutOfSum(Grouped(Whole(units, decimals)), Fraction(units, decimals), ",");
    FractionHasNoComma(units, decimals);
  }

  lemma FixedPointHasValue(units: nat, decimals: nat)
    ensures AsNumber(Without(FixedPoint(units, decimals), ",")) == Some(units as real / Pow10(decimals) as real)
  {
    var whole := Whole(units, decimals);
    FixedPointWithoutCommas(units, decimals);
    GroupedWithoutCommas(whole);
    WholeAndFractionHaveValue(Without(Grouped(whole), ","), units, decimals);
    PlacesAddUp(units, decimals);
    PartsAddUp(units, whole, ValueOf(Padded(units, decimals)), decimals);
  }

  lemma {:induction false} GroupedIsNumberText(n: nat)
    ensures NumberText(Grouped(n)) && Grouped(n) != "" && IsDigit(Grouped(n)[0])
  {
    if n >= 1000 { GroupedIsNumberText(n / 1000); }
  }

  lemma FixedPointIsNumberText(units: nat, decimals: nat)
    ensures NumberText(FixedPoint(units, decimals)) && FixedPoint(units, decimals) != "" && IsDigit(FixedPoint(units, decimals)[0])
  {
    GroupedIsNumberText(Whole(units, decimals));
  }

  lemma FixedPointMatchesWhole(units: nat, decimals: nat, t: string)
    requires NumberEnds(Fraction(units, decimals), t)
    ensures NumberMatch(FixedPoint(units, decimals) + t) == |FixedPoint(units, decimals)|
  {
    FractionIsFraction(units, decimals);
    GroupedNumberMatchesWhole(Whole(units, decimals), Fraction(units, decimals), t);
  }

  lemma PrefixHasNoDigits(currency: string)
    requires NoDigits(currency)
    ensures NoDigits(Prefix(currency))
  {}

  // ----- main results -----

  /** The amount the print-out shows, its sign aside. */
  function Shown(amount: real, decimals: nat): (x: real)
    ensures x >= 0.0
  {
    UnitsShown(amount, decimals) as real / Pow10(decimals) as real
  }

  /** Reading a text with a printed amount in it gives the amount's magnitude to
      the printed place: any amount, any number of decimals, any number of comma
      groups, any text behind it that does not continue the number. */
  lemma ParseOfFormatted(m: Money, decimals: nat, tail: string)
    requires NoDigits(m.currency)
    requires NumberEnds(Fraction(UnitsShown(m.amount, decimals), decimals), Cleaned(tail))
    ensures ParseNumericValue(Formatted(m, decimals) + tail) == Some(Shown(m.amount, decimals))
  {
    var units := UnitsShown(m.amount, decimals);
    var s := FixedPoint(units, decimals);
    var p := Prefix(m.currency) + (if m.amount < 0.0 then "-" else "");
    PrefixHasNoDigits(m.currency);
    FixedPointIsNumberText(units, decimals);
    FixedPointMatchesWhole(units, decimals, Cleaned(tail));
    ReadingFindsNumber(p, s, tail, |s|);
    FixedPointHasValue(units, decimals);
    assert s[..|s|] == s;
    assert Formatted(m, decimals) == p + s;
  }

  predicate IsWhole(x: real) { x.Floor as real == x }

  predicate ExactAt(amount: real, decimals: nat) { IsWhole(InUnits(amount, decimals)) }

  lemma ExactAmountIsShown(amount: real, decimals: nat)
    requires amount >= 0.0
    ensures ExactAt(amount, decimals) <==> Shown(amount, decimals) == amount
  {}

  /** Printing then reading gives the amount back exactly when it is not negative
      and is exact at the printed place: the reader drops the minus sign. */
  lemma RoundTripIff(m: Money, decimals: nat)
    requires NoDigits(m.currency)
    ensures ParseNumericValue(Formatted(m, decimals)) == Some(m.amount)
            <==> m.amount >= 0.0 && ExactAt(m.amount, decimals)
  {
    ParseOfFormatted(m, decimals, "");
    assert Formatted(m, decimals) + "" == Formatted(m, decimals);
    if m.amount >= 0.0 { ExactAmountIsShown(m.amount, decimals); }
  }

  // ----- what a print-out shows -----

  /** The amount shown is the nearest one with that many decimals. */
  lemma ShownIsNearest(amount: real, decimals: nat)
    ensures var exact := (if amount < 0.0 then -amount else amount) * Pow10(decimals) as real;
            -0.5 <= UnitsShown(amount, decimals) as real - exact <= 0.5
  {
    RoundsToNearestTiesToEven(InUnits(Magnitude(amount), decimals));
  }

  /** Codes that print alike: the same letters, or the yen and the yuan. */
  predicate SameSymbol(a: string, b: string) {
    Upper(a) == Upper(b) || (Upper(a) in ["JPY", "CNY"] && Upper(b) in ["JPY", "CNY"])
  }

  lemma SymbolTable(c: string)
    ensures Upper(c) == "USD" ==> Prefix(c) == "$"
    ensures Upper(c) == "EUR" ==> Prefix(c) == "\U{20AC}"
    ensures Upper(c) == "GBP" ==> Prefix(c) == "\U{A3}"
    ensures Upper(c) in ["JPY", "CNY"] ==> Prefix(c) == "\U{A5}"
    ensures Upper(c) == "CAD" ==> Prefix(c) == "CA$"
    ensures Upper(c) == "AUD" ==> Prefix(c) == "A$"
    ensures Upper(c) == "INR" ==> Prefix(c) == "\U{20B9}"
    ensures Upper(c) !in ["USD", "EUR", "GBP", "JPY", "CNY", "CAD", "AUD", "INR"] ==> Prefix(c) == Upper(c) + " "
  {}

  predicate HasSymbol(c: string) { Upper(c) in ["USD", "EUR", "GBP", "JPY", "CNY", "CAD", "AUD", "INR"] }

  lemma SymbolEnds(c: string)
    ensures var p := Prefix(c); p != "" && (HasSymbol(c) <==> p[|p| - 1] != ' ') && p[|p| - 1] != '-'
  {}

  /** No two symbols begin alike. */
  lemma SymbolStarts(c: string)
    requires HasSymbol(c)
    ensures Prefix(c)[0] == if Upper(c) == "USD" then '$' else if Upper(c) == "EUR" then '\U{20AC}' else if Upper(c) == "GBP" then '\U{A3}'
                            else if Upper(c) in ["JPY", "CNY"] then '\U{A5}' else if Upper(c) == "CAD" then 'C'
                            else if Upper(c) == "AUD" then 'A' else '\U{20B9}'
    ensures Upper(c) !in ["USD", "EUR", "GBP", "JPY", "CNY", "CAD", "AUD"] ==> Upper(c) == "INR"
  {}

  lemma SymbolsDiffer(a: string, b: string)
    requires HasSymbol(a) && HasSymbol(b) && Prefix(a)[0] == Prefix(b)[0]
    ensures SameSymbol(a, b)
  {
    SymbolStarts(a);
    SymbolStarts(b);
  }

  lemma SameSymbolSamePrefix(a: string, b: string)
    requires SameSymbol(a, b)
    ensures Prefix(a) == Prefix(b)
  {}

  lemma SameSymbolSamePrefixIff(a: string, b: string)
    ensures Prefix(a) == Prefix(b) <==> SameSymbol(a, b)
  {
    if SameSymbol(a, b) { SameSymbolSamePrefix(a, b); }
    if Prefix(a) == Prefix(b) {
      SymbolEnds(a);
      SymbolEnds(b);
      if HasSymbol(a) { SymbolsDiffer(a, b); } else { CodesDiffer(a, b); }
    }
  }

  lemma CodesDiffer(a: string, b: string)
    requires !HasSymbol(a) && !HasSymbol(b) && Prefix(a) == Prefix(b)
    ensures Upper(a) == Upper(b)
  {
    SymbolTable(a);
    SymbolTable(b);
    assert (Upper(a) + " ")[..|Upper(a)|] == Upper(a) && (Upper(b) + " ")[..|Upper(b)|] == Upper(b);
  }

  lemma SplitsAtTheDigit(p: string, s: string, q: string, t: string)
    requires NoDigits(p) && NoDigits(q) && s != "" && IsDigit(s[0]) && t != "" && IsDigit(t[0]) && p + s == q + t
    ensures p == q && s == t
  {
    assert (p + s)[|p|] == s[0] && (q + t)[|q|] == t[0];
    assert |p| == |q|;
    assert (p + s)[..|p|] == p && (q + t)[..|q|] == q;
    assert (p + s)[|p|..] == s && (q + t)[|q|..] == t;
  }

  lemma SignEnds(p: string, q: string, minus: bool, negative: bool)
    requires p != "" && p[|p| - 1] != '-' && q != "" && q[|q| - 1] != '-'
    requires p + (if minus then "-" else "") == q + (if negative then "-" else "")
    ensures p == q && minus == negative
  {
    var a, b := p + (if minus then "-" else ""), q + (if negative then "-" else "");
    assert a[|a| - 1] == '-' <==> minus;
    assert b[|b| - 1] == '-' <==> negative;
    assert a[..|p|] == p && b[..|q|] == q;
  }

  lemma SameUnitsIff(u: nat, v: nat, p: nat)
    requires p >= 1
    ensures u as real / p as real == v as real / p as real <==> u == v
  {
    assert u as real / p as real * p as real == u as real && v as real / p as real * p as real == v as real;
  }

  /** Two print-outs are equal exactly for the same code, or the yen and the yuan,
      the same sign and the same amount shown. */
  lemma PrintsAgreeIff(a: Money, b: Money, decimals: nat)
    requires NoDigits(a.currency) && NoDigits(b.currency)
    ensures Formatted(a, decimals) == Formatted(b, decimals) <==>
            && SameSymbol(a.currency, b.currency)
            && (a.amount < 0.0 <==> b.amount < 0.0)
            && UnitsShown(a.amount, decimals) == UnitsShown(b.amount, decimals)
  {
    SameSymbolSamePrefixIff(a.currency, b.currency);
    if Formatted(a, decimals) == Formatted(b, decimals) {
      PrintsDivide(a, b, decimals);
      SymbolEnds(a.currency);
      SymbolEnds(b.currency);
      SignEnds(Prefix(a.currency), Prefix(b.currency), a.amount < 0.0, b.amount < 0.0);
      FixedPointIsInjective(UnitsShown(a.amount, decimals), UnitsShown(b.amount, decimals), decimals);
    }
  }

  lemma PrintsDivide(a: Money, b: Money, decimals: nat)
    requires NoDigits(a.currency) && NoDigits(b.currency) && Formatted(a, decimals) == Formatted(b, decimals)
    ensures Prefix(a.currency) + (if a.amount < 0.0 then "-" else "") == Prefix(b.currency) + (if b.amount < 0.0 then "-" else "")
    ensures FixedPoint(UnitsShown(a.amount, decimals), decimals) == FixedPoint(UnitsShown(b.amount, decimals), decimals)
  {
    PrefixHasNoDigits(a.currency);
    PrefixHasNoDigits(b.currency);
    FixedPointIsNumberText(UnitsShown(a.amount, decimals), decimals);
    FixedPointIsNumberText(UnitsShown(b.amount, decimals), decimals);
    SplitsAtTheDigit(Prefix(a.currency) + (if a.amount < 0.0 then "-" else ""), FixedPoint(UnitsShown(a.amount, decimals), decimals),
                     Prefix(b.currency) + (if b.amount < 0.0 then "-" else ""), FixedPoint(UnitsShown(b.amount, decimals), decimals));
  }

  lemma FixedPointIsInjective(u: nat, v: nat, decimals: nat)
    requires FixedPoint(u, decimals) == FixedPoint(v, decimals)
    ensures u == v
  {
    FixedPointHasValue(u, decimals);
    FixedPointHasValue(v, decimals);
    SameUnitsIff(u, v, Pow10(decimals));
  }

  /** The fraction has exactly the asked-for places, the whole part no needless zero. */
  lemma {:induction false} GroupedHasNoNeedlessZero(n: nat)
    ensures Grouped(n)[0] == '0' ==> n == 0
  {
    if n >= 1000 { GroupedHasNoNeedlessZero(n / 1000); } else { DigitsHaveNoNeedlessZero(n); }
  }

  lemma {:induction false} DigitsHaveNoNeedlessZero(n: nat)
    ensures Digits(n)[0] == '0' ==> n == 0
  {
    if n >= 10 { DigitsHaveNoNeedlessZero(n / 10); }
  }

  // ----- what the reader strips -----

  /** A currency symbol anywhere in a text that says anything else changes nothing. */
  lemma SymbolsAreIgnored(a: string, c: char, b: string)
    requires c in ['\U{20AC}', '$', '\U{A3}', '\U{A5}'] && Strip(a + b) != ""
    ensures ParseNumericValue(a + [c] + b) == ParseNumericValue(a + b)
  {
    NotBlank(a + [c] + b, |a|);
    WithoutOfSum(a + [c], b, SYMBOLS);
    WithoutOfSum(a, [c], SYMBOLS);
    WithoutOfSum(a, b, SYMBOLS);
    SymbolIsDropped(c);
    assert Without(a, SYMBOLS) + "" == Without(a, SYMBOLS);
  }

  lemma SymbolIsDropped(c: char)
    requires c in ['\U{20AC}', '$', '\U{A3}', '\U{A5}']
    ensures Without([c], SYMBOLS) == ""
  {
    assert [c][1..] == "";
  }

  predicate AllSpaces(s: string) { forall i :: 0 <= i < |s| ==> IsSpace(s[i]) }

  lemma {:induction false} SkippingDropsSpaces(gap: string, s: string)
    requires AllSpaces(gap) && s != "" && !IsSpace(s[0])
    ensures SkipSpaces(gap + s) == s
  {
    if gap == "" {
      assert gap + s == s;
    } else {
      assert (gap + s)[1..] == gap[1..] + s;
      SkippingDropsSpaces(gap[1..], s);
    }
  }

  lemma UnitIsAWord(unit: string)
    requires Lower(unit) == "unit"
    ensures |unit| == 4 && !IsSpace(unit[0])
  {
    assert "unit"[0] == 'u' && LowerChar(unit[0]) == 'u';
  }

  lemma BeginsWith(word: string, head: string, rest: string)
    requires Lower(head) == word
    ensures Begins(head + rest, word) && (head + rest)[|word|..] == rest
  {
    assert (head + rest)[..|word|] == head;
  }

  lemma PhraseMatches(head: string, gap: string, unit: string, rest: string, word: string)
    requires word != "" && Lower(head) == word && AllSpaces(gap) && Lower(unit) == "unit"
    ensures UnitPhrase(head + (gap + (unit + rest)), word) == |head| + |gap| + 4
  {
    UnitIsAWord(unit);
    BeginsWith(word, head, gap + (unit + rest));
    SkippingDropsSpaces(gap, unit + rest);
    BeginsWith("unit", unit, rest);
  }

  /** "per unit" and "/unit", in any case and with any gap, and "each" are dropped,
      and what follows is read as if they were not there. */
  lemma UnitWordsAreDropped(head: string, gap: string, unit: string, rest: string)
    requires (Lower(head) == "per" || head == "/") && AllSpaces(gap) && Lower(unit) == "unit"
    ensures DropUnits(head + (gap + (unit + rest))) == DropUnits(rest)
  {
    var s := head + (gap + (unit + rest));
    if Lower(head) == "per" {
      PhraseMatches(head, gap, unit, rest, "per");
    } else {
      SlashIsNoLetter(s);
      PhraseMatches(head, gap, unit, rest, "/");
    }
    assert UnitMatch(s) == |head| + |gap| + 4;
    assert s[|head| + |gap| + 4..] == rest;
  }

  lemma SlashIsNoLetter(s: string)
    requires s != "" && s[0] == '/'
    ensures UnitPhrase(s, "per") == 0
    ensures Lower("/") == "/"
  {
    assert |s| >= 3 ==> Lower(s[..3])[0] == '/' && "per"[0] == 'p';
  }

  lemma EachIsDropped(word: string, rest: string)
    requires Lower(word) == "each"
    ensures DropUnits(word + rest) == DropUnits(rest)
  {
    var s := word + rest;
    assert s[..4] == word && s[4..] == rest && "each"[0] == 'e';
    assert |s| >= 3 ==> Lower(s[..3])[0] == 'e' && "per"[0] == 'p';
    assert Lower(s[..1])[0] == 'e' && "/"[0] == '/';
  }

  // ----- numbers written without commas -----

  /** The second alternative of the pattern can never be the one that matches. */
  lemma SecondAlternativeIsDead(s: string)
    ensures PlainMatch(s) > 0 ==> GroupedMatch(s) > 0
    ensures NumberMatch(s) == GroupedMatch(s)
  {}

  lemma {:induction false} RunOfDigits(ds: string)
    requires AllDigits(ds)
    ensures DigitRun(ds) == |ds|
  {}

  lemma {:induction false} LongRunIsLong(ds: string, t: string, n: nat)
    requires AllDigits(ds) && n <= |ds|
    ensures DigitRun(ds + t) >= n
  {
    if n > 0 {
      assert (ds + t)[1..] == ds[1..] + t;
      LongRunIsLong(ds[1..], t, n - 1);
    }
  }

  lemma LongRunMatchesThree(ds: string, t: string)
    requires AllDigits(ds) && |ds| > 3
    ensures NumberMatch(ds + t) == 3
  {
    LongRunIsLong(ds, t, 4);
    assert (ds + t)[3..][0] == ds[3];
  }

  /** Of more than three digits written without commas only the first three are
      read, whatever stands before and whatever follows: a fraction, a unit, more. */
  lemma UngroupedRunIsCut(p: string, ds: string, tail: string)
    requires NoDigits(p) && AllDigits(ds) && |ds| > 3
    ensures ParseNumericValue((p + ds) + tail) == Some(ValueOf(ds[..3]) as real)
  {
    LongRunMatchesThree(ds, Cleaned(tail));
    ReadingFindsNumber(p, ds, tail, 3);
    WithoutKeeps(ds[..3], ",");
    ValueOfWhole(ds[..3]);
  }

  /** The number that digits and a fraction write. */
  function Written(ds: string, f: string): (x: real)
    requires AllDigits(ds) && IsFraction(f)
  {
    if f == "" then ValueOf(ds) as real else Decimal(ValueOf(ds), ValueOf(f[1..]), |f| - 1)
  }

  lemma WrittenIsNumberText(ds: string, f: string)
    requires AllDigits(ds) && ds != "" && IsFraction(f)
    ensures NumberText(ds + f) && (ds + f)[0] == ds[0] && Without(ds + f, ",") == ds + f
    ensures AsNumber(ds + f) == Some(Written(ds, f))
  {
    forall i | 0 <= i < |ds + f| ensures NumberChar((ds + f)[i]) && (ds + f)[i] != ',' {
      assert i >= |ds| + 1 ==> (ds + f)[i] == f[1..][i - |ds| - 1];
    }
    WithoutKeeps(ds + f, ",");
    if f == "" {
      assert ds + f == ds;
      ValueOfWhole(ds);
    } else {
      assert f == "." + f[1..];
      ValueWithPoint(ds + f, ds, f[1..]);
    }
  }

  lemma ShortNumberMatches(ds: string, f: string, t: string)
    requires AllDigits(ds) && 1 <= |ds| <= 3 && IsFraction(f) && NumberEnds(f, t)
    ensures NumberMatch((ds + f) + t) == |ds + f|
  {
    NumberMatchesUpToTail(ds, "", f, t);
    assert ds + "" == ds;
  }

  lemma ShortNumberIsRead(p: string, ds: string, f: string, tail: string)
    requires NoDigits(p) && AllDigits(ds) && 1 <= |ds| <= 3 && IsFraction(f) && NumberEnds(f, Cleaned(tail))
    ensures ParseNumericValue((p + (ds + f)) + tail) == Some(Written(ds, f))
  {
    var s := ds + f;
    WrittenIsNumberText(ds, f);
    ShortNumberMatches(ds, f, Cleaned(tail));
    ReadingFindsNumber(p, s, tail, |s|);
    assert s[..|s|] == s;
  }

  predicate AllZeros(ds: string) { forall i :: 0 <= i < |ds| ==> ds[i] == '0' }

  lemma {:induction false} ValueIsZeroIff(ds: string)
    requires AllDigits(ds)
    ensures ValueOf(ds) == 0 <==> AllZeros(ds)
  {
    if ds != "" { ValueIsZeroIff(ds[..|ds| - 1]); }
  }

  lemma ZerosOfSum(a: string, b: string)
    ensures AllZeros(a + b) <==> AllZeros(a) && AllZeros(b)
  {
    if AllZeros(a + b) {
      assert forall i :: 0 <= i < |a| ==> (a + b)[i] == a[i];
      assert forall i :: 0 <= i < |b| ==> (a + b)[|a| + i] == b[i];
    }
  }

  lemma CutLosesNothingIff(ds: string)
    requires AllDigits(ds) && |ds| > 3
    ensures ValueOf(ds[..3]) <= ValueOf(ds)
    ensures ValueOf(ds[..3]) == ValueOf(ds) <==> AllZeros(ds)
  {
    var a, b := ds[..3], ds[3..];
    assert ds == a + b;
    ValueOfSum(a, b);
    ValueIsZeroIff(a);
    ValueIsZeroIff(b);
    ZerosOfSum(a, b);
    assert Pow10(|b|) == 10 * Pow10(|b| - 1);
    LargerByAFactor(ValueOf(a), Pow10(|b|), ValueOf(b));
  }

  lemma QuotientIsZeroIff(v: nat, p: nat)
    requires p >= 1
    ensures v as real / p as real >= 0.0
    ensures v as real / p as real == 0.0 <==> v == 0
  {}

  lemma FractionIsZeroIff(f: string)
    requires IsFraction(f) && f != ""
    ensures ValueOf(f[1..]) as real / Pow10(|f| - 1) as real >= 0.0
    ensures ValueOf(f[1..]) as real / Pow10(|f| - 1) as real == 0.0 <==> AllZeros(f[1..])
  {
    ValueIsZeroIff(f[1..]);
    QuotientIsZeroIff(ValueOf(f[1..]), Pow10(|f| - 1));
  }

  lemma CutNumberIsWholeIff(ds: string, f: string)
    requires AllDigits(ds) && |ds| > 3 && IsFraction(f)
    ensures ValueOf(ds[..3]) as real == Written(ds, f) <==> AllZeros(ds) && (f == "" || AllZeros(f[1..]))
  {
    CutLosesNothingIff(ds);
    if f != "" { FractionIsZeroIff(f); }
  }

  /** So "1250" reads as 125: a number written without commas is read in full
      exactly when it has at most three digits before the point or is zero. */
  lemma UngroupedIsReadInFullIff(p: string, ds: string, f: string, tail: string)
    requires NoDigits(p) && AllDigits(ds) && ds != "" && IsFraction(f) && NumberEnds(f, Cleaned(tail))
    ensures ParseNumericValue((p + (ds + f)) + tail) == Some(Written(ds, f))
            <==> |ds| <= 3 || (AllZeros(ds) && (f == "" || AllZeros(f[1..])))
  {
    if |ds| <= 3 {
      ShortNumberIsRead(p, ds, f, tail);
    } else {
      LongNumberIsCut(p, ds, f, tail);
      CutNumberIsWholeIff(ds, f);
    }
  }

  lemma LongNumberIsCut(p: string, ds: string, f: string, tail: string)
    requires NoDigits(p) && AllDigits(ds) && |ds| > 3
    ensures ParseNumericValue((p + (ds + f)) + tail) == Some(ValueOf(ds[..3]) as real)
  {
    UngroupedRunIsCut(p, ds, f + tail);
    SumsRegroup(p, ds, f);
    SumsRegroup(p + ds, f, tail);
  }

  lemma LargerByAFactor(v: nat, p: nat, rest: nat)
    requires p >= 10
    ensures v <= v * p + rest
    ensures v == v * p + rest <==> v == 0 && rest == 0
  {
    if v > 0 { assert v * p >= v * 10; }
  }

  // ----- sums -----

  /** Amounts combine exactly when their currencies agree, and subtracting undoes adding. */
  lemma SubtractUndoesAdd(a: Money, b: Money)
    ensures Add(a, b).Sum? <==> a.currency == b.currency
    ensures Add(a, b).Sum? ==> Add(a, b).money.amount == a.amount + b.amount && Add(a, b).money.currency == a.currency
    ensures Subtract(a, b).Sum? <==> a.currency == b.currency
    ensures Add(a, b).Sum? ==> Subtract(Add(a, b).money, b) == Sum(a)
  {}

  // ----- which texts have a number -----

  lemma {:induction false} GroupRunIsGroups(s: string)
    ensures IsGroups(s[..GroupRun(s)])
  {
    if |s| >= 4 && s[0] == ',' && AllDigits(s[1..4]) {
      GroupRunIsGroups(s[4..]);
      var g := s[..GroupRun(s)];
      assert g[1..4] == s[1..4] && g[4..] == s[4..][..GroupRun(s[4..])];
    }
  }

  lemma FractionRunIsFraction(s: string)
    ensures IsFraction(s[..FractionRun(s)])
  {
    if FractionRun(s) > 0 { assert s[..FractionRun(s)][1..] == s[1..][..DigitRun(s[1..])]; }
  }

  lemma {:induction false} GroupsWithoutCommas(g: string)
    requires IsGroups(g)
    ensures AllDigits(Without(g, ","))
    decreases |g|
  {
    if g != "" {
      var digits, rest := g[1..4], g[4..];
      assert g == "," + (digits + rest);
      GroupsWithoutCommas(rest);
      WithoutOfSum(",", digits + rest, ",");
      WithoutOfSum(digits, rest, ",");
      WithoutKeeps(digits, ",");
      assert ","[1..] == "" && Without(",", ",") == "";
    }
  }

  lemma ThreeSlices(s: string, a: nat, b: nat, c: nat)
    requires a + b + c <= |s|
    ensures s[..a + b + c] == (s[..a] + s[a..][..b]) + s[a..][b..][..c]
  {}

  /** How the first alternative divides its match. */
  lemma MatchAddsUp(s: string, n: nat)
    requires DigitRun(s) > 0 && n == if DigitRun(s) > 3 then 3 else DigitRun(s)
    ensures GroupedMatch(s) == n + GroupRun(s[n..]) + FractionRun(s[n..][GroupRun(s[n..])..])
    ensures AllDigits(s[..n])
  {
    assert forall i :: 0 <= i < n ==> s[..n][i] == s[..DigitRun(s)][i];
  }

  lemma MatchParts(s: string) returns (lead: string, g: string, f: string)
    requires NumberMatch(s) > 0
    ensures lead != "" && AllDigits(lead) && IsGroups(g) && IsFraction(f) && s[..NumberMatch(s)] == (lead + g) + f
  {
    SecondAlternativeIsDead(s);
    var n := if DigitRun(s) > 3 then 3 else DigitRun(s);
    MatchAddsUp(s, n);
    var rest := s[n..];
    var behind := rest[GroupRun(rest)..];
    lead, g, f := s[..n], rest[..GroupRun(rest)], behind[..FractionRun(behind)];
    GroupRunIsGroups(rest);
    FractionRunIsFraction(behind);
    ThreeSlices(s, n, GroupRun(rest), FractionRun(behind));
  }

  lemma PartsAreANumber(lead: string, g: string, f: string)
    requires lead != "" && AllDigits(lead) && IsGroups(g) && IsFraction(f)
    ensures AsNumber(Without((lead + g) + f, ",")).Some?
  {
    WithoutOfSum(lead + g, f, ",");
    WithoutOfSum(lead, g, ",");
    WithoutKeeps(lead, ",");
    GroupsWithoutCommas(g);
    FractionKeepsNoComma(f);
    WrittenIsNumberText(lead + Without(g, ","), f);
  }

  /** What the pattern matches is always read as a number. */
  lemma MatchIsANumber(s: string)
    requires NumberMatch(s) > 0
    ensures AsNumber(Without(s[..NumberMatch(s)], ",")).Some?
  {
    var lead, g, f := MatchParts(s);
    PartsAreANumber(lead, g, f);
  }

  lemma FractionKeepsNoComma(f: string)
    requires IsFraction(f)
    ensures Without(f, ",") == f
  {
    forall i | 0 <= i < |f| ensures f[i] != ',' { assert i > 0 ==> f[i] == f[1..][i - 1]; }
    WithoutKeeps(f, ",");
  }

  lemma {:induction false} DroppingAddsNoDigits(s: string, matcher: string -> nat)
    requires NoDigits(s)
    ensures NoDigits(DropMatches(s, matcher))
    decreases |s|
  {
    if s != "" {
      if 0 < matcher(s) <= |s| { DroppingAddsNoDigits(s[matcher(s)..], matcher); } else { DroppingAddsNoDigits(s[1..], matcher); }
    }
  }

  lemma {:induction false} FirstDigitOf(text: string) returns (p: string, d: char, tail: string)
    requires !NoDigits(text)
    ensures NoDigits(p) && IsDigit(d) && text == (p + [d]) + tail
  {
    if IsDigit(text[0]) {
      p, d, tail := "", text[0], text[1..];
    } else {
      var q;
      q, d, tail := FirstDigitOf(text[1..]);
      p := [text[0]] + q;
      assert text == [text[0]] + text[1..];
    }
  }

  /** A text has no number exactly when it has no digit; nothing is ever read as
      zero for want of one. */
  lemma UnreadableIff(text: string)
    ensures ParseNumericValue(text).None? <==> NoDigits(text)
  {
    if NoDigits(text) {
      WithoutAddsNoDigits(text, SYMBOLS);
      DroppingAddsNoDigits(Without(text, SYMBOLS), UnitMatch);
      FirstNumberSkipsPrefix(Cleaned(text), "");
      assert Cleaned(text) + "" == Cleaned(text);
    } else {
      var p, d, tail := FirstDigitOf(text);
      assert text[|p|] == d;
      NotBlank(text, |p|);
      var q := CleanedAroundNumber(p, [d], tail);
      var found := [d] + Cleaned(tail);
      FirstNumberSkipsPrefix(q, found);
      assert DigitRun(found) >= 1;
      MatchIsFirstNumber(found);
      MatchIsANumber(found);
    }
  }
}
