/** The money printer (app/pipeline/money.py) and the number reader
    (app/pipeline/numeric_parsing.py), on exact strings and exact amounts. */
module MoneyText {
  import opened Options
  import opened Texts
  import opened Rounding

  // ----- digits -----

  predicate IsDigit(c: char) { '0' <= c <= '9' }

  predicate AllDigits(s: string) { forall i :: 0 <= i < |s| ==> IsDigit(s[i]) }

  predicate NoDigits(s: string) { forall i :: 0 <= i < |s| ==> !IsDigit(s[i]) }

  function DigitOf(c: char): nat
    requires IsDigit(c)
  {
    c as int - '0' as int
  }

  function CharOf(k: nat): (c: char)
    requires k < 10
    ensures IsDigit(c) && DigitOf(c) == k
  {
    (k + '0' as int) as char
  }

  function Pow10(k: nat): (p: nat)
    ensures p >= 1
  {
    if k == 0 then 1 else 10 * Pow10(k - 1)
  }

  function ValueOf(ds: string): nat
    requires AllDigits(ds)
  {
    if ds == "" then 0 else 10 * ValueOf(ds[..|ds| - 1]) + DigitOf(ds[|ds| - 1])
  }

  // ----- printing -----

  function Digits(n: nat): (s: string)
    ensures AllDigits(s) && s != ""
  {
    if n < 10 then [CharOf(n)] else Digits(n / 10) + [CharOf(n % 10)]
  }

  function Padded(n: nat, width: nat): (s: string)
    ensures AllDigits(s) && |s| == width
  {
    if width == 0 then "" else Padded(n / 10, width - 1) + [CharOf(n % 10)]
  }

  /** A comma before every three digits, counted from the right. */
  function Grouped(n: nat): string {
    if n < 1000 then Digits(n) else Grouped(n / 1000) + "," + Padded(n % 1000, 3)
  }

  function Fraction(units: nat, decimals: nat): string {
    if decimals == 0 then "" else "." + Padded(units, decimals)
  }

  /** What stands before the point of `units` / 10^decimals. */
  function Whole(units: nat, decimals: nat): nat {
    if decimals == 0 then units else Whole(units / 10, decimals - 1)
  }

  /** `f"{x:,.{decimals}f}"` for a non-negative amount of `units` / 10^decimals. */
  function FixedPoint(units: nat, decimals: nat): string {
    Grouped(Whole(units, decimals)) + Fraction(units, decimals)
  }

  datatype Money = Money(amount: real, currency: string)

  function UpperChar(c: char): char {
    if 'a' <= c <= 'z' then (c as int - 32) as char else c
  }

  function Upper(s: string): (r: string)
    ensures |r| == |s| && forall i :: 0 <= i < |s| ==> r[i] == UpperChar(s[i])
  {
    seq(|s|, i requires 0 <= i < |s| => UpperChar(s[i]))
  }

  function Prefix(currency: string): string {
    var code := Upper(currency);
    if code == "USD" then "$"
    else if code == "EUR" then "\U{20AC}"
    else if code == "GBP" then "\U{A3}"
    else if code == "JPY" || code == "CNY" then "\U{A5}"
    else if code == "CAD" then "CA$"
    else if code == "AUD" then "A$"
    else if code == "INR" then "\U{20B9}"
    else code + " "
  }

  function Magnitude(amount: real): real { if amount < 0.0 then -amount else amount }

  /** An amount counted in units of the place `decimals` after the point. */
  function InUnits(amount: real, decimals: nat): real { amount * Pow10(decimals) as real }

  lemma UnitsKeepSign(amount: real, decimals: nat)
    requires amount >= 0.0
    ensures InUnits(amount, decimals) >= 0.0
  {}

  /** The amount in units of the last printed place. */
  function UnitsShown(amount: real, decimals: nat): nat {
    UnitsKeepSign(Magnitude(amount), decimals);
    RoundingKeepsSign(InUnits(Magnitude(amount), decimals));
    RoundHalfEven(InUnits(Magnitude(amount), decimals))
  }

  lemma RoundingKeepsSign(x: real)
    requires x >= 0.0
    ensures RoundHalfEven(x) >= 0
  {}

  /** `Money.formatted`. */
  function Formatted(m: Money, decimals: nat): string {
    Prefix(m.currency) + (if m.amount < 0.0 then "-" else "") + FixedPoint(UnitsShown(m.amount, decimals), decimals)
  }

  // ----- adding -----

  datatype Sum = Sum(money: Money) | CurrencyError

  function Add(a: Money, b: Money): Sum {
    if a.currency != b.currency then CurrencyError else Sum(Money(a.amount + b.amount, a.currency))
  }

  function Subtract(a: Money, b: Money): Sum {
    if a.currency != b.currency then CurrencyError else Sum(Money(a.amount - b.amount, a.currency))
  }

  // ----- reading -----

  /** The text with every one of the given characters removed. */
  function Without(s: string, chars: string): string {
    if s == "" then ""
    else if s[0] in chars then Without(s[1..], chars)
    else [s[0]] + Without(s[1..], chars)
  }

  const SYMBOLS := "\U{20AC}$\U{A3}\U{A5}"

  predicate Begins(s: string, word: string) {
    |word| <= |s| && Lower(s[..|word|]) == word
  }

  /** `head\s*unit`, as a length; 0 where it does not match. */
  function UnitPhrase(s: string, head: string): (n: nat)
    requires head != ""
    ensures n <= |s|
  {
    if !Begins(s, head) then 0 else
    var rest := SkipSpaces(s[|head|..]);
    if Begins(rest, "unit") then |s| - |rest| + 4 else 0
  }

  /** `per\s*unit|/\s*unit|each`, alternatives in order. */
  function UnitMatch(s: string): (n: nat)
    ensures n <= |s|
  {
    if UnitPhrase(s, "per") > 0 then UnitPhrase(s, "per")
    else if UnitPhrase(s, "/") > 0 then UnitPhrase(s, "/")
    else if Begins(s, "each") then 4
    else 0
  }

  /** `re.sub(pattern, "", s)`, for a pattern given by the length it matches at
      the start of a text. */
  function DropMatches(s: string, matcher: string -> nat): string
    decreases |s|
  {
    if s == "" then ""
    else if 0 < matcher(s) <= |s| then DropMatches(s[matcher(s)..], matcher)
    else [s[0]] + DropMatches(s[1..], matcher)
  }

  function DropUnits(s: string): string { DropMatches(s, UnitMatch) }

  function DigitRun(s: string): (n: nat)
    ensures n <= |s| && AllDigits(s[..n])
    ensures n < |s| ==> !IsDigit(s[n])
  {
    if s == "" || !IsDigit(s[0]) then 0
    else
      assert s[..DigitRun(s[1..]) + 1] == [s[0]] + s[1..][..DigitRun(s[1..])];
      1 + DigitRun(s[1..])
  }

  /** `(?:,\d{3})*` */
  function GroupRun(s: string): (n: nat)
    ensures n <= |s|
  {
    if |s| >= 4 && s[0] == ',' && AllDigits(s[1..4]) then 4 + GroupRun(s[4..]) else 0
  }

  /** `(?:\.\d+)?` */
  function FractionRun(s: string): (n: nat)
    ensures n <= |s|
  {
    if s != "" && s[0] == '.' && DigitRun(s[1..]) > 0 then 1 + DigitRun(s[1..]) else 0
  }

  /** The groups and the fraction after the leading digits. */
  function TailRun(s: string): (n: nat)
    ensures n <= |s|
  {
    GroupRun(s) + FractionRun(s[GroupRun(s)..])
  }

  /** `\d{1,3}(?:,\d{3})*(?:\.\d+)?`; every part is greedy and none has to be given back. */
  function GroupedMatch(s: string): (n: nat)
    ensures n <= |s|
  {
    var lead := if DigitRun(s) > 3 then 3 else DigitRun(s);
    if lead == 0 then 0 else lead + TailRun(s[lead..])
  }

  /** `\d+(?:\.\d+)?` */
  function PlainMatch(s: string): (n: nat)
    ensures n <= |s|
  {
    if DigitRun(s) == 0 then 0 else DigitRun(s) + FractionRun(s[DigitRun(s)..])
  }

  /** The two alternatives in order, as a length; 0 where neither matches. */
  function NumberMatch(s: string): (n: nat)
    ensures n <= |s|
  {
    if GroupedMatch(s) > 0 then GroupedMatch(s) else PlainMatch(s)
  }

  /** `re.search`: the text of the leftmost match. */
  function FirstNumber(s: string): Option<string> {
    if s == "" then None
    else if NumberMatch(s) > 0 then Some(s[..NumberMatch(s)])
    else FirstNumber(s[1..])
  }

  /** A whole part and the digits after the point, as one number. */
  function Decimal(whole: nat, rest: nat, places: nat): real {
    whole as real + rest as real / Pow10(places) as real
  }

  function AsNumberFrom(raw: string, whole: nat): Option<real>
    requires whole <= |raw| && AllDigits(raw[..whole])
  {
    if whole == |raw| then Some(ValueOf(raw[..whole]) as real)
    else if raw[whole] == '.' && AllDigits(raw[whole + 1..]) then
      Some(Decimal(ValueOf(raw[..whole]), ValueOf(raw[whole + 1..]), |raw| - whole - 1))
    else None
  }

  /** `float` of digits with at most one point; `None` is its ValueError. */
  function AsNumber(raw: string): Option<real> {
    if raw == "" then None else AsNumberFrom(raw, DigitRun(raw))
  }

  /** What is searched: the text without currency symbols and unit words. */
  function Cleaned(text: string): string { DropUnits(Without(text, SYMBOLS)) }

  /** `parse_numeric_value`. */
  function ParseNumericValue(text: string): Option<real> {
    if Strip(text) == "" then None else
    var number := FirstNumber(Cleaned(text));
    if number.None? then None else AsNumber(Without(number.value, ","))
  }
}
