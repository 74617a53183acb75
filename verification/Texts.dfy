/** The string operations the evidence pipeline applies to raw text, and the
    word lists it consults.  The lists and word-boundary searches are a
    parameter (`Lexicon`): every theorem holds whatever phrases they contain. */
module Texts {
  import opened Options

  function LowerChar(c: char): char {
    if 'A' <= c <= 'Z' then (c as int + 32) as char else c
  }

  /** `str.lower` on ASCII letters. */
  function Lower(s: string): (r: string)
    ensures |r| == |s|
    ensures forall i :: 0 <= i < |s| ==> r[i] == LowerChar(s[i])
  {
    if s == "" then "" else [LowerChar(s[0])] + Lower(s[1..])
  }

  predicate IsSpace(c: char) {
    c == ' ' || c == '\t' || c == '\n' || c == '\r'
  }

  predicate NoSpaces(s: string) {
    forall i :: 0 <= i < |s| ==> !IsSpace(s[i])
  }

  function SkipSpaces(s: string): (r: string)
    ensures |r| <= |s|
  {
    if s != "" && IsSpace(s[0]) then SkipSpaces(s[1..]) else s
  }

  function DropTrailingSpaces(s: string): string {
    if s != "" && IsSpace(s[|s| - 1]) then DropTrailingSpaces(s[..|s| - 1]) else s
  }

  /** `str.strip`. */
  function Strip(s: string): string {
    DropTrailingSpaces(SkipSpaces(s))
  }

  /** `re.sub(r"\s+", " ", s)`. */
  function Collapse(s: string): string
    decreases |s|
  {
    if s == "" then ""
    else if IsSpace(s[0]) then " " + Collapse(SkipSpaces(s[1..]))
    else [s[0]] + Collapse(s[1..])
  }

  function Norm(s: string): string {
    Lower(Strip(Collapse(s)))
  }

  function NormOf(o: Option<string>): string {
    if o.Some? then Norm(o.value) else ""
  }

  predicate OccursAt(text: string, part: string, i: nat) {
    i + |part| <= |text| && text[i..i + |part|] == part
  }

  predicate Contains(text: string, part: string) {
    exists i :: 0 <= i <= |text| && OccursAt(text, part, i)
  }

  /** Python's truth test on an optional string. */
  predicate Truthy(o: Option<string>) {
    o.Some? && o.value != ""
  }

  datatype Temporal = IsCurrent | IsHistorical | IsForecast | Unspecified

  datatype Lexicon = Lexicon(
    negation: seq<string>,
    selfReport: seq<string>,
    universal: seq<string>,
    opposites: seq<(string, string)>,
    movesUp: string -> bool,
    movesDown: string -> bool,
    digits: string -> set<string>,
    numberWords: string -> set<string>,
    regions: string -> set<string>,
    temporal: string -> Temporal,
    relevant: (string, string) -> bool,
    namesCustomerOutcome: string -> bool,
    namesSupplierOutcome: string -> bool)

  /** `any(m in text.lower() for m in markers)`. */
  predicate Marked(markers: seq<string>, text: string) {
    exists k :: 0 <= k < |markers| && Contains(Lower(text), markers[k])
  }

  function AllNumbers(lex: Lexicon, text: string): set<string> {
    lex.digits(Lower(text)) + lex.numberWords(Lower(text))
  }

  datatype Direction = Up | Down

  /** Which way a text moves; texts with neither or both vocabularies are silent. */
  function DirectionOf(lex: Lexicon, text: string): Option<Direction> {
    if lex.movesUp(Lower(text)) && !lex.movesDown(Lower(text)) then Some(Up)
    else if lex.movesDown(Lower(text)) && !lex.movesUp(Lower(text)) then Some(Down)
    else None
  }

  /** Region keys are single words such as "north_america". */
  ghost predicate RegionKeysAreWords(lex: Lexicon) {
    forall text, r :: r in lex.regions(text) ==> NoSpaces(r)
  }

  /** Every phrase for a supplier's outcome contains the word itself. */
  ghost predicate SupplierPhrasesSaySupplier(lex: Lexicon) {
    forall text :: lex.namesSupplierOutcome(text) ==> Contains(Lower(text), "supplier")
  }

  // ----- two normal forms of a single word agree -----

  lemma {:induction false} SkipSpacesOfLower(s: string)
    ensures SkipSpaces(Lower(s)) == Lower(SkipSpaces(s))
  {
    if s != "" && IsSpace(s[0]) {
      assert Lower(s)[1..] == Lower(s[1..]);
      SkipSpacesOfLower(s[1..]);
    }
  }

  lemma {:induction false} LowerOfPrefix(s: string, n: nat)
    requires n <= |s|
    ensures Lower(s)[..n] == Lower(s[..n])
  {}

  lemma {:induction false} DropTrailingSpacesOfLower(s: string)
    ensures DropTrailingSpaces(Lower(s)) == Lower(DropTrailingSpaces(s))
  {
    if s != "" && IsSpace(s[|s| - 1]) {
      LowerOfPrefix(s, |s| - 1);
      DropTrailingSpacesOfLower(s[..|s| - 1]);
    }
  }

  lemma {:induction false} CollapseOfWord(word: string, tail: string)
    requires NoSpaces(word) && forall i :: 0 <= i < |tail| ==> IsSpace(tail[i])
    ensures Collapse(word + tail) == word + (if tail == "" then "" else " ")
  {
    if word == "" {
      assert word + tail == tail;
      if tail != "" { SkipAllSpaces(tail[1..]); }
    } else {
      assert (word + tail)[1..] == word[1..] + tail;
      CollapseOfWord(word[1..], tail);
      assert [word[0]] + (word[1..] + (if tail == "" then "" else " ")) == word + (if tail == "" then "" else " ");
    }
  }

  lemma {:induction false} SkipAllSpaces(s: string)
    requires forall i :: 0 <= i < |s| ==> IsSpace(s[i])
    ensures SkipSpaces(s) == ""
  {
    if s != "" { SkipAllSpaces(s[1..]); }
  }

  lemma {:induction false} TrailingPartIsSpaces(s: string)
    ensures |DropTrailingSpaces(s)| <= |s| && s[..|DropTrailingSpaces(s)|] == DropTrailingSpaces(s)
    ensures forall i :: |DropTrailingSpaces(s)| <= i < |s| ==> IsSpace(s[i])
  {
    if s != "" && IsSpace(s[|s| - 1]) { TrailingPartIsSpaces(s[..|s| - 1]); }
  }

  lemma StripOfPaddedWord(word: string, lead: string, tail: string)
    requires NoSpaces(word) && (lead == "" || lead == " ") && (tail == "" || tail == " ")
    ensures Strip(lead + word + tail) == word
  {
    var s := lead + word + tail;
    if word == "" {
      SkipAllSpaces(s);
    } else {
      assert s[|lead|..] == word + tail;
      assert SkipSpaces(word + tail) == word + tail;
      assert SkipSpaces(s) == word + tail;
      assert DropTrailingSpaces(word) == word;
      assert tail == " " ==> (word + tail)[..|word + tail| - 1] == word;
      assert tail == "" ==> word + tail == word;
    }
  }

  lemma {:induction false} StripSplits(s: string) returns (word: string, tail: string)
    ensures word == Strip(s) && SkipSpaces(s) == word + tail
    ensures forall i :: 0 <= i < |tail| ==> IsSpace(tail[i])
  {
    word := Strip(s);
    var body := SkipSpaces(s);
    TrailingPartIsSpaces(body);
    tail := body[|word|..];
  }

  lemma LowerKeepsSpaces(s: string)
    requires NoSpaces(Lower(s))
    ensures NoSpaces(s)
  {}

  lemma StripOfLower(s: string)
    ensures Strip(Lower(s)) == Lower(Strip(s))
  {
    SkipSpacesOfLower(s);
    DropTrailingSpacesOfLower(SkipSpaces(s));
  }

  /** Where `strip().lower()` leaves a single word, so does the whitespace-collapsing form. */
  lemma WordNormalFormsAgree(s: string)
    requires NoSpaces(Strip(Lower(s)))
    ensures Norm(s) == Strip(Lower(s))
  {
    StripOfLower(s);
    var word, tail := StripSplits(s);
    LowerKeepsSpaces(word);
    var lead := if SkipSpaces(s) == s then "" else " ";
    var trail := if tail == "" then "" else " ";
    CollapseSkips(s);
    CollapseOfWord(word, tail);
    assert Collapse(s) == lead + word + trail;
    StripOfPaddedWord(word, lead, trail);
  }

  lemma CollapseSkips(s: string)
    ensures Collapse(s) == (if SkipSpaces(s) == s then "" else " ") + Collapse(SkipSpaces(s))
  {}

  // ----- stripping -----

  lemma {:induction false} SkippedAreSpaces(s: string, k: nat)
    requires k < |s| - |SkipSpaces(s)|
    ensures IsSpace(s[k])
  {
    if k > 0 { SkippedAreSpaces(s[1..], k - 1); }
  }

  lemma {:induction false} SkippingLeavesSuffix(s: string)
    ensures SkipSpaces(s) == s[|s| - |SkipSpaces(s)|..]
  {
    if s != "" && IsSpace(s[0]) { SkippingLeavesSuffix(s[1..]); }
  }

  lemma {:induction false} NotBlank(s: string, k: nat)
    requires k < |s| && !IsSpace(s[k])
    ensures Strip(s) != ""
  {
    if IsSpace(s[0]) {
      NotBlank(s[1..], k - 1);
      assert Strip(s) == Strip(s[1..]);
    } else {
      FirstIsKept(s);
    }
  }

  lemma {:induction false} FirstIsKept(s: string)
    requires s != "" && !IsSpace(s[0])
    ensures DropTrailingSpaces(s) != ""
  {
    if IsSpace(s[|s| - 1]) { FirstIsKept(s[..|s| - 1]); }
  }

  lemma {:induction false} SkippingStopsAtWord(s: string)
    ensures SkipSpaces(s) != "" ==> !IsSpace(SkipSpaces(s)[0])
  {
    if s != "" && IsSpace(s[0]) { SkippingStopsAtWord(s[1..]); }
  }

  lemma {:induction false} DroppingStopsAtWord(s: string)
    ensures DropTrailingSpaces(s) != "" ==> !IsSpace(DropTrailingSpaces(s)[|DropTrailingSpaces(s)| - 1])
  {
    if s != "" && IsSpace(s[|s| - 1]) { DroppingStopsAtWord(s[..|s| - 1]); }
  }

  /** What stripping leaves has no space at either end. */
  lemma StrippedHasNoOuterSpaces(s: string)
    ensures Strip(s) != "" ==> !IsSpace(Strip(s)[0]) && !IsSpace(Strip(s)[|Strip(s)| - 1])
  {
    SkippingStopsAtWord(s);
    DroppingStopsAtWord(SkipSpaces(s));
    TrailingPartIsSpaces(SkipSpaces(s));
  }

  function NonSpaces(s: string): string {
    if s == "" then "" else if IsSpace(s[0]) then NonSpaces(s[1..]) else [s[0]] + NonSpaces(s[1..])
  }

  lemma {:induction false} SkippingKeepsWords(s: string)
    ensures NonSpaces(SkipSpaces(s)) == NonSpaces(s)
  {
    if s != "" && IsSpace(s[0]) { SkippingKeepsWords(s[1..]); }
  }

  /** Collapsing changes only white space: each stretch becomes one blank. */
  lemma {:induction false} CollapsedIs(s: string)
    ensures NonSpaces(Collapse(s)) == NonSpaces(s)
    ensures forall i :: 0 <= i < |Collapse(s)| && IsSpace(Collapse(s)[i]) ==>
              Collapse(s)[i] == ' ' && (i > 0 ==> !IsSpace(Collapse(s)[i - 1]))
    ensures Collapse(s) != "" && IsSpace(Collapse(s)[0]) ==> s != "" && IsSpace(s[0])
    decreases |s|
  {
    if s != "" {
      if IsSpace(s[0]) {
        var rest := SkipSpaces(s[1..]);
        SkippingKeepsWords(s[1..]);
        SkippingStopsAtWord(s[1..]);
        CollapsedIs(rest);
        assert (" " + Collapse(rest))[1..] == Collapse(rest);
      } else {
        CollapsedIs(s[1..]);
        assert ([s[0]] + Collapse(s[1..]))[1..] == Collapse(s[1..]);
      }
    }
  }
}
