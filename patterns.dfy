/**
 * The fixed-width regular expressions the loaders and parsers search for contract numbers:
 * `DA\d{5}` (optionally case-insensitive), `\d{8}` and `\b\d{8}\b`. `re.search` finds the
 * leftmost match; a pattern without alternatives or repetition of variable length matches at
 * exactly the positions listed here. Digits and word characters are ASCII.
 */
module Patterns {
  import opened Wrappers
  import Text

  /** A character `\w` matches: a letter, a digit or the underscore. */
  predicate IsWordChar(c: char) {
    Text.IsLetter(c) || Text.IsDigit(c) || c == '_'
  }

  datatype Pattern =
    | Da(ignoreCase: bool)   // `DA\d{5}`, with or without re.IGNORECASE
    | Eight                  // `\d{8}`
    | BoundedEight           // `\b\d{8}\b`

  function Width(p: Pattern): nat {
    if p.Da? then 7 else 8
  }

  /** `c` matches the pattern letter `upper`, in either case when `ignoreCase` is set. */
  predicate LetterMatches(c: char, upper: char, ignoreCase: bool) {
    c == upper || (ignoreCase && Text.UpperChar(c) == upper)
  }

  /** The pattern matches the text starting at position `i`. */
  predicate MatchesAt(p: Pattern, s: string, i: nat) {
    i + Width(p) <= |s| &&
    match p
    case Da(ignoreCase) =>
      LetterMatches(s[i], 'D', ignoreCase) && LetterMatches(s[i + 1], 'A', ignoreCase)
      && Text.AllDigits(s[i + 2..i + 7])
    case Eight => Text.AllDigits(s[i..i + 8])
    case BoundedEight =>
      Text.AllDigits(s[i..i + 8])
      && (i == 0 || !IsWordChar(s[i - 1]))
      && (i + 8 == |s| || !IsWordChar(s[i + 8]))
  }

  /** The leftmost match position at or after `from`. */
  function FirstFrom(p: Pattern, s: string, from: nat): (r: Option<nat>)
    requires from <= |s|
    ensures r.Some? ==> from <= r.value && MatchesAt(p, s, r.value)
    ensures r.Some? ==> forall j: nat :: from <= j < r.value ==> !MatchesAt(p, s, j)
    ensures r.None? ==> forall j: nat :: from <= j ==> !MatchesAt(p, s, j)
    decreases |s| - from
  {
    if MatchesAt(p, s, from) then Some(from)
    else if from == |s| then None
    else FirstFrom(p, s, from + 1)
  }

  /** `re.search(pattern, s)`, giving the matched text (the pattern's only group). */
  function Search(p: Pattern, s: string): (r: Option<string>)
    ensures r.None? <==> forall j: nat :: !MatchesAt(p, s, j)
    ensures r.Some? ==> exists i: nat :: MatchesAt(p, s, i) && r.value == s[i..i + Width(p)]
                                        && forall j: nat :: j < i ==> !MatchesAt(p, s, j)
  {
    match FirstFrom(p, s, 0)
    case None => None
    case Some(i) => Some(s[i..i + Width(p)])
  }

  /**
   * The `for pattern in [p, q]: ... return match.group(1)` loop: the match of `p` when there is
   * one, else the match of `q`.
   */
  function SearchEither(p: Pattern, q: Pattern, s: string): (r: Option<string>)
    ensures r.None? <==> Search(p, s).None? && Search(q, s).None?
    ensures Search(p, s).Some? ==> r == Search(p, s)
  {
    if Search(p, s).Some? then Search(p, s) else Search(q, s)
  }

  /** A match of `DA\d{5}` reads "DA" (in some case) and five digits. */
  lemma DaShape(ignoreCase: bool, s: string)
    requires Search(Da(ignoreCase), s).Some?
    ensures var m := Search(Da(ignoreCase), s).value;
      |m| == 7 && Text.UpperChar(m[0]) == 'D' && Text.UpperChar(m[1]) == 'A' && Text.AllDigits(m[2..])
  {
    var i := FirstFrom(Da(ignoreCase), s, 0).value;
    var m := s[i..i + 7];
    assert m[2..] == s[i + 2..i + 7];
  }

  /** Every match of an eight-digit pattern is eight digits. */
  lemma EightShape(p: Pattern, s: string)
    requires !p.Da? && Search(p, s).Some?
    ensures |Search(p, s).value| == 8 && Text.AllDigits(Search(p, s).value)
  {
  }

  /** A match at the start of the text is the one `re.search` finds. */
  lemma SearchAtStart(p: Pattern, s: string)
    requires MatchesAt(p, s, 0)
    ensures Search(p, s) == Some(s[..Width(p)])
  {
  }

  /** A text that has a `\b\d{8}\b` match has a `\d{8}` match as early or earlier. */
  lemma BoundedIsEight(s: string, i: nat)
    requires MatchesAt(BoundedEight, s, i)
    ensures Search(Eight, s).Some?
  {
    assert MatchesAt(Eight, s, i);
  }
}
