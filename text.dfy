/**
 * Python string operations used by the processing core, on `seq<char>`.
 * Whitespace follows Python's `str.isspace()`; case mapping is ASCII only.
 */
module Text {
  import opened Wrappers

  /** Python's `str.isspace()` for one character (the characters `str.strip()`, `str.split()` and `\s` treat as blank). */
  predicate IsSpace(c: char) {
    c == ' ' || c == '\t' || c == '\n' || c == '\r' || c == '\U{000B}' || c == '\U{000C}'
    || ('\U{001C}' <= c <= '\U{001F}') || c == '\U{0085}' || c == '\U{00A0}' || c == '\U{1680}'
    || ('\U{2000}' <= c <= '\U{200A}') || c == '\U{2028}' || c == '\U{2029}' || c == '\U{202F}'
    || c == '\U{205F}' || c == '\U{3000}'
  }

  /** `s.strip() == ""` */
  predicate IsBlank(s: string) {
    forall i :: 0 <= i < |s| ==> IsSpace(s[i])
  }

  function LStrip(s: string): (r: string)
    ensures |r| <= |s| && r == s[|s| - |r|..]
    ensures r == [] || !IsSpace(r[0])
    ensures forall i :: 0 <= i < |s| - |r| ==> IsSpace(s[i])
  {
    if s != [] && IsSpace(s[0]) then LStrip(s[1..]) else s
  }

  function RStrip(s: string): (r: string)
    ensures |r| <= |s| && r == s[..|r|]
    ensures r == [] || !IsSpace(r[|r| - 1])
    ensures forall i :: |r| <= i < |s| ==> IsSpace(s[i])
  {
    if s != [] && IsSpace(s[|s| - 1]) then RStrip(s[..|s| - 1]) else s
  }

  /** Python's `s.strip()`: the result is blank-free at both ends and empty exactly for blank input. */
  function Strip(s: string): (r: string)
    ensures |r| <= |s|
    ensures r == [] || (!IsSpace(r[0]) && !IsSpace(r[|r| - 1]))
    ensures r == [] <==> IsBlank(s)
  {
    var l := LStrip(s);
    var r := RStrip(l);
    assert r == [] ==> l == [];
    assert r != [] ==> !IsBlank(s) by {
      if r != [] {
        assert s[|s| - |l|] == r[0];
      }
    }
    r
  }

  /** Strips every trailing `c`, as Python's `s.rstrip(c)` does for a one-character argument. */
  function RStripChar(s: string, c: char): (r: string)
    ensures |r| <= |s| && r == s[..|r|]
    ensures r == [] || r[|r| - 1] != c
    ensures forall i :: |r| <= i < |s| ==> s[i] == c
  {
    if s != [] && s[|s| - 1] == c then RStripChar(s[..|s| - 1], c) else s
  }

  function LowerChar(c: char): char {
    if 'A' <= c <= 'Z' then (c as int + 32) as char else c
  }

  function UpperChar(c: char): char {
    if 'a' <= c <= 'z' then (c as int - 32) as char else c
  }

  predicate IsLetter(c: char) {
    'A' <= c <= 'Z' || 'a' <= c <= 'z'
  }

  /** Python's `s.lower()` on ASCII letters. */
  function Lower(s: string): string {
    seq(|s|, i requires 0 <= i < |s| => LowerChar(s[i]))
  }

  /** Python's `s.upper()` on ASCII letters. */
  function Upper(s: string): string {
    seq(|s|, i requires 0 <= i < |s| => UpperChar(s[i]))
  }

  /** Python's `s.title()` on ASCII letters: a letter is capitalised exactly when the character before it is not a letter. */
  function Title(s: string): string {
    seq(|s|, i requires 0 <= i < |s| =>
      if i > 0 && IsLetter(s[i - 1]) then LowerChar(s[i]) else UpperChar(s[i]))
  }

  predicate IsDigit(c: char) {
    '0' <= c <= '9'
  }

  predicate AllDigits(s: string) {
    forall i :: 0 <= i < |s| ==> IsDigit(s[i])
  }

  /** Python's `s.isdigit()` on ASCII digits: non-empty and digits only. */
  predicate IsDigitString(s: string) {
    s != [] && AllDigits(s)
  }

  predicate OccursAt(s: string, sub: string, i: int) {
    0 <= i && i + |sub| <= |s| && s[i..i + |sub|] == sub
  }

  /** The first index at or after `from` where `sub` occurs in `s`. */
  function FindFrom(s: string, sub: string, from: nat): (r: Option<nat>)
    requires from <= |s|
    ensures r.Some? ==> from <= r.value && OccursAt(s, sub, r.value)
    ensures r.Some? ==> forall j :: from <= j < r.value ==> !OccursAt(s, sub, j)
    ensures r.None? ==> forall j :: from <= j ==> !OccursAt(s, sub, j)
    decreases |s| - from
  {
    if OccursAt(s, sub, from) then Some(from)
    else if from == |s| then None
    else FindFrom(s, sub, from + 1)
  }

  /** The first index where `sub` occurs in `s` (Python's `s.find(sub)`, with None for -1). */
  function Find(s: string, sub: string): (r: Option<nat>)
    ensures r.Some? ==> OccursAt(s, sub, r.value) && forall j :: 0 <= j < r.value ==> !OccursAt(s, sub, j)
    ensures r.None? <==> forall j :: !OccursAt(s, sub, j)
  {
    FindFrom(s, sub, 0)
  }

  /** Python's `sub in s`. */
  predicate Contains(s: string, sub: string) {
    Find(s, sub).Some?
  }

  predicate StartsWith(s: string, p: string) {
    |p| <= |s| && s[..|p|] == p
  }

  predicate EndsWith(s: string, p: string) {
    |p| <= |s| && s[|s| - |p|..] == p
  }

  /** Python's `s.split(sep)[0]`: the text before the first `sep`, or all of `s`. */
  function Before(s: string, sep: string): (r: string)
    ensures StartsWith(s, r)
    ensures !Contains(s, sep) ==> r == s
  {
    match Find(s, sep)
    case Some(i) => s[..i]
    case None => s
  }

  /** Python's `s.split(sep)[1:]` rejoined: the text after the first `sep`, when there is one. */
  function After(s: string, sep: string): (r: string)
    requires Contains(s, sep)
    ensures EndsWith(s, r) && |r| + |sep| <= |s|
  {
    var i := Find(s, sep).value;
    s[i + |sep|..]
  }

  predicate IsLineBreak(c: char) {
    c == '\n' || c == '\r' || c == '\U{000B}' || c == '\U{000C}' || c == '\U{001C}' || c == '\U{001D}'
    || c == '\U{001E}' || c == '\U{0085}' || c == '\U{2028}' || c == '\U{2029}'
  }

  /** The index of the first line-break character of `s`, if any. */
  function FirstBreak(s: string): (r: Option<nat>)
    ensures r.Some? ==> r.value < |s| && IsLineBreak(s[r.value])
    ensures r.Some? ==> forall j :: 0 <= j < r.value ==> !IsLineBreak(s[j])
    ensures r.None? ==> forall j :: 0 <= j < |s| ==> !IsLineBreak(s[j])
  {
    if s == [] then None
    else if IsLineBreak(s[0]) then Some(0)
    else match FirstBreak(s[1..])
      case Some(i) => Some(i + 1)
      case None => None
  }

  /** Python's `s.splitlines()`: the lines between line breaks, "\r\n" counting as one break. */
  function SplitLines(s: string): (r: seq<string>)
    ensures forall k, j :: 0 <= k < |r| && 0 <= j < |r[k]| ==> !IsLineBreak(r[k][j])
    decreases |s|
  {
    match FirstBreak(s)
    case None => if s == [] then [] else [s]
    case Some(i) =>
      var skip := if s[i] == '\r' && i + 1 < |s| && s[i + 1] == '\n' then 2 else 1;
      [s[..i]] + SplitLines(s[i + skip..])
  }

  /** A word: no blank character in it. */
  predicate NoSpace(w: string) {
    forall j :: 0 <= j < |w| ==> !IsSpace(w[j])
  }

  /** The longest prefix of `s` without a blank character. */
  function Word(s: string): (r: string)
    ensures |r| <= |s| && StartsWith(s, r) && NoSpace(r)
    ensures |r| < |s| ==> IsSpace(s[|r|])
    ensures s != [] && !IsSpace(s[0]) ==> r != []
  {
    if s == [] || IsSpace(s[0]) then [] else [s[0]] + Word(s[1..])
  }

  /** Python's `s.split()`: the maximal runs of non-blank characters, in order. */
  function SplitWs(s: string): (r: seq<string>)
    ensures forall k :: 0 <= k < |r| ==> r[k] != [] && NoSpace(r[k])
    decreases |s|
  {
    if s == [] then []
    else if IsSpace(s[0]) then SplitWs(s[1..])
    else
      var w := Word(s);
      [w] + SplitWs(s[|w|..])
  }

  /** Python's `sep.join(parts)`. */
  function Join(sep: string, parts: seq<string>): string {
    if parts == [] then ""
    else if |parts| == 1 then parts[0]
    else parts[0] + sep + Join(sep, parts[1..])
  }

  /** The pieces of `s` between the `/` separators. */
  function SplitSlash(s: string): (r: seq<string>)
    ensures forall k :: 0 <= k < |r| ==> '/' !in r[k]
    decreases |s|
  {
    match Find(s, "/")
    case None =>
      assert '/' !in s by {
        forall j | 0 <= j < |s| ensures s[j] != '/' {
          assert !OccursAt(s, "/", j);
        }
      }
      [s]
    case Some(i) =>
      assert '/' !in s[..i] by {
        forall j | 0 <= j < i ensures s[j] != '/' {
          assert !OccursAt(s, "/", j);
        }
      }
      [s[..i]] + SplitSlash(s[i + 1..])
  }

  /** The path components that pathlib keeps: empty and "." pieces are dropped. */
  function PathParts(parts: seq<string>): (r: seq<string>)
    ensures forall k :: 0 <= k < |r| ==> r[k] in parts && r[k] != "" && r[k] != "."
  {
    if parts == [] then []
    else if parts[0] == "" || parts[0] == "." then PathParts(parts[1..])
    else [parts[0]] + PathParts(parts[1..])
  }

  /** `pathlib.PurePosixPath(p).name`: the last kept component of the path, or "" when there is none. */
  function Basename(p: string): (r: string)
    ensures '/' !in r && r != "."
  {
    var parts := PathParts(SplitSlash(p));
    if parts == [] then "" else parts[|parts| - 1]
  }

  function DigitsValue(s: string): nat
    requires AllDigits(s)
  {
    if s == [] then 0 else DigitsValue(s[..|s| - 1]) * 10 + (s[|s| - 1] as int - '0' as int)
  }

  /** An optional leading sign, split off: (negative?, rest). */
  function SplitSign(t: string): (bool, string) {
    if t != [] && (t[0] == '-' || t[0] == '+') then (t[0] == '-', t[1..]) else (false, t)
  }

  /**
   * Python's `int(s)` for decimal text: surrounding whitespace, an optional sign and at least
   * one digit. None stands for the ValueError.
   */
  function ParseInt(s: string): (r: Option<int>)
    ensures IsDigitString(s) ==> r == Some(DigitsValue(s))
  {
    var (neg, body) := SplitSign(Strip(s));
    if IsDigitString(s) then
      assert Strip(s) == s by { StripNoSpace(s); }
      Some(DigitsValue(s))
    else if IsDigitString(body) then
      var v: int := DigitsValue(body);
      Some(if neg then -v else v)
    else None
  }

  lemma StripNoSpace(s: string)
    requires forall i :: 0 <= i < |s| ==> !IsSpace(s[i])
    ensures Strip(s) == s
  {
  }

  /** `sub` at index `j` of `a`, and `a` at index `i` of `s`, put `sub` at `i + j` of `s`. */
  lemma OccursAtShift(s: string, a: string, sub: string, i: nat, j: nat)
    requires OccursAt(s, a, i) && OccursAt(a, sub, j)
    ensures OccursAt(s, sub, i + j)
  {
    forall k | i + j <= k < i + j + |sub| ensures s[k] == sub[k - i - j] {
      assert s[i..i + |a|][k - i] == s[k];
      assert a[j..j + |sub|][k - i - j] == a[k - i];
    }
    assert s[i + j..i + j + |sub|] == sub;
  }

  /** Containment is transitive: a text containing `a` contains everything `a` contains. */
  lemma ContainsTrans(s: string, a: string, sub: string)
    requires Contains(s, a) && Contains(a, sub)
    ensures Contains(s, sub)
  {
    OccursAtShift(s, a, sub, Find(s, a).value, Find(a, sub).value);
  }

  /** A text contains itself. */
  lemma ContainsSelf(s: string)
    ensures Contains(s, s)
  {
    assert OccursAt(s, s, 0);
  }

  /** Python's `str(n)` for a natural number. */
  function NatToString(n: nat): (r: string)
    ensures IsDigitString(r)
  {
    var d := [('0' as int + n % 10) as char];
    if n < 10 then d else NatToString(n / 10) + d
  }

  /** `int(str(n)) == n`. */
  lemma {:induction false} NatToStringValue(n: nat)
    ensures DigitsValue(NatToString(n)) == n
  {
    var s := NatToString(n);
    if n >= 10 {
      NatToStringValue(n / 10);
      assert s[..|s| - 1] == NatToString(n / 10);
    }
  }

  /** Python's `str(i)` for an integer. */
  function IntToString(i: int): string {
    if i >= 0 then NatToString(i) else "-" + NatToString(-i)
  }

  /** `int(str(i)) == i`. */
  lemma IntToStringValue(i: int)
    ensures ParseInt(IntToString(i)) == Some(i)
  {
    if i >= 0 {
      NatToStringValue(i);
      StripNoSpace(NatToString(i));
    } else {
      NegativeText(-i);
    }
  }

  /** A minus sign before the digits of `n` parses to `-n`. */
  lemma NegativeText(n: nat)
    ensures ParseInt("-" + NatToString(n)) == Some(-(n as int))
  {
    var body := NatToString(n);
    NatToStringValue(n);
    assert !IsDigitString("-" + body) by { assert !IsDigit(("-" + body)[0]); }
    assert SplitSign("-" + body) == (true, body);
    assert Strip("-" + body) == "-" + body by { StripNoSpace("-" + body); }
  }

  /** An occurrence with none before it is the one `Find` reports. */
  lemma FindAt(s: string, sub: string, i: nat)
    requires OccursAt(s, sub, i) && forall j :: 0 <= j < i ==> !OccursAt(s, sub, j)
    ensures Find(s, sub) == Some(i)
  {
  }

  /** When the separator's first character is not in `pre`, the first separator of `pre + sep + rest` ends `pre`. */
  lemma SplitAtFirst(pre: string, sep: string, rest: string)
    requires sep != [] && sep[0] !in pre
    ensures Find(pre + sep + rest, sep) == Some(|pre|)
    ensures Before(pre + sep + rest, sep) == pre
    ensures Contains(pre + sep + rest, sep) && After(pre + sep + rest, sep) == rest
  {
    var s := pre + sep + rest;
    assert s[|pre|..|pre| + |sep|] == sep;
    forall j | 0 <= j < |pre| ensures !OccursAt(s, sep, j) {
      assert s[j] == pre[j] != sep[0];
      assert j + |sep| <= |s| ==> s[j..j + |sep|][0] == s[j];
    }
    FindAt(s, sep, |pre|);
    assert s[..|pre|] == pre;
    assert s[|pre| + |sep|..] == rest;
  }

  /** `b` occurs in `a + b + c`. */
  lemma ContainsMiddle(a: string, b: string, c: string)
    ensures Contains(a + b + c, b)
  {
    assert (a + b + c)[|a|..|a| + |b|] == b;
    assert OccursAt(a + b + c, b, |a|);
  }

  /** What a slice contains, the whole text contains. */
  lemma SliceContains(s: string, lo: nat, hi: nat, sub: string)
    requires lo <= hi <= |s| && Contains(s[lo..hi], sub)
    ensures Contains(s, sub)
  {
    assert s[lo..lo + |s[lo..hi]|] == s[lo..hi];
    OccursAtShift(s, s[lo..hi], sub, lo, Find(s[lo..hi], sub).value);
  }

  /** The text before the first separator holds no separator. */
  lemma BeforeHasNoSep(s: string, sep: string)
    requires sep != []
    ensures !Contains(Before(s, sep), sep)
  {
    var b := Before(s, sep);
    if Contains(b, sep) {
      var j := Find(b, sep).value;
      assert b[j..j + |sep|] == s[j..j + |sep|];
      assert OccursAt(s, sep, j);
    }
  }

  /** Stripping never creates an occurrence. */
  lemma StripKeepsAbsence(s: string, sub: string)
    requires !Contains(s, sub)
    ensures !Contains(Strip(s), sub)
  {
    var l := LStrip(s);
    SliceKeepsAbsence(s, |s| - |l|, |s|, sub);
    assert s[|s| - |l|..|s|] == l;
    SliceKeepsAbsence(l, 0, |RStrip(l)|, sub);
    assert Strip(s) == RStrip(l);
  }

  /** A slice of a text without `sub` has none either. */
  lemma SliceKeepsAbsence(s: string, lo: nat, hi: nat, sub: string)
    requires lo <= hi <= |s| && !Contains(s, sub)
    ensures !Contains(s[lo..hi], sub)
  {
    if Contains(s[lo..hi], sub) {
      SliceContains(s, lo, hi, sub);
    }
  }

  /** Python's `s.split(sep)[-1]` for a one-character separator: the text after the last `sep`. */
  function LastSegment(s: string, sep: char): (r: string)
    ensures sep !in r && EndsWith(s, r)
    ensures |r| < |s| ==> s[|s| - |r| - 1] == sep
    ensures sep !in s ==> r == s
  {
    if s == [] then []
    else if s[|s| - 1] == sep then []
    else
      var r := LastSegment(s[..|s| - 1], sep) + [s[|s| - 1]];
      assert s[|s| - |r|..] == s[..|s| - 1][|s| - |r|..] + [s[|s| - 1]];
      r
  }

  /** A text without uppercase letters is its own lowercase. */
  lemma LowerNoUpper(s: string)
    requires forall i :: 0 <= i < |s| ==> !('A' <= s[i] <= 'Z')
    ensures Lower(s) == s
  {
  }

  /** Lowercasing distributes over concatenation. */
  lemma LowerConcat(a: string, b: string)
    ensures Lower(a + b) == Lower(a) + Lower(b)
  {
  }

  /** A text lacking one of the characters of `sub` does not contain `sub`. */
  lemma AbsentChar(s: string, sub: string, k: nat)
    requires k < |sub| && sub[k] !in s
    ensures !Contains(s, sub)
  {
    forall j | 0 <= j && j + |sub| <= |s| ensures !OccursAt(s, sub, j) {
      assert s[j..j + |sub|][k] == s[j + k];
    }
  }

  /** A name without '/' that is neither empty nor "." is its own last path component. */
  lemma BasenamePlain(s: string)
    requires '/' !in s && s != "" && s != "."
    ensures Basename(s) == s
  {
    assert Find(s, "/").None? by {
      AbsentChar(s, "/", 0);
    }
    assert SplitSlash(s) == [s];
  }

  /** Suffixes keep what they contain and how they end. */
  lemma ContainsInSuffix(a: string, b: string, sub: string)
    requires Contains(b, sub)
    ensures Contains(a + b, sub)
  {
    assert (a + b)[|a|..|a + b|] == b;
    SliceContains(a + b, |a|, |a + b|, sub);
  }

  /** A text contains its own prefix. */
  lemma PrefixContained(a: string, b: string)
    ensures Contains(a + b, a)
  {
    assert (a + b)[0..|a|] == a;
    assert OccursAt(a + b, a, 0);
  }

  /** A text starts with each of its prefixes' characters. */
  lemma PrefixChars(s: string, p: string)
    ensures StartsWith(s, p) ==> forall k :: 0 <= k < |p| ==> p[k] in s
  {
    if StartsWith(s, p) {
      forall k | 0 <= k < |p| ensures p[k] in s {
        assert s[..|p|][k] == s[k];
      }
    }
  }

  /** A concatenation starts with its first part and ends with its last. */
  lemma ConcatEnds(a: string, b: string)
    ensures StartsWith(a + b, a) && EndsWith(a + b, b)
  {
    assert (a + b)[..|a|] == a;
    assert (a + b)[|a + b| - |b|..] == b;
  }

  /** Python's `s.split(c)` for one character: the pieces between the occurrences of `c`. */
  function SplitChar(s: string, c: char): (r: seq<string>)
    ensures |r| >= 1
    decreases |s|
  {
    match Find(s, [c])
    case None => [s]
    case Some(i) => [s[..i]] + SplitChar(s[i + 1..], c)
  }

  /** Splitting a join on its one-character separator gives back the parts, when none contains it. */
  lemma {:induction false} SplitJoin(parts: seq<string>, c: char)
    requires parts != [] && forall k :: 0 <= k < |parts| ==> c !in parts[k]
    ensures SplitChar(Join([c], parts), c) == parts
  {
    if |parts| == 1 {
      AbsentChar(parts[0], [c], 0);
    } else {
      var rest := Join([c], parts[1..]);
      SplitAtFirst(parts[0], [c], rest);
      var s := parts[0] + [c] + rest;
      assert s[..|parts[0]|] == parts[0] && s[|parts[0]| + 1..] == rest;
      SplitJoin(parts[1..], c);
    }
  }

  /** A concatenation ends the way its last part ends. */
  lemma EndsWithSuffix(a: string, b: string, t: string)
    requires EndsWith(b, t)
    ensures EndsWith(a + b, t)
  {
    assert (a + b)[|a + b| - |t|..] == b[|b| - |t|..];
  }

  /** A text that does not start or end with whitespace is its own strip. */
  lemma StripTrimmed(s: string)
    requires s == [] || (!IsSpace(s[0]) && !IsSpace(s[|s| - 1]))
    ensures Strip(s) == s
  {
  }

  /** Uppercasing never turns a character into whitespace. */
  lemma UpperKeepsEnds(s: string)
    requires s == [] || (!IsSpace(s[0]) && !IsSpace(s[|s| - 1]))
    ensures var u := Upper(s); u == [] || (!IsSpace(u[0]) && !IsSpace(u[|u| - 1]))
  {
  }

  /** Uppercasing twice is uppercasing once. */
  lemma UpperTwice(s: string)
    ensures Upper(Upper(s)) == Upper(s)
  {
  }

  /** One space on each side of a trimmed text is stripped away. */
  lemma StripPadded(p: string)
    requires |p| >= 3 && p[0] == ' ' && p[|p| - 1] == ' ' && !IsSpace(p[1]) && !IsSpace(p[|p| - 2])
    ensures Strip(p) == p[1..|p| - 1]
  {
    assert LStrip(p) == p[1..];
    assert p[1..][..|p| - 2] == p[1..|p| - 1];
    assert RStrip(p[1..]) == p[1..|p| - 1];
  }

  /** Stripping and uppercasing a text that is already stripped and uppercased changes nothing. */
  lemma UpperStripFixed(x: string)
    ensures var u := Upper(Strip(x)); Upper(Strip(u)) == u
  {
    var t := Strip(x);
    UpperKeepsEnds(t);
    StripTrimmed(Upper(t));
    UpperTwice(t);
  }

  /** What one of the joined parts contains, the join contains. */
  lemma {:induction false} JoinContainsPart(sep: string, parts: seq<string>, i: nat, sub: string)
    requires i < |parts| && Contains(parts[i], sub)
    ensures Contains(Join(sep, parts), sub)
    decreases i
  {
    if |parts| == 1 {
    } else if i == 0 {
      var rest := sep + Join(sep, parts[1..]);
      assert Join(sep, parts) == parts[0] + rest;
      ConcatEnds(parts[0], rest);
      assert OccursAt(Join(sep, parts), parts[0], 0);
      ContainsTrans(Join(sep, parts), parts[0], sub);
    } else {
      JoinContainsPart(sep, parts[1..], i - 1, sub);
      ContainsInSuffix(parts[0] + sep, Join(sep, parts[1..]), sub);
      assert Join(sep, parts) == parts[0] + sep + Join(sep, parts[1..]);
    }
  }

  /** Joining non-empty parts starts with the first part's first character and ends with the last part's last. */
  lemma {:induction false} JoinEnds(sep: string, parts: seq<string>)
    requires parts != [] && forall k :: 0 <= k < |parts| ==> parts[k] != []
    ensures var j := Join(sep, parts);
      j != [] && j[0] == parts[0][0] && j[|j| - 1] == parts[|parts| - 1][|parts[|parts| - 1]| - 1]
  {
    if |parts| > 1 {
      JoinEnds(sep, parts[1..]);
      assert parts[1..][|parts[1..]| - 1] == parts[|parts| - 1];
    }
  }
  /** `lstrip` removes exactly a blank prefix in front of a text that does not start blank. */
  lemma {:induction false} LStripBlankPrefix(pre: string, x: string)
    requires IsBlank(pre) && (x == [] || !IsSpace(x[0]))
    ensures LStrip(pre + x) == x
    decreases |pre|
  {
    if pre == [] {
      assert pre + x == x;
    } else {
      assert (pre + x)[1..] == pre[1..] + x;
      LStripBlankPrefix(pre[1..], x);
    }
  }

  /** `rstrip` removes exactly a blank suffix behind a text that does not end blank. */
  lemma {:induction false} RStripBlankSuffix(x: string, post: string)
    requires IsBlank(post) && (x == [] || !IsSpace(x[|x| - 1]))
    ensures RStrip(x + post) == x
    decreases |post|
  {
    if post == [] {
      assert x + post == x;
    } else {
      assert (x + post)[..|x + post| - 1] == x + post[..|post| - 1];
      RStripBlankSuffix(x, post[..|post| - 1]);
    }
  }

  /** Blank padding on both sides of a trimmed text is what `strip` removes. */
  lemma StripAround(pre: string, x: string, post: string)
    requires IsBlank(pre) && IsBlank(post)
    requires x == [] || (!IsSpace(x[0]) && !IsSpace(x[|x| - 1]))
    ensures Strip(pre + x + post) == x
  {
    if x == [] {
      assert pre + x + post == pre + post;
      assert IsBlank(pre + post) by {
        forall i | 0 <= i < |pre + post| ensures IsSpace((pre + post)[i]) {
          if i >= |pre| {
            assert (pre + post)[i] == post[i - |pre|];
          }
        }
      }
    } else {
      assert pre + x + post == pre + (x + post);
      LStripBlankPrefix(pre, x + post);
      RStripBlankSuffix(x, post);
    }
  }

  /** A word followed by a blank (or nothing) is the first word of the text. */
  lemma {:induction false} WordBeforeBlank(w: string, rest: string)
    requires NoSpace(w) && (rest == [] || IsSpace(rest[0]))
    ensures Word(w + rest) == w
    decreases |w|
  {
    if w == [] {
      assert w + rest == rest;
    } else {
      assert (w + rest)[1..] == w[1..] + rest;
      WordBeforeBlank(w[1..], rest);
    }
  }

  /** Splitting words joined by single spaces gives the words back. */
  lemma {:induction false} SplitJoinedWords(ws: seq<string>)
    requires forall k :: 0 <= k < |ws| ==> ws[k] != [] && NoSpace(ws[k])
    ensures SplitWs(Join(" ", ws)) == ws
  {
    if |ws| == 1 {
      WordBeforeBlank(ws[0], []);
      assert ws[0] + [] == ws[0];
      assert ws[0][|ws[0]|..] == [];
    } else if |ws| > 1 {
      var w := ws[0];
      var tail := Join(" ", ws[1..]);
      var rest := " " + tail;
      assert Join(" ", ws) == w + rest;
      WordBeforeBlank(w, rest);
      assert (w + rest)[|w|..] == rest;
      assert rest[1..] == tail;
      SplitJoinedWords(ws[1..]);
      assert SplitWs(w + rest) == [w] + SplitWs(rest);
    }
  }
}
