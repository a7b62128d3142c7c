/**
 * The "bids as read" parser. Its text comes from the first of three PDF readers (pypdf,
 * pdfplumber, PyMuPDF) that gives something non-blank; the contract number is searched in that
 * text and then in the file name; each normalised line that is neither blank nor a header yields
 * at most one bidder, from the first of two line patterns whose groups pass the group tests; ranks the
 * line does not give are filled with the bidder's 1-based position.
 *
 * The readers and the two bidder patterns are abstract: a reader gives each page's text or
 * raises, and a pattern gives its named groups for a line or no match. Python's `float()` is a
 * parameter as well.
 */
module BidsAsRead {
  import opened Wrappers
  import Text
  import Patterns
  import BaseExtractor
  import BidTabs

  // ---------------------------------------------------------------------------------------------
  // Text from the first reader that gives something

  /** What a reader gives for the document: each page's text (None when it has none), or an exception. */
  type PageTexts = Result<seq<Option<string>>>

  /** `self.extract_text() or ""`, with an exception giving "". */
  function PypdfText(doc: BaseExtractor.Document): (r: string)
    ensures doc.Unreadable? ==> r == ""
  {
    if doc.Unreadable? then ""
    else
      var t := BaseExtractor.JoinPages(doc.pages);
      if t.Ok? then t.value else ""
  }

  /** `"\n".join(page_text or "" for page in pages)`, with an exception giving "". */
  function ReaderText(pages: PageTexts): (r: string)
    ensures pages.Raised? ==> r == ""
    ensures pages.Ok? && |pages.value| == 1 ==> r == pages.value[0].GetOr("")
  {
    if pages.Raised? then ""
    else Text.Join("\n", seq(|pages.value|, i requires 0 <= i < |pages.value| => pages.value[i].GetOr("")))
  }

  /**
   * `_extract_text_any`: the pypdf text when it is not blank, else the pdfplumber text when that
   * is not blank, else the PyMuPDF text.
   */
  function TextAny(doc: BaseExtractor.Document, plumber: PageTexts, fitz: PageTexts): (r: string)
    ensures !Text.IsBlank(PypdfText(doc)) ==> r == PypdfText(doc)
    ensures Text.IsBlank(PypdfText(doc)) && !Text.IsBlank(ReaderText(plumber)) ==> r == ReaderText(plumber)
    ensures Text.IsBlank(PypdfText(doc)) && Text.IsBlank(ReaderText(plumber)) ==> r == ReaderText(fitz)
  {
    if !Text.IsBlank(PypdfText(doc)) then PypdfText(doc)
    else if !Text.IsBlank(ReaderText(plumber)) then ReaderText(plumber)
    else ReaderText(fitz)
  }

  /** The text is blank only when every reader gave a blank text (or raised). */
  lemma BlankOnlyWhenAllBlank(doc: BaseExtractor.Document, plumber: PageTexts, fitz: PageTexts)
    requires Text.IsBlank(TextAny(doc, plumber, fitz))
    ensures Text.IsBlank(PypdfText(doc)) && Text.IsBlank(ReaderText(plumber)) && Text.IsBlank(ReaderText(fitz))
  {
  }

  /** When the first two readers give nothing and PyMuPDF raises, the text is empty. */
  lemma AllReadersFail(plumber: PageTexts, fitz: PageTexts, reason: string)
    requires plumber.Raised? && fitz.Raised?
    ensures TextAny(BaseExtractor.Unreadable(reason), plumber, fitz) == ""
  {
  }

  /** The reader chain, one reader after the other, returning as soon as a text is not blank. */
  method ExtractTextAny(doc: BaseExtractor.Document, plumber: PageTexts, fitz: PageTexts) returns (text: string)
    ensures text == TextAny(doc, plumber, fitz)
  {
    var primary := BaseExtractor.ExtractText(doc);
    text := if primary.Ok? then primary.value else "";
    if !Text.IsBlank(text) {
      return;
    }
    text := ReaderText(plumber);
    if !Text.IsBlank(text) {
      return;
    }
    text := ReaderText(fitz);
  }

  // ---------------------------------------------------------------------------------------------
  // Contract number

  /**
   * `_extract_contract_number`: `DA\d{5}` and then `\b\d{8}\b` in the text, ignoring case;
   * failing both, the same two patterns in the uppercased file name. The match is uppercased.
   */
  function ContractNumber(text: string, pdfName: string): (r: Option<string>)
    ensures Patterns.SearchEither(Patterns.Da(true), Patterns.BoundedEight, text).Some? ==>
      r == Some(Text.Upper(Patterns.SearchEither(Patterns.Da(true), Patterns.BoundedEight, text).value))
    ensures r.None? <==>
      Patterns.SearchEither(Patterns.Da(true), Patterns.BoundedEight, text).None? &&
      Patterns.SearchEither(Patterns.Da(false), Patterns.BoundedEight, Text.Upper(pdfName)).None?
  {
    match Patterns.SearchEither(Patterns.Da(true), Patterns.BoundedEight, text)
    case Some(m) => Some(Text.Upper(m))
    case None =>
      match Patterns.SearchEither(Patterns.Da(false), Patterns.BoundedEight, Text.Upper(pdfName))
      case Some(m) => Some(Text.Upper(m))
      case None => None
  }

  /** A contract number reads "DA" and five digits, or eight digits. */
  lemma ContractNumberShape(text: string, pdfName: string)
    requires ContractNumber(text, pdfName).Some?
    ensures var n := ContractNumber(text, pdfName).value;
      (|n| == 7 && n[..2] == "DA" && Text.AllDigits(n[2..])) || (|n| == 8 && Text.AllDigits(n))
  {
    var t := Patterns.SearchEither(Patterns.Da(true), Patterns.BoundedEight, text);
    var f := Patterns.SearchEither(Patterns.Da(false), Patterns.BoundedEight, Text.Upper(pdfName));
    var src := if t.Some? then text else Text.Upper(pdfName);
    var ic := t.Some?;
    var m := if t.Some? then t.value else f.value;
    var n := Text.Upper(m);
    if Patterns.Search(Patterns.Da(ic), src).Some? {
      Patterns.DaShape(ic, src);
      assert n[2..] == Text.Upper(m[2..]);
    } else {
      Patterns.EightShape(Patterns.BoundedEight, src);
    }
  }

  /** A number found in the text wins, whatever the file is called. */
  lemma TextBeforeFileName(text: string, a: string, b: string)
    requires Patterns.SearchEither(Patterns.Da(true), Patterns.BoundedEight, text).Some?
    ensures ContractNumber(text, a) == ContractNumber(text, b)
  {
  }

  /** A file name that starts with "DA" (in any case) and five digits gives the number when the text has none. */
  lemma FileNameFallback(text: string, pdfName: string)
    requires Patterns.SearchEither(Patterns.Da(true), Patterns.BoundedEight, text).None?
    requires Patterns.MatchesAt(Patterns.Da(true), pdfName, 0)
    ensures ContractNumber(text, pdfName) == Some(Text.Upper(pdfName[..7]))
  {
    var u := Text.Upper(pdfName);
    assert Patterns.MatchesAt(Patterns.Da(false), u, 0) by {
      assert u[2..7] == Text.Upper(pdfName[2..7]);
    }
    Patterns.SearchAtStart(Patterns.Da(false), u);
    assert u[..7] == Text.Upper(pdfName[..7]);
    Text.UpperTwice(pdfName[..7]);
  }

  // ---------------------------------------------------------------------------------------------
  // Lines

  /** `re.sub(r"\s+", " ", s)`: every run of blank characters becomes one space. */
  function Collapse(s: string): (r: string)
    decreases |s|
  {
    if s == [] then []
    else if Text.IsSpace(s[0]) then " " + Collapse(Text.LStrip(s[1..]))
    else [s[0]] + Collapse(s[1..])
  }

  /** `_normalize_line`: blank runs collapsed to one space, then stripped. */
  function NormalizeLine(line: string): string {
    Text.Strip(Collapse(line))
  }

  /** A word in front of the text passes through the collapse unchanged. */
  lemma {:induction false} CollapseWord(w: string, rest: string)
    requires Text.NoSpace(w)
    ensures Collapse(w + rest) == w + Collapse(rest)
    decreases |w|
  {
    if w == [] {
      assert w + rest == rest;
    } else {
      assert (w + rest)[1..] == w[1..] + rest;
      CollapseWord(w[1..], rest);
    }
  }

  /** Leading blanks do not change the words of a text. */
  lemma {:induction false} SplitSkipsBlanks(s: string)
    ensures Text.SplitWs(s) == Text.SplitWs(Text.LStrip(s))
    decreases |s|
  {
    if s != [] && Text.IsSpace(s[0]) {
      SplitSkipsBlanks(s[1..]);
    }
  }

  /** One space when the text ends with a blank character, else nothing. */
  function Trail(s: string): (r: string)
    ensures Text.IsBlank(r)
  {
    if s != [] && Text.IsSpace(s[|s| - 1]) then " " else ""
  }

  /**
   * The collapse of a text that does not start blank: its words joined by single spaces, with
   * one more space when the text ends blank.
   */
  lemma {:induction false} CollapseShape(s: string)
    requires s == [] || !Text.IsSpace(s[0])
    ensures Collapse(s) == Text.Join(" ", Text.SplitWs(s)) + Trail(s)
    decreases |s|
  {
    if s != [] {
      var w := Text.Word(s);
      var rest := s[|w|..];
      assert Collapse(s) == w + Collapse(rest) by {
        assert s == w + rest;
        CollapseWord(w, rest);
      }
      assert Text.SplitWs(s) == [w] + Text.SplitWs(rest);
      if rest == [] {
        SingleWord(s, w);
      } else {
        var r2 := Text.LStrip(rest);
        AfterWord(s, rest, r2);
        CollapseBlankRun(rest);
        SplitSkipsBlanks(rest);
        CollapseShape(r2);
        JoinStep(Collapse(s), w, Collapse(r2), Text.SplitWs(r2), Trail(r2), Trail(s));
      }
    }
  }

  /** A text that is one word collapses to itself. */
  lemma SingleWord(s: string, w: string)
    requires s != [] && !Text.IsSpace(s[0]) && w == Text.Word(s) && s[|w|..] == []
    requires Collapse(s) == w + Collapse(s[|w|..])
    ensures Collapse(s) == Text.Join(" ", Text.SplitWs(s)) + Trail(s)
  {
    assert Trail(s) == "" by {
      assert s[|s| - 1] == w[|w| - 1];
    }
    assert Text.SplitWs(s) == [w] + Text.SplitWs(s[|w|..]);
  }

  /** What follows the first word: a blank run, then the rest, which ends the text. */
  lemma AfterWord(s: string, rest: string, r2: string)
    requires rest != [] && |rest| <= |s| && rest == s[|s| - |rest|..] && Text.IsSpace(rest[0])
    requires r2 == Text.LStrip(rest)
    ensures r2 == [] ==> Trail(s) == " " && Text.SplitWs(r2) == [] && Trail(r2) == ""
    ensures r2 != [] ==> Trail(s) == Trail(r2) && Text.SplitWs(r2) != []
    ensures |r2| < |s| && (r2 == [] || !Text.IsSpace(r2[0]))
  {
    if r2 == [] {
      LastOfSuffix(s, rest);
    } else {
      TrailOfSuffix(s, r2);
      assert Text.SplitWs(r2) == [Text.Word(r2)] + Text.SplitWs(r2[|Text.Word(r2)|..]);
    }
  }

  /** A blank run collapses to one space. */
  lemma CollapseBlankRun(rest: string)
    requires rest != [] && Text.IsSpace(rest[0])
    ensures Collapse(rest) == " " + Collapse(Text.LStrip(rest))
  {
    assert Text.LStrip(rest) == Text.LStrip(rest[1..]);
  }

  /** A non-empty suffix ends blank exactly when the text does. */
  lemma TrailOfSuffix(a: string, b: string)
    requires b != [] && |b| <= |a| && b == a[|a| - |b|..]
    ensures Trail(a) == Trail(b)
  {
    LastOfSuffix(a, b);
  }

  /** A non-empty suffix ends with the text's last character. */
  lemma LastOfSuffix(a: string, b: string)
    requires b != [] && |b| <= |a| && b == a[|a| - |b|..]
    ensures b[|b| - 1] == a[|a| - 1]
  {
  }

  /** The step of the collapse shape: one more word in front of the joined words. */
  lemma JoinStep(c: string, w: string, c2: string, ws: seq<string>, t2: string, t: string)
    requires c == w + (" " + c2) && c2 == Text.Join(" ", ws) + t2
    requires ws == [] ==> t == " " && t2 == ""
    requires ws != [] ==> t == t2
    ensures c == Text.Join(" ", [w] + ws) + t
  {
    if ws == [] {
      assert [w] + ws == [w];
    } else {
      assert ([w] + ws)[1..] == ws;
      assert w + (" " + (Text.Join(" ", ws) + t2)) == (w + " " + Text.Join(" ", ws)) + t2;
    }
  }

  /** One space when the text starts with a blank character, else nothing. */
  function Lead(s: string): (r: string)
    ensures Text.IsBlank(r)
  {
    if s != [] && Text.IsSpace(s[0]) then " " else ""
  }

  /** A leading blank run collapses to one space in front of the rest's collapse. */
  lemma CollapseLeading(s: string)
    ensures Collapse(s) == Lead(s) + Collapse(Text.LStrip(s))
  {
    if s != [] && Text.IsSpace(s[0]) {
      assert Text.LStrip(s) == Text.LStrip(s[1..]);
    } else {
      assert Lead(s) + Collapse(s) == Collapse(s);
    }
  }

  /** Words joined by single spaces neither start nor end blank. */
  lemma JoinedWordsTrimmed(ws: seq<string>)
    requires forall k :: 0 <= k < |ws| ==> ws[k] != [] && Text.NoSpace(ws[k])
    ensures var j := Text.Join(" ", ws); j == [] || (!Text.IsSpace(j[0]) && !Text.IsSpace(j[|j| - 1]))
  {
    if ws != [] {
      Text.JoinEnds(" ", ws);
      var last := ws[|ws| - 1];
      assert !Text.IsSpace(ws[0][0]) && !Text.IsSpace(last[|last| - 1]);
    }
  }

  /** Stripping a trimmed text with blank padding around it. */
  lemma StripJoined(c: string, pre: string, j: string, tail: string)
    requires c == pre + (j + tail) && Text.IsBlank(pre) && Text.IsBlank(tail)
    requires j == [] || (!Text.IsSpace(j[0]) && !Text.IsSpace(j[|j| - 1]))
    ensures Text.Strip(c) == j
  {
    assert pre + (j + tail) == pre + j + tail;
    Text.StripAround(pre, j, tail);
  }

  /** `_normalize_line` is the line's words joined by single spaces. */
  lemma NormalizeIsJoinedWords(line: string)
    ensures NormalizeLine(line) == Text.Join(" ", Text.SplitWs(line))
  {
    var t := Text.LStrip(line);
    var ws := Text.SplitWs(t);
    var j := Text.Join(" ", ws);
    SplitSkipsBlanks(line);
    CollapseLeading(line);
    CollapseShape(t);
    assert Collapse(line) == Lead(line) + (j + Trail(t));
    JoinedWordsTrimmed(ws);
    StripJoined(Collapse(line), Lead(line), j, Trail(t));
  }

  /** Normalising a normalised line changes nothing. */
  lemma NormalizeIdempotent(line: string)
    ensures NormalizeLine(NormalizeLine(line)) == NormalizeLine(line)
  {
    NormalizeIsJoinedWords(line);
    NormalizeIsJoinedWords(NormalizeLine(line));
    Text.SplitJoinedWords(Text.SplitWs(line));
  }

  /** `[self._normalize_line(line) for line in text.splitlines()]` */
  function NormalizedLines(text: string): (r: seq<string>)
    ensures |r| == |Text.SplitLines(text)|
  {
    var ls := Text.SplitLines(text);
    seq(|ls|, i requires 0 <= i < |ls| => NormalizeLine(ls[i]))
  }

  const HeaderKeywords: seq<string> :=
    ["BIDS AS READ", "BID SUMMARY", "CONTRACT", "TOTAL", "ENGINEER", "BIDDER", "BIDDERS"]

  /** `_is_header_line`: the line contains one of the header keywords, case-sensitively. */
  predicate IsHeaderLine(line: string) {
    exists k :: 0 <= k < |HeaderKeywords| && Text.Contains(line, HeaderKeywords[k])
  }

  // ---------------------------------------------------------------------------------------------
  // Bidders

  /** What a bidder pattern's `match` gives: its named groups, None for a group that did not take part. */
  datatype Groups = Groups(bidder: Option<string>, location: Option<string>, amount: Option<string>, rank: Option<string>)

  /**
   * The abstract parts: the two line patterns (index 0 reads name, location, amount and an
   * optional rank; index 1 reads amount, name and an optional location), Python's `float()` and
   * `_parse_percent`.
   */
  datatype Readers = Readers(
    matchLine: (nat, string) -> Option<Groups>,
    parseFloat: string -> Option<real>,
    percentOf: string -> Option<real>)

  const PatternCount: nat := 2

  datatype Bidder = Bidder(name: string, location: Option<string>, amount: real, rank: Option<int>, percentDiff: Option<real>)

  /** `_parse_amount`: None for no text or empty text, else `float` of the text without commas. */
  function ParseAmount(value: Option<string>, parseFloat: string -> Option<real>): (r: Option<real>)
    ensures value.None? || value.value == "" ==> r.None?
    ensures value.Some? && value.value != "" ==> r == parseFloat(BidTabs.RemoveCommas(value.value))
  {
    if value.None? || value.value == "" then None
    else parseFloat(BidTabs.RemoveCommas(value.value))
  }

  /** `_parse_int`: None for no text, empty text or text `int()` refuses. */
  function ParseRank(value: Option<string>): (r: Option<int>)
    ensures value.None? || value.value == "" ==> r.None?
    ensures value.Some? && Text.IsDigitString(value.value) ==> r == Some(Text.DigitsValue(value.value))
  {
    if value.None? || value.value == "" then None
    else Text.ParseInt(value.value)
  }

  /** `re.search(r"[A-Z]", name)` */
  predicate HasUpper(name: string) {
    exists k :: 0 <= k < |name| && 'A' <= name[k] <= 'Z'
  }

  /** The second pattern has no `rank` group, so `groupdict().get("rank")` is None for it. */
  function RankGroup(p: nat, g: Groups): Option<string> {
    if p == 0 then g.rank else None
  }

  /**
   * The tests on one pattern's groups: a stripped name with an uppercase letter and an amount
   * that parses, else the next pattern is tried. An empty stripped location is None.
   */
  function Accept(p: nat, g: Groups, line: string, rd: Readers): Option<Bidder> {
    var name := Text.Strip(g.bidder.GetOr(""));
    var amount := ParseAmount(g.amount, rd.parseFloat);
    if name == [] || !HasUpper(name) || amount.None? then None
    else
      var loc := Text.Strip(g.location.GetOr(""));
      Some(Bidder(name, if loc == [] then None else Some(loc), amount.value, ParseRank(RankGroup(p, g)), rd.percentOf(line)))
  }

  /** A pattern's groups are accepted exactly when the stripped name has an uppercase letter and the amount parses. */
  lemma AcceptChecks(p: nat, g: Groups, line: string, rd: Readers)
    ensures var r := Accept(p, g, line, rd);
      && (r.Some? <==> HasUpper(Text.Strip(g.bidder.GetOr(""))) && ParseAmount(g.amount, rd.parseFloat).Some?)
      && (r.Some? ==> r.value.name != [] && r.value.location != Some(""))
      && (r.Some? ==> r.value.amount == ParseAmount(g.amount, rd.parseFloat).value)
      && (r.Some? && p != 0 ==> r.value.rank.None?)
  {
  }

  /** Pattern `p` on the line: no match, or the tests on its groups. */
  function TryPattern(p: nat, line: string, rd: Readers): Option<Bidder> {
    match rd.matchLine(p, line)
    case None => None
    case Some(g) => Accept(p, g, line, rd)
  }

  /** The bidder from the first pattern, at index `p` or later, that matches and passes the group tests. */
  function FirstAccepted(line: string, rd: Readers, p: nat): Option<Bidder>
    decreases PatternCount - p
  {
    if p >= PatternCount then None
    else if TryPattern(p, line, rd).Some? then TryPattern(p, line, rd)
    else FirstAccepted(line, rd, p + 1)
  }

  /** With two patterns: the first one's bidder when it gives one, else the second one's. */
  lemma FirstOfTwo(line: string, rd: Readers)
    ensures FirstAccepted(line, rd, 0) ==
      if TryPattern(0, line, rd).Some? then TryPattern(0, line, rd) else TryPattern(1, line, rd)
  {
    assert FirstAccepted(line, rd, 2) == None;
  }

  /** What one line contributes: nothing for an empty or header line, else the first accepted pattern's bidder. */
  function LineBidder(line: string, rd: Readers): (r: Option<Bidder>)
    ensures line == [] || IsHeaderLine(line) ==> r.None?
    ensures !(line == [] || IsHeaderLine(line)) && TryPattern(0, line, rd).Some? ==> r == TryPattern(0, line, rd)
  {
    if line == [] || IsHeaderLine(line) then None else FirstAccepted(line, rd, 0)
  }

  /** The inner `for pattern in patterns` loop: `continue` past a failed pattern, `break` at the first bidder. */
  method MatchBidder(line: string, rd: Readers) returns (r: Option<Bidder>)
    ensures r == FirstAccepted(line, rd, 0)
  {
    r := None;
    var p := 0;
    while p < PatternCount
      invariant p <= PatternCount && r.None?
      invariant FirstAccepted(line, rd, 0) == FirstAccepted(line, rd, p)
    {
      var m := rd.matchLine(p, line);
      FirstAcceptedStep(line, rd, p);
      if m.None? {
        p := p + 1;
        continue;
      }
      r := Accept(p, m.value, line, rd);
      assert r == TryPattern(p, line, rd);
      if r.Some? {
        return;
      }
      p := p + 1;
    }
  }

  /** Pattern `p` decides when it gives a bidder; otherwise the later patterns do. */
  lemma FirstAcceptedStep(line: string, rd: Readers, p: nat)
    requires p < PatternCount
    ensures TryPattern(p, line, rd).Some? ==> FirstAccepted(line, rd, p) == TryPattern(p, line, rd)
    ensures TryPattern(p, line, rd).None? ==> FirstAccepted(line, rd, p) == FirstAccepted(line, rd, p + 1)
  {
  }

  /** What a line parser gives for one line: None, or the bidder it reads. */
  type LineParser = (string, Readers) -> Option<Bidder>

  /** The bidders `parse` reads from the lines, one or none per line, in line order. */
  function Scan(lines: seq<string>, rd: Readers, parse: LineParser): (r: seq<Bidder>)
    ensures |r| <= |lines|
    decreases |lines|
  {
    if lines == [] then []
    else
      var last := parse(lines[|lines| - 1], rd);
      Scan(lines[..|lines| - 1], rd, parse) + (if last.Some? then [last.value] else [])
  }

  /** The bidders of two blocks of lines are the first block's followed by the second's. */
  lemma {:induction false} ScanConcat(a: seq<string>, b: seq<string>, rd: Readers, parse: LineParser)
    ensures Scan(a + b, rd, parse) == Scan(a, rd, parse) + Scan(b, rd, parse)
    decreases |b|
  {
    if b == [] {
      assert a + b == a;
    } else {
      var b0 := b[..|b| - 1];
      assert (a + b)[..|a + b| - 1] == a + b0;
      assert (a + b)[|a + b| - 1] == b[|b| - 1];
      ScanConcat(a, b0, rd, parse);
    }
  }

  /** Lines the parser reads nothing from contribute nothing. */
  lemma {:induction false} ScanNothing(lines: seq<string>, rd: Readers, parse: LineParser)
    requires forall k :: 0 <= k < |lines| ==> parse(lines[k], rd).None?
    ensures Scan(lines, rd, parse) == []
    decreases |lines|
  {
    if lines != [] {
      ScanNothing(lines[..|lines| - 1], rd, parse);
    }
  }

  /** A property of every bidder the parser reads holds of every bidder of the scan. */
  lemma {:induction false} ScanKeeps(lines: seq<string>, rd: Readers, parse: LineParser, ok: Bidder -> bool)
    requires forall l :: parse(l, rd).Some? ==> ok(parse(l, rd).value)
    ensures forall k :: 0 <= k < |Scan(lines, rd, parse)| ==> ok(Scan(lines, rd, parse)[k])
    decreases |lines|
  {
    if lines != [] {
      ScanKeeps(lines[..|lines| - 1], rd, parse, ok);
    }
  }

  /** One more line extends the scan by that line's bidder, if any. */
  lemma ScanStep(lines: seq<string>, i: nat, rd: Readers, parse: LineParser)
    requires i < |lines|
    ensures Scan(lines[..i + 1], rd, parse) ==
      Scan(lines[..i], rd, parse) + (if parse(lines[i], rd).Some? then [parse(lines[i], rd).value] else [])
  {
    assert lines[..i + 1][..i] == lines[..i];
  }

  /** Blank lines and header lines yield no bidder. */
  lemma HeadersYieldNothing(lines: seq<string>, rd: Readers)
    requires forall k :: 0 <= k < |lines| ==> lines[k] == [] || IsHeaderLine(lines[k])
    ensures Scan(lines, rd, LineBidder) == []
  {
    ScanNothing(lines, rd, LineBidder);
  }

  /** Every bidder a line gives has a name with an uppercase letter and no empty location. */
  lemma LineBidderNamed(line: string, rd: Readers)
    requires LineBidder(line, rd).Some?
    ensures HasUpper(LineBidder(line, rd).value.name) && LineBidder(line, rd).value.location != Some("")
  {
    FirstOfTwo(line, rd);
    var q := if TryPattern(0, line, rd).Some? then 0 else 1;
    assert LineBidder(line, rd) == TryPattern(q, line, rd);
    AcceptChecks(q, rd.matchLine(q, line).value, line, rd);
  }

  /** The position-filled rank: a bidder without a rank gets its 1-based position. */
  function Backfilled(bs: seq<Bidder>): (r: seq<Bidder>)
    ensures |r| == |bs|
    ensures forall k :: 0 <= k < |r| ==> r[k].rank.Some?
    ensures forall k :: 0 <= k < |r| && bs[k].rank.Some? ==> r[k] == bs[k]
    ensures forall k :: 0 <= k < |r| && bs[k].rank.None? ==> r[k] == bs[k].(rank := Some(k + 1))
  {
    seq(|bs|, k requires 0 <= k < |bs| => if bs[k].rank.None? then bs[k].(rank := Some(k + 1)) else bs[k])
  }

  /** Filling ranks twice is filling them once. */
  lemma BackfillIdempotent(bs: seq<Bidder>)
    ensures Backfilled(Backfilled(bs)) == Backfilled(bs)
  {
  }

  /** `_extract_bidders`: no bidders for an empty text, else the scan of the normalised lines with ranks filled. */
  function BiddersOf(text: string, rd: Readers): (r: seq<Bidder>)
    ensures text == [] ==> r == []
    ensures |r| <= |Text.SplitLines(text)|
  {
    if text == [] then [] else Backfilled(Scan(NormalizedLines(text), rd, LineBidder))
  }

  /** Every bidder has a rank and a name with an uppercase letter. */
  lemma BiddersRanked(text: string, rd: Readers)
    ensures forall k :: 0 <= k < |BiddersOf(text, rd)| ==>
      BiddersOf(text, rd)[k].rank.Some? && HasUpper(BiddersOf(text, rd)[k].name)
  {
    if text != [] {
      forall l | LineBidder(l, rd).Some? ensures HasUpper(LineBidder(l, rd).value.name) {
        LineBidderNamed(l, rd);
      }
      ScanKeeps(NormalizedLines(text), rd, LineBidder, (b: Bidder) => HasUpper(b.name));
    }
  }

  /** The `enumerate(bidders, 1)` loop, filling the missing ranks in place. */
  method BackfillRanks(a: array<Bidder>)
    modifies a
    ensures a[..] == Backfilled(old(a[..]))
  {
    ghost var before := a[..];
    for i := 0 to a.Length
      invariant forall k :: 0 <= k < i ==> a[k] == Backfilled(before)[k]
      invariant forall k :: i <= k < a.Length ==> a[k] == before[k]
    {
      if a[i].rank.None? {
        a[i] := a[i].(rank := Some(i + 1));
      }
    }
  }

  /** The line loop of `_extract_bidders`: blank and header lines are skipped, the others matched. */
  method ScanLines(lines: seq<string>, rd: Readers) returns (found: seq<Bidder>)
    ensures found == Scan(lines, rd, LineBidder)
  {
    found := [];
    for i := 0 to |lines|
      invariant found == Scan(lines[..i], rd, LineBidder)
    {
      ScanStep(lines, i, rd, LineBidder);
      if lines[i] == [] || IsHeaderLine(lines[i]) {
        continue;
      }
      var b := MatchBidder(lines[i], rd);
      if b.Some? {
        found := found + [b.value];
      }
    }
    assert lines[..|lines|] == lines;
  }

  /** `_extract_bidders`: the line loop over the normalised lines, followed by the rank backfill. */
  method ExtractBidders(text: string, rd: Readers) returns (bidders: seq<Bidder>)
    ensures bidders == BiddersOf(text, rd)
  {
    if text == [] {
      return [];
    }
    var found := ScanLines(NormalizedLines(text), rd);
    var a := new Bidder[|found|](k requires 0 <= k < |found| => found[k]);
    assert a[..] == found;
    BackfillRanks(a);
    bidders := a[..];
  }

  // ---------------------------------------------------------------------------------------------
  // The extraction

  /** `extract`'s dictionary: the contract number, the bidders, and `bid_items`, which is always empty. */
  datatype Extraction = Extraction(contractNumber: Option<string>, bidders: seq<Bidder>, bidItems: seq<BidTabs.BidItem>)

  /** `extract`: the text from the reader chain, then its contract number (or the file name's) and its bidders. */
  method Extract(doc: BaseExtractor.Document, plumber: PageTexts, fitz: PageTexts, pdfName: string, rd: Readers)
    returns (r: Extraction)
    ensures r.contractNumber == ContractNumber(TextAny(doc, plumber, fitz), pdfName)
    ensures r.bidders == BiddersOf(TextAny(doc, plumber, fitz), rd)
    ensures r.bidItems == []
  {
    var text := ExtractTextAny(doc, plumber, fitz);
    var bidders := ExtractBidders(text, rd);
    r := Extraction(ContractNumber(text, pdfName), bidders, []);
  }
}
