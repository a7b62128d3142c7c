/**
 * The Bid Tabs extractor: a table-based pass over the PDF pages with a text-based fallback.
 *
 * The PDF reader is abstract: a document is the list of its pages, each with the text
 * `page.extract_text()` gives (None when the page has none) and the tables
 * `page.extract_tables()` gives, whose cells are text or None. The two bidder regular
 * expressions and the ranking-section search are abstract too: `BidderScan` is what they find
 * in a text. The control logic around them, the contract-number search, the table test and
 * parse, and the line-by-line bid-item parser are modelled in full.
 */
module BidTabs {
  import opened Wrappers
  import Text
  import Patterns

  // ---------------------------------------------------------------------------------------
  // Contract number

  /**
   * `_extract_contract_number`: the first `DA\d{5}` (case-sensitive), else the first run of
   * eight digits anywhere (no word boundary), else None.
   */
  function ContractNumber(text: string): (r: Option<string>)
    ensures r.None? <==> Patterns.Search(Patterns.Da(false), text).None? && Patterns.Search(Patterns.Eight, text).None?
    ensures Patterns.Search(Patterns.Da(false), text).Some? ==> r == Patterns.Search(Patterns.Da(false), text)
    ensures Patterns.Search(Patterns.Da(false), text).None? ==> r == Patterns.Search(Patterns.Eight, text)
  {
    Patterns.SearchEither(Patterns.Da(false), Patterns.Eight, text)
  }

  /** A contract number found is "DA" in capitals and five digits, or eight digits. */
  lemma ContractNumberShape(text: string)
    requires ContractNumber(text).Some?
    ensures var m := ContractNumber(text).value;
      (|m| == 7 && m[0] == 'D' && m[1] == 'A' && Text.AllDigits(m[2..])) || (|m| == 8 && Text.AllDigits(m))
  {
    if Patterns.Search(Patterns.Da(false), text).Some? {
      var i := Patterns.FirstFrom(Patterns.Da(false), text, 0).value;
      assert text[i..i + 7][2..] == text[i + 2..i + 7];
    } else {
      Patterns.EightShape(Patterns.Eight, text);
    }
  }

  /** Eight digits glued to letters still count: the pattern has no word boundary. */
  lemma EightDigitsInsideWord(pre: string, digits: string, post: string)
    requires |digits| == 8 && Text.AllDigits(digits)
    requires Patterns.Search(Patterns.Da(false), pre + digits + post).None?
    ensures ContractNumber(pre + digits + post).Some?
  {
    var s := pre + digits + post;
    assert s[|pre|..|pre| + 8] == digits;
    assert Patterns.MatchesAt(Patterns.Eight, s, |pre|);
  }

  // ---------------------------------------------------------------------------------------
  // Tables

  /** A table cell as the PDF library gives it: its text, or None. */
  type Cell = Option<string>
  type Row = seq<Cell>
  type Table = seq<Row>

  /** Python truthiness of a cell: a non-empty text. */
  predicate CellTruthy(c: Cell) {
    c.Some? && c.value != ""
  }

  /** `str(cell)`: None prints as "None". */
  function CellText(c: Cell): string {
    if c.None? then "None" else c.value
  }

  /** `any(row)`: some cell is truthy. */
  predicate AnyTruthy(row: Row) {
    exists k :: 0 <= k < |row| && CellTruthy(row[k])
  }

  const Keywords: seq<string> := ["item", "description", "quantity", "unit", "price", "total"]

  /** The lowercased texts of the header's truthy cells, in order. */
  function HeaderParts(header: Row): (r: seq<string>)
    ensures |r| <= |header|
  {
    if header == [] then []
    else (if CellTruthy(header[0]) then [Text.Lower(header[0].value)] else []) + HeaderParts(header[1..])
  }

  /** The header text of `_is_bid_items_table`: the header parts joined by single spaces. */
  function HeaderText(header: Row): string {
    Text.Join(" ", HeaderParts(header))
  }

  /** The keywords that occur in `header`, in keyword order. */
  function Hits(keywords: seq<string>, header: string): (r: seq<string>)
    ensures |r| <= |keywords|
    ensures forall k :: k in r <==> k in keywords && Text.Contains(header, k)
  {
    if keywords == [] then []
    else (if Text.Contains(header, keywords[0]) then [keywords[0]] else []) + Hits(keywords[1..], header)
  }

  /** `_is_bid_items_table`: at least two rows and at least three keywords in the header text. */
  function IsBidItemsTable(table: Table): (r: bool)
    ensures |table| < 2 ==> !r
    ensures r ==> |Hits(Keywords, HeaderText(table[0]))| >= 3
  {
    |table| >= 2 && |Hits(Keywords, HeaderText(table[0]))| >= 3
  }

  /** A truthy header cell's lowercased text is one of the header parts. */
  lemma {:induction false} CellInHeader(header: Row, k: nat)
    requires k < |header| && CellTruthy(header[k])
    ensures exists i :: 0 <= i < |HeaderParts(header)| && HeaderParts(header)[i] == Text.Lower(header[k].value)
    decreases k
  {
    var head := if CellTruthy(header[0]) then [Text.Lower(header[0].value)] else [];
    assert HeaderParts(header) == head + HeaderParts(header[1..]);
    if k == 0 {
      assert HeaderParts(header)[0] == Text.Lower(header[0].value);
    } else {
      CellInHeader(header[1..], k - 1);
      var i :| 0 <= i < |HeaderParts(header[1..])| && HeaderParts(header[1..])[i] == Text.Lower(header[1..][k - 1].value);
      assert HeaderParts(header)[|head| + i] == HeaderParts(header[1..])[i];
    }
  }

  /** A keyword inside one truthy header cell is a keyword of the header text. */
  lemma KeywordInCell(header: Row, k: nat, word: string)
    requires k < |header| && CellTruthy(header[k]) && Text.Contains(Text.Lower(header[k].value), word)
    ensures Text.Contains(HeaderText(header), word)
  {
    CellInHeader(header, k);
    var i :| 0 <= i < |HeaderParts(header)| && HeaderParts(header)[i] == Text.Lower(header[k].value);
    Text.JoinContainsPart(" ", HeaderParts(header), i, word);
  }

  /** Three distinct elements need three places. */
  lemma ThreeDistinct(s: seq<string>, a: string, b: string, c: string)
    requires a in s && b in s && c in s && a != b && b != c && a != c
    ensures |s| >= 3
  {
    var i :| 0 <= i < |s| && s[i] == a;
    var j :| 0 <= j < |s| && s[j] == b;
    var l :| 0 <= l < |s| && s[l] == c;
  }

  /**
   * A table of two or more rows whose header cells contain three different keywords, here
   * "item", "description" and "quantity", in any cells and in any case, is a bid-items table.
   */
  lemma ThreeKeywordCells(table: Table, i: nat, j: nat, l: nat)
    requires |table| >= 2 && i < |table[0]| && j < |table[0]| && l < |table[0]|
    requires CellTruthy(table[0][i]) && Text.Contains(Text.Lower(table[0][i].value), "item")
    requires CellTruthy(table[0][j]) && Text.Contains(Text.Lower(table[0][j].value), "description")
    requires CellTruthy(table[0][l]) && Text.Contains(Text.Lower(table[0][l].value), "quantity")
    ensures IsBidItemsTable(table)
  {
    var h := HeaderText(table[0]);
    KeywordInCell(table[0], i, "item");
    KeywordInCell(table[0], j, "description");
    KeywordInCell(table[0], l, "quantity");
    assert "item" in Keywords && "description" in Keywords && "quantity" in Keywords;
    ThreeDistinct(Hits(Keywords, h), "item", "description", "quantity");
  }

  /** A header whose text holds fewer than three keywords makes the table no bid-items table. */
  lemma FewKeywordsRejected(table: Table)
    requires |table| >= 1 && |Hits(Keywords, HeaderText(table[0]))| < 3
    ensures !IsBidItemsTable(table)
  {
  }

  // ---------------------------------------------------------------------------------------
  // Numbers

  predicate IsDigitOrComma(c: char) {
    Text.IsDigit(c) || c == ','
  }

  predicate AllDigitOrComma(s: string) {
    forall k :: 0 <= k < |s| ==> IsDigitOrComma(s[k])
  }

  predicate HasDigit(s: string) {
    exists k :: 0 <= k < |s| && Text.IsDigit(s[k])
  }

  /** `s.replace(',', '')` */
  function RemoveCommas(s: string): (r: string)
    ensures ',' !in r
    ensures r == [] <==> forall k :: 0 <= k < |s| ==> s[k] == ','
    ensures AllDigitOrComma(s) ==> Text.AllDigits(r)
  {
    if s == [] then []
    else (if s[0] == ',' then [] else [s[0]]) + RemoveCommas(s[1..])
  }

  /** The index of the first '.', if any. */
  function FirstDot(s: string): (r: Option<nat>)
    ensures r.Some? ==> r.value < |s| && s[r.value] == '.' && '.' !in s[..r.value]
    ensures r.None? ==> '.' !in s
  {
    if s == [] then None
    else if s[0] == '.' then Some(0)
    else match FirstDot(s[1..])
      case None => None
      case Some(i) => assert s[..i + 1] == [s[0]] + s[1..][..i]; Some(i + 1)
  }

  function Pow10(n: nat): (r: nat)
    ensures r >= 1
  {
    if n == 0 then 1 else 10 * Pow10(n - 1)
  }

  /** The value of the decimal numeral `whole.frac`. */
  function DecimalValue(whole: string, frac: string): real
    requires Text.AllDigits(whole) && Text.AllDigits(frac)
  {
    Text.DigitsValue(whole) as real + Text.DigitsValue(frac) as real / Pow10(|frac|) as real
  }

  /**
   * `float(t.replace(',', ''))` on the numerals the text parser hands it: digits and commas
   * with at most one point. It fails (None) unless some digit is left.
   */
  function ParseDecimal(t: string): (r: Option<real>)
    ensures r.Some? ==> r.value >= 0.0
  {
    match FirstDot(t)
    case None =>
      var d := RemoveCommas(t);
      if Text.IsDigitString(d) then Some(Text.DigitsValue(d) as real) else None
    case Some(i) =>
      var whole := RemoveCommas(t[..i]);
      var frac := RemoveCommas(t[i + 1..]);
      if Text.AllDigits(whole) && Text.AllDigits(frac) && (whole != [] || frac != [])
      then Some(DecimalValue(whole, frac)) else None
  }

  /** The token `[\d,]+(?:\.\d+)?` matches in full. */
  predicate IsQuantityToken(t: string) {
    match FirstDot(t)
    case None => t != [] && AllDigitOrComma(t)
    case Some(i) => i > 0 && AllDigitOrComma(t[..i]) && Text.IsDigitString(t[i + 1..])
  }

  /** A quantity numeral parses exactly when it holds a digit: a run of commas alone gives None. */
  lemma QuantityParses(t: string)
    requires IsQuantityToken(t)
    ensures ParseDecimal(t).Some? <==> HasDigit(t)
  {
    match FirstDot(t)
    case None =>
      var d := RemoveCommas(t);
      if HasDigit(t) {
        var k :| 0 <= k < |t| && Text.IsDigit(t[k]);
        assert t[k] != ',';
      }
    case Some(i) =>
      assert t[i + 1..][0] == t[i + 1];
      assert t[i + 1..][0] != ',';
  }

  /** The text `[\d,]+\.\d{2}` matches in full (`re.match(r"^[\d,]+\.\d{2}$", t)`). */
  predicate IsPriceToken(t: string) {
    |t| >= 4 && t[|t| - 3] == '.' && Text.IsDigit(t[|t| - 2]) && Text.IsDigit(t[|t| - 1])
    && AllDigitOrComma(t[..|t| - 3])
  }

  /** Every price text is a numeral that parses. */
  lemma PriceParses(t: string)
    requires IsPriceToken(t)
    ensures ParseDecimal(t).Some?
  {
    var i := |t| - 3;
    assert '.' !in t[..i] by {
      forall k | 0 <= k < i ensures t[..i][k] != '.' {
        assert IsDigitOrComma(t[..i][k]);
      }
    }
    assert t[i] == '.';
    assert FirstDot(t) == Some(i);
    var frac := t[i + 1..];
    assert frac == [t[i + 1], t[i + 2]];
    assert RemoveCommas(frac) == frac;
  }

  /** The length of the run of digits and commas that starts `s`. */
  function DigitCommaRun(s: string): (r: nat)
    ensures r <= |s| && AllDigitOrComma(s[..r])
    ensures r < |s| ==> !IsDigitOrComma(s[r])
  {
    if s == [] || !IsDigitOrComma(s[0]) then 0
    else
      var n := DigitCommaRun(s[1..]);
      assert s[..n + 1] == [s[0]] + s[1..][..n];
      n + 1
  }

  /**
   * Where a match of `[\d,]+\.\d{2}` starting at `i` ends. The greedy run of digits and commas
   * cannot give anything back, since none of its characters is the point that must follow it.
   */
  function PriceEnd(s: string, i: nat): (r: Option<nat>)
    requires i <= |s|
    ensures r.Some? ==> i < r.value <= |s| && IsPriceToken(s[i..r.value])
  {
    var j := i + DigitCommaRun(s[i..]);
    if j > i && j + 3 <= |s| && s[j] == '.' && Text.IsDigit(s[j + 1]) && Text.IsDigit(s[j + 2]) then
      var t := s[i..j + 3];
      assert t[..|t| - 3] == s[i..][..j - i];
      Some(j + 3)
    else None
  }

  /** `re.findall(r"[\d,]+\.\d{2}", s[from..])`: the matches, left to right, without overlap. */
  function FindPrices(s: string, from: nat): (r: seq<string>)
    requires from <= |s|
    ensures forall k :: 0 <= k < |r| ==> IsPriceToken(r[k])
    decreases |s| - from
  {
    if from == |s| then []
    else match PriceEnd(s, from)
      case Some(e) => [s[from..e]] + FindPrices(s, e)
      case None => FindPrices(s, from + 1)
  }

  /** The parsed values that are not None, in order. */
  function Somes(ps: seq<Option<real>>): (r: seq<real>)
    ensures |r| <= |ps|
  {
    if ps == [] then []
    else (if ps[0].Some? then [ps[0].value] else []) + Somes(ps[1..])
  }

  function ParseAll(ts: seq<string>): (r: seq<Option<real>>)
    ensures |r| == |ts|
    ensures forall k :: 0 <= k < |ts| ==> r[k] == ParseDecimal(ts[k])
  {
    if ts == [] then [] else [ParseDecimal(ts[0])] + ParseAll(ts[1..])
  }

  /** The prices of a line's remainder: every price found, parsed, with the failures dropped. */
  function Prices(remainder: string): seq<real> {
    Somes(ParseAll(FindPrices(remainder, 0)))
  }

  /** No price is ever dropped: each one found parses, so the filter keeps them all, in order. */
  lemma {:induction false} PricesAllParse(ts: seq<string>)
    requires forall k :: 0 <= k < |ts| ==> IsPriceToken(ts[k])
    ensures |Somes(ParseAll(ts))| == |ts|
    ensures forall k :: 0 <= k < |ts| ==> ParseDecimal(ts[k]) == Some(Somes(ParseAll(ts))[k])
  {
    if ts != [] {
      PriceParses(ts[0]);
      PricesAllParse(ts[1..]);
      assert ParseAll(ts)[1..] == ParseAll(ts[1..]);
    }
  }

  // ---------------------------------------------------------------------------------------
  // Bid items

  /**
   * A bid item. The table parser gives no item code and the text parser gives every field;
   * None stands for Python's None and, for a table item's item code, for the absent key.
   */
  datatype BidItem = BidItem(
    itemNumber: Option<string>,
    itemCode: Option<string>,
    description: Option<string>,
    quantity: Option<real>,
    unit: Option<string>,
    unitPrice: Option<real>,
    totalPrice: Option<real>)

  /** `_parse_number`: None stays None; otherwise Python's float of the text without commas, stripped. */
  function ParseNumber(c: Cell, parseFloat: string -> Option<real>): (r: Option<real>)
    ensures c.None? ==> r.None?
  {
    if c.None? then None else parseFloat(Text.Strip(RemoveCommas(c.value)))
  }

  /** The item of one table row, its columns taken by position; a column past the row's end is None. */
  function RowItem(row: Row, parseFloat: string -> Option<real>): BidItem {
    BidItem(
      if |row| > 0 then Some(CellText(row[0])) else None,
      None,
      if |row| > 1 then Some(CellText(row[1])) else None,
      if |row| > 2 then ParseNumber(row[2], parseFloat) else None,
      if |row| > 3 then Some(CellText(row[3])) else None,
      if |row| > 4 then ParseNumber(row[4], parseFloat) else None,
      if |row| > 5 then ParseNumber(row[5], parseFloat) else None)
  }

  /** A row `_parse_bid_items_table` keeps: non-empty with some truthy cell. */
  predicate RowKept(row: Row) {
    row != [] && AnyTruthy(row)
  }

  /** The items of the data rows, empty and all-falsy rows skipped, in row order. */
  function TableItems(rows: seq<Row>, parseFloat: string -> Option<real>): (r: seq<BidItem>)
    ensures |r| <= |rows|
    ensures (forall j :: 0 <= j < |rows| ==> !RowKept(rows[j])) ==> r == []
    decreases |rows|
  {
    if rows == [] then []
    else
      var last := rows[|rows| - 1];
      TableItems(rows[..|rows| - 1], parseFloat) + (if RowKept(last) then [RowItem(last, parseFloat)] else [])
  }

  /** Each kept row gives exactly one item: with every row kept, there are as many items as rows. */
  lemma {:induction false} AllRowsKept(rows: seq<Row>, parseFloat: string -> Option<real>)
    requires forall j :: 0 <= j < |rows| ==> RowKept(rows[j])
    ensures |TableItems(rows, parseFloat)| == |rows|
    ensures forall j :: 0 <= j < |rows| ==> TableItems(rows, parseFloat)[j] == RowItem(rows[j], parseFloat)
    decreases |rows|
  {
    if rows != [] {
      var pre := rows[..|rows| - 1];
      AllRowsKept(pre, parseFloat);
      var items := TableItems(rows, parseFloat);
      assert items == TableItems(pre, parseFloat) + [RowItem(rows[|rows| - 1], parseFloat)];
      forall j | 0 <= j < |rows| ensures items[j] == RowItem(rows[j], parseFloat) {
        if j < |pre| {
          assert rows[j] == pre[j];
        }
      }
    }
  }

  /** A row of fewer than three cells has no quantity, unit or prices, whatever its cells. */
  lemma ShortRowItem(row: Row, parseFloat: string -> Option<real>)
    requires |row| <= 2
    ensures var it := RowItem(row, parseFloat);
      it.quantity.None? && it.unit.None? && it.unitPrice.None? && it.totalPrice.None?
      && (|row| == 2 <==> it.description.Some?)
  {
  }

  /**
   * `_parse_bid_items_table`: nothing for fewer than two rows; otherwise the items of the rows
   * after the header. No field computation can raise, so its `except` never applies.
   */
  method ParseBidItemsTable(table: Table, parseFloat: string -> Option<real>) returns (items: seq<BidItem>)
    ensures |table| < 2 ==> items == []
    ensures |table| >= 2 ==> items == TableItems(table[1..], parseFloat)
    ensures |table| >= 1 ==> |items| <= |table| - 1
  {
    items := [];
    if |table| < 2 {
      return;
    }
    var i := 1;
    while i < |table|
      invariant 1 <= i <= |table|
      invariant items == TableItems(table[1..i], parseFloat)
    {
      var row := table[i];
      assert table[1..i + 1][..i - 1] == table[1..i];
      if row != [] && AnyTruthy(row) {
        items := items + [RowItem(row, parseFloat)];
      }
      i := i + 1;
    }
    assert table[1..i] == table[1..];
  }

  // ---------------------------------------------------------------------------------------
  // Bid items from text

  /** The groups of `^(\d{4})\s+(\S+)\s+([\d,]+(?:\.\d+)?)\s+(.+)$` */
  datatype LineParts = LineParts(itemNumber: string, itemCode: string, quantity: string, remainder: string)

  /**
   * `re.match` of the item-line pattern on a line without line breaks (so `.` takes every
   * character). Each `\s+` / `\S+` takes a whole run, as the following element cannot start
   * inside it; the quantity must be a whole word; the remainder is the rest after the blank run.
   * Only if that rest is empty does `\s+` give its last blank to `.+`.
   */
  function MatchLine(line: string): (r: Option<LineParts>)
    ensures r.Some? ==> |line| >= 5 && r.value.itemNumber == line[..4] && Text.AllDigits(r.value.itemNumber)
    ensures r.Some? ==> r.value.itemCode != [] && Text.NoSpace(r.value.itemCode)
    ensures r.Some? ==> IsQuantityToken(r.value.quantity) && r.value.remainder != []
  {
    if |line| < 5 || !Text.AllDigits(line[..4]) || !Text.IsSpace(line[4]) then None
    else
      var a := Text.LStrip(line[4..]);
      var code := Text.Word(a);
      var b := a[|code|..];
      if code == [] || b == [] then None
      else
        var c := Text.LStrip(b);
        var qty := Text.Word(c);
        var d := c[|qty|..];
        if !IsQuantityToken(qty) || d == [] then None
        else
          var rem := Text.LStrip(d);
          if rem != [] then Some(LineParts(line[..4], code, qty, rem))
          else if |d| >= 2 then Some(LineParts(line[..4], code, qty, d[|d| - 1..]))
          else None
  }

  const UnitTokens: set<string> := {"LUMP SUM", "LS", "EA", "TON", "LF", "SY", "CY", "HR", "DAY", "MI", "GAL"}

  /** The tokens `tokens[idx:idx + 2]` reaches: two, or one at the last index. */
  function PairEnd(tokens: seq<string>, idx: nat): (r: nat)
    requires idx < |tokens|
    ensures idx < r <= |tokens| && r <= idx + 2
  {
    if idx + 2 <= |tokens| then idx + 2 else |tokens|
  }

  /**
   * The unit found at index `idx`, with how many tokens it spans: the upper-cased two-token
   * candidate first, then the single token; the unit is given in title case.
   */
  function UnitAt(tokens: seq<string>, idx: nat): (r: Option<(string, nat)>)
    requires idx < |tokens|
    ensures r.Some? ==> idx + r.value.1 <= |tokens| && 1 <= r.value.1 <= 2
    ensures r.Some? ==> exists u :: u in UnitTokens && r.value.0 == Text.Title(u)
  {
    var hi := PairEnd(tokens, idx);
    var candidate := Text.Upper(Text.Join(" ", tokens[idx..hi]));
    var single := Text.Upper(tokens[idx]);
    if candidate in UnitTokens then Some((Text.Title(candidate), hi - idx))
    else if single in UnitTokens then Some((Text.Title(single), 1))
    else None
  }

  /** The highest index at or below `idx` where a unit is found. */
  function LastUnit(tokens: seq<string>, idx: int): (r: Option<nat>)
    requires -1 <= idx < |tokens|
    ensures r.Some? ==> r.value <= idx && UnitAt(tokens, r.value).Some?
    ensures r.Some? ==> forall q :: r.value < q <= idx ==> UnitAt(tokens, q).None?
    ensures r.None? ==> forall q :: 0 <= q <= idx ==> UnitAt(tokens, q).None?
    decreases idx + 1
  {
    if idx < 0 then None
    else if UnitAt(tokens, idx).Some? then Some(idx)
    else LastUnit(tokens, idx - 1)
  }

  /** The unit of the non-price tokens and the tokens left for the description. */
  function SplitUnit(tokens: seq<string>): (r: (Option<string>, seq<string>))
    ensures r.0.None? ==> r.1 == tokens
    ensures r.0.Some? ==> |tokens| - 2 <= |r.1| < |tokens|
  {
    if tokens == [] then (None, tokens)
    else match LastUnit(tokens, |tokens| - 1)
      case None => (None, tokens)
      case Some(p) =>
        var (u, n) := UnitAt(tokens, p).value;
        (Some(u), tokens[..p] + tokens[p + n..])
  }

  /**
   * The unit comes from the last index where one is found, and exactly the tokens it spans
   * leave the description; when none is found, no index holds a unit.
   */
  lemma UnitIsLast(tokens: seq<string>)
    ensures SplitUnit(tokens).0.None? ==> forall q :: 0 <= q < |tokens| ==> UnitAt(tokens, q).None?
    ensures SplitUnit(tokens).0.Some? ==>
      exists p :: 0 <= p < |tokens| && UnitAt(tokens, p).Some?
        && SplitUnit(tokens) == (Some(UnitAt(tokens, p).value.0), tokens[..p] + tokens[p + UnitAt(tokens, p).value.1..])
        && forall q :: p < q < |tokens| ==> UnitAt(tokens, q).None?
  {
  }

  /** The `while idx >= 0` search: from the last token back, deleting the unit's tokens in place. */
  method FindUnit(tokens: seq<string>) returns (unit: Option<string>, rest: seq<string>)
    ensures (unit, rest) == SplitUnit(tokens)
  {
    unit := None;
    rest := tokens;
    if tokens == [] {
      return;
    }
    var idx: int := |tokens| - 1;
    while idx >= 0
      invariant -1 <= idx < |tokens|
      invariant unit == None && rest == tokens
      invariant LastUnit(tokens, |tokens| - 1) == LastUnit(tokens, idx)
      decreases idx + 1
    {
      var hi := PairEnd(rest, idx);
      var candidate := Text.Upper(Text.Join(" ", rest[idx..hi]));
      var single := Text.Upper(rest[idx]);
      if candidate in UnitTokens {
        unit := Some(Text.Title(candidate));
        rest := rest[..idx] + rest[hi..];
        return;
      }
      if single in UnitTokens {
        unit := Some(Text.Title(single));
        rest := rest[..idx] + rest[idx + 1..];
        return;
      }
      idx := idx - 1;
    }
  }

  /** The tokens that are not prices, in order. */
  function NonPrices(tokens: seq<string>): (r: seq<string>)
    ensures |r| <= |tokens|
    ensures forall k :: 0 <= k < |r| ==> r[k] in tokens && !IsPriceToken(r[k])
  {
    if tokens == [] then []
    else (if IsPriceToken(tokens[0]) then [] else [tokens[0]]) + NonPrices(tokens[1..])
  }

  /** `" ".join(tokens).strip() if tokens else None`, then `.strip()` again if non-empty. */
  function Description(tokens: seq<string>): Option<string> {
    if tokens == [] then None
    else
      var d := Text.Strip(Text.Join(" ", tokens));
      if d == [] then None else Some(Text.Strip(d))
  }

  /** For words the strips change nothing: the description is the words joined by single spaces. */
  lemma DescriptionOfWords(tokens: seq<string>)
    requires forall k :: 0 <= k < |tokens| ==> tokens[k] != [] && Text.NoSpace(tokens[k])
    ensures Description(tokens) == if tokens == [] then None else Some(Text.Join(" ", tokens))
  {
    if tokens != [] {
      var j := Text.Join(" ", tokens);
      Text.JoinEnds(" ", tokens);
      var lastWord := tokens[|tokens| - 1];
      assert !Text.IsSpace(lastWord[|lastWord| - 1]);
      Text.StripTrimmed(j);
    }
  }

  /** The first price, when there is one. */
  function FirstPrice(prices: seq<real>): (r: Option<real>)
    ensures r.Some? <==> prices != []
  {
    if prices == [] then None else Some(prices[0])
  }

  /** The second price if there are two or more, else the first, else None. */
  function TotalPrice(prices: seq<real>): (r: Option<real>)
    ensures r.Some? <==> prices != []
  {
    if |prices| > 1 then Some(prices[1]) else FirstPrice(prices)
  }

  /** unit_price is the first price; total_price the second, or the first when it is alone. */
  lemma PriceSelection(prices: seq<real>)
    ensures |prices| == 1 ==> FirstPrice(prices) == TotalPrice(prices) == Some(prices[0])
    ensures |prices| >= 2 ==> FirstPrice(prices) == Some(prices[0]) && TotalPrice(prices) == Some(prices[1])
    ensures prices == [] ==> FirstPrice(prices).None? && TotalPrice(prices).None?
  {
  }

  /** The item a matching line gives, with its unit search done by `unitSplit`. */
  function ItemOf(p: LineParts, unitSplit: (Option<string>, seq<string>)): BidItem {
    var prices := Prices(p.remainder);
    BidItem(Some(p.itemNumber), Some(p.itemCode), Description(unitSplit.1), ParseDecimal(p.quantity),
            unitSplit.0, FirstPrice(prices), TotalPrice(prices))
  }

  /** The item of one stripped line, if it matches the item-line pattern. */
  function LineItem(line: string): (r: Option<BidItem>)
    ensures r.Some? <==> MatchLine(line).Some?
    ensures r.Some? ==> |line| >= 5 && r.value.itemNumber == Some(line[..4]) && Text.AllDigits(line[..4])
  {
    match MatchLine(line)
    case None => None
    case Some(p) => Some(ItemOf(p, SplitUnit(NonPrices(Text.SplitWs(p.remainder)))))
  }

  /** The stripped non-blank lines of the text, in order. */
  function Lines(text: string): (r: seq<string>)
    ensures |r| <= |Text.SplitLines(text)|
  {
    NonBlank(Text.SplitLines(text))
  }

  function NonBlank(lines: seq<string>): (r: seq<string>)
    ensures |r| <= |lines|
  {
    if lines == [] then []
    else
      var s := Text.Strip(lines[0]);
      (if s != [] then [s] else []) + NonBlank(lines[1..])
  }

  /** The items `parse` gives for the lines, in line order; a line it rejects gives none. */
  function CollectItems(lines: seq<string>, parse: string -> Option<BidItem>): (r: seq<BidItem>)
    ensures |r| <= |lines|
    decreases |lines|
  {
    if lines == [] then []
    else
      var last := parse(lines[|lines| - 1]);
      CollectItems(lines[..|lines| - 1], parse) + (if last.Some? then [last.value] else [])
  }

  /** One more line adds its item, if it has one. */
  lemma CollectStep(lines: seq<string>, i: nat, parse: string -> Option<BidItem>)
    requires i < |lines|
    ensures CollectItems(lines[..i + 1], parse)
      == CollectItems(lines[..i], parse) + (if parse(lines[i]).Some? then [parse(lines[i]).value] else [])
  {
    assert lines[..i + 1][..i] == lines[..i];
  }

  /** `_extract_bid_items_from_text`: the items of the stripped non-blank lines. */
  function TextItems(text: string): (r: seq<BidItem>)
    ensures text == "" ==> r == []
    ensures |r| <= |Lines(text)|
  {
    if text == "" then [] else CollectItems(Lines(text), LineItem)
  }

  /** Lines that all fail give no item; lines that all match give one item each, in order. */
  lemma {:induction false} ItemsComeFromMatchingLines(lines: seq<string>, parse: string -> Option<BidItem>)
    ensures (forall k :: 0 <= k < |lines| ==> parse(lines[k]).None?) ==> CollectItems(lines, parse) == []
    ensures (forall k :: 0 <= k < |lines| ==> parse(lines[k]).Some?) ==>
      |CollectItems(lines, parse)| == |lines|
      && forall k :: 0 <= k < |lines| ==> CollectItems(lines, parse)[k] == parse(lines[k]).value
    decreases |lines|
  {
    if lines != [] {
      ItemsComeFromMatchingLines(lines[..|lines| - 1], parse);
    }
  }

  /** A property every item `parse` gives holds of every collected item. */
  lemma {:induction false} CollectKeeps(lines: seq<string>, parse: string -> Option<BidItem>, ok: BidItem -> bool)
    requires forall k :: 0 <= k < |lines| && parse(lines[k]).Some? ==> ok(parse(lines[k]).value)
    ensures forall k :: 0 <= k < |CollectItems(lines, parse)| ==> ok(CollectItems(lines, parse)[k])
    decreases |lines|
  {
    if lines != [] {
      CollectKeeps(lines[..|lines| - 1], parse, ok);
    }
  }

  /** Every text item carries the four digits that start its line as its item number. */
  lemma TextItemsNumbered(text: string)
    ensures forall k :: 0 <= k < |TextItems(text)| ==>
      var n := TextItems(text)[k].itemNumber; n.Some? && |n.value| == 4 && Text.AllDigits(n.value)
  {
    if text != "" {
      var lines := Lines(text);
      CollectKeeps(lines, LineItem, (it: BidItem) => it.itemNumber.Some? && |it.itemNumber.value| == 4 && Text.AllDigits(it.itemNumber.value));
    }
  }

  /** The item of one line, with the unit search run as the source's loop. */
  method ParseItemLine(line: string) returns (r: Option<BidItem>)
    ensures r == LineItem(line)
  {
    var m := MatchLine(line);
    if m.None? {
      return None;
    }
    var p := m.value;
    var unit, rest := FindUnit(NonPrices(Text.SplitWs(p.remainder)));
    return Some(ItemOf(p, (unit, rest)));
  }

  /** `_extract_bid_items_from_text`, appending one item per matching line. */
  method ExtractBidItemsFromText(text: string) returns (items: seq<BidItem>)
    ensures items == TextItems(text)
  {
    if text == "" {
      return [];
    }
    var lines := Lines(text);
    items := [];
    var i := 0;
    while i < |lines|
      invariant 0 <= i <= |lines|
      invariant items == CollectItems(lines[..i], LineItem)
    {
      var it := ParseItemLine(lines[i]);
      CollectStep(lines, i, LineItem);
      if it.Some? {
        items := items + [it.value];
      }
      i := i + 1;
    }
    assert lines[..i] == lines;
  }

  // ---------------------------------------------------------------------------------------
  // Bidders

  /** A match of the bidder pattern: its two groups, stripped, and where the match ends. */
  datatype BidderMatch = BidderMatch(name: string, location: string, end: nat)

  /**
   * A match of the total pattern: where it starts, and what `float` gives for its amount
   * group with the commas removed (None when it raises ValueError).
   */
  datatype TotalMatch = TotalMatch(start: nat, amount: Option<real>)

  /**
   * What the regular expressions find in a text: the bidder and total matches in text order,
   * and for each line of the ranking section (none when there is no such section) the rank
   * number the line pattern reads, or None when the line does not match.
   */
  datatype BidderScan = BidderScan(bidders: seq<BidderMatch>, totals: seq<TotalMatch>, rankLines: seq<Option<nat>>)

  datatype Bidder = Bidder(name: string, location: string, totalBidAmount: Option<real>, bidRank: int)

  /** A total that qualifies for a bidder ending at `end`: it starts later and its amount parses. */
  predicate Qualifies(t: TotalMatch, end: nat) {
    t.start > end && t.amount.Some?
  }

  /** The amount of the first qualifying total, if any. */
  function TotalAfter(totals: seq<TotalMatch>, end: nat): (r: Option<real>)
    ensures r.None? <==> forall k :: 0 <= k < |totals| ==> !Qualifies(totals[k], end)
    ensures r.Some? ==> exists k :: (0 <= k < |totals| && Qualifies(totals[k], end)
                                     && r == totals[k].amount
                                     && forall j :: 0 <= j < k ==> !Qualifies(totals[j], end))
  {
    if totals == [] then None
    else if Qualifies(totals[0], end) then totals[0].amount
    else
      var r := TotalAfter(totals[1..], end);
      assert forall j :: 1 <= j < |totals| ==> totals[j] == totals[1..][j - 1];
      r
  }

  /** The inner `for total_match in total_matches` loop, which breaks at the first total that parses. */
  method FindTotal(totals: seq<TotalMatch>, end: nat) returns (amount: Option<real>)
    ensures amount == TotalAfter(totals, end)
  {
    amount := None;
    var k := 0;
    while k < |totals|
      invariant 0 <= k <= |totals|
      invariant amount == None
      invariant TotalAfter(totals, end) == TotalAfter(totals[k..], end)
    {
      assert totals[k..][1..] == totals[k + 1..];
      if totals[k].start > end {
        var parsed := totals[k].amount;
        if parsed.Some? {
          amount := parsed;
          return;
        }
      }
      k := k + 1;
    }
  }

  /** The bidder a match gives before the ranking section is read: its rank is its position. */
  function BidderOf(m: BidderMatch, totals: seq<TotalMatch>, position: nat): Bidder {
    Bidder(m.name, m.location, TotalAfter(totals, m.end), position + 1)
  }

  /** The rank line `idx` assigns, if it matched and there is a bidder at that index. */
  function RankOverride(rankLines: seq<Option<nat>>, idx: nat, rank: int): int {
    if idx < |rankLines| && rankLines[idx].Some? then rankLines[idx].value else rank
  }

  /** `_extract_bidders_from_text` */
  function BiddersOf(scan: BidderScan): (r: seq<Bidder>)
    ensures |r| == |scan.bidders|
  {
    seq(|scan.bidders|, i requires 0 <= i < |scan.bidders| =>
      var b := BidderOf(scan.bidders[i], scan.totals, i);
      b.(bidRank := RankOverride(scan.rankLines, i, b.bidRank)))
  }

  /**
   * Every bidder keeps its name, location and total, and its rank is its 1-based position
   * unless the ranking-section line of the same index matched; lines past the last bidder
   * are ignored.
   */
  lemma RankRule(scan: BidderScan, i: nat)
    requires i < |scan.bidders|
    ensures var b := BiddersOf(scan)[i];
      b.name == scan.bidders[i].name && b.location == scan.bidders[i].location && b.totalBidAmount == TotalAfter(scan.totals, scan.bidders[i].end)
      && b.bidRank == if i < |scan.rankLines| && scan.rankLines[i].Some? then scan.rankLines[i].value else i + 1
  {
  }

  /** Without a ranking section every rank is the bidder's position, so the ranks are 1, 2, 3, ... */
  lemma DefaultRanks(scan: BidderScan)
    requires scan.rankLines == []
    ensures forall i :: 0 <= i < |BiddersOf(scan)| ==> BiddersOf(scan)[i].bidRank == i + 1
  {
  }

  /** One bidder of the outer loop: its total found by the inner loop. */
  method MakeBidder(m: BidderMatch, totals: seq<TotalMatch>, position: nat) returns (b: Bidder)
    ensures b == BidderOf(m, totals, position)
  {
    var amount := FindTotal(totals, m.end);
    b := Bidder(m.name, m.location, amount, position + 1);
  }

  /** The bidders of the first `n` matches, before the ranking section is read. */
  function Collected(ms: seq<BidderMatch>, totals: seq<TotalMatch>, n: nat): (r: seq<Bidder>)
    requires n <= |ms|
    ensures |r| == n
  {
    if n == 0 then [] else Collected(ms, totals, n - 1) + [BidderOf(ms[n - 1], totals, n - 1)]
  }

  lemma {:induction false} CollectedAt(ms: seq<BidderMatch>, totals: seq<TotalMatch>, n: nat, k: nat)
    requires k < n <= |ms|
    ensures Collected(ms, totals, n)[k] == BidderOf(ms[k], totals, k)
  {
    if k < n - 1 {
      CollectedAt(ms, totals, n - 1, k);
    }
  }

  /** The bidders of the matches, by the outer loop of `_extract_bidders_from_text`. */
  method CollectBidders(scan: BidderScan) returns (bidders: seq<Bidder>)
    ensures bidders == Collected(scan.bidders, scan.totals, |scan.bidders|)
  {
    bidders := [];
    var i := 0;
    while i < |scan.bidders|
      invariant 0 <= i <= |scan.bidders|
      invariant bidders == Collected(scan.bidders, scan.totals, i)
    {
      var b := MakeBidder(scan.bidders[i], scan.totals, i);
      bidders := bidders + [b];
      i := i + 1;
    }
  }

  /** The ranking-section loop: `bidders[idx]["bid_rank"] = rank` for each matching line below the bidder count. */
  method ApplyRanks(bidders: array<Bidder>, rankLines: seq<Option<nat>>)
    modifies bidders
    ensures forall i :: 0 <= i < bidders.Length ==>
      bidders[i] == old(bidders[i]).(bidRank := RankOverride(rankLines, i, old(bidders[i]).bidRank))
  {
    var idx := 0;
    while idx < |rankLines|
      invariant 0 <= idx <= |rankLines|
      invariant forall i :: 0 <= i < bidders.Length ==>
        bidders[i] == if i < idx then old(bidders[i]).(bidRank := RankOverride(rankLines, i, old(bidders[i]).bidRank)) else old(bidders[i])
    {
      if rankLines[idx].Some? && idx < bidders.Length {
        bidders[idx] := bidders[idx].(bidRank := rankLines[idx].value);
      }
      idx := idx + 1;
    }
  }

  /** `_extract_bidders_from_text`, imperatively: collect, then override ranks in place. */
  method ExtractBiddersFromText(scan: BidderScan) returns (r: seq<Bidder>)
    ensures r == BiddersOf(scan)
  {
    var collected := CollectBidders(scan);
    var bidders := new Bidder[|collected|](i requires 0 <= i < |collected| => collected[i]);
    ApplyRanks(bidders, scan.rankLines);
    r := bidders[..];
    forall i | 0 <= i < |r| ensures r[i] == BiddersOf(scan)[i] {
      CollectedAt(scan.bidders, scan.totals, |scan.bidders|, i);
    }
  }

  // ---------------------------------------------------------------------------------------
  // The two passes and `extract`

  /** One PDF page: its text (None when it has none) and its tables. */
  datatype Page = Page(text: Option<string>, tables: seq<Table>)

  datatype Extraction = Extraction(contractNumber: Option<string>, bidders: seq<Bidder>, bidItems: seq<BidItem>)

  /** The TypeError `re.search` raises on a None text. */
  const NoneTextError := "expected string or bytes-like object, got 'NoneType'"

  /** The items of the bid-items tables of one page, in table order. */
  function PageTableItems(tables: seq<Table>, parseFloat: string -> Option<real>): (r: seq<BidItem>)
    ensures (forall k :: 0 <= k < |tables| ==> !IsBidItemsTable(tables[k])) ==> r == []
  {
    if tables == [] then []
    else
      var t := tables[0];
      (if t != [] && IsBidItemsTable(t) then TableItems(t[1..], parseFloat) else []) + PageTableItems(tables[1..], parseFloat)
  }

  /**
   * The page loop of `_extract_with_pdfplumber`: the contract number of the first page whose
   * text gives one (the search raising on a None text while none is found yet), and the
   * table items of all pages in page order.
   */
  function ScanPages(pages: seq<Page>, parseFloat: string -> Option<real>): (r: Result<(Option<string>, seq<BidItem>)>)
    ensures pages == [] ==> r == Ok((None, []))
    decreases |pages|
  {
    if pages == [] then Ok((None, []))
    else
      match ScanPages(pages[..|pages| - 1], parseFloat)
      case Raised(e) => Raised(e)
      case Ok((number, items)) =>
        var page := pages[|pages| - 1];
        var more := items + PageTableItems(page.tables, parseFloat);
        if number.Some? then Ok((number, more))
        else if page.text.None? then Raised(NoneTextError)
        else Ok((ContractNumber(page.text.value), more))
  }

  /** `_extract_with_regex`: everything from the document text. */
  function WithRegex(text: Result<string>, scan: string -> BidderScan): (r: Result<Extraction>)
    ensures r.Raised? <==> text.Raised?
  {
    match text
    case Raised(e) => Raised(e)
    case Ok(t) => Ok(Extraction(ContractNumber(t), BiddersOf(scan(t)), TextItems(t)))
  }

  /**
   * `_extract_with_pdfplumber`: the pages scanned as above, bidders from the document text,
   * and text items only when the tables gave none. `pdf` is the opened document, or the
   * exception opening it raised.
   */
  function WithTables(pdf: Result<seq<Page>>, text: Result<string>, scan: string -> BidderScan,
                      parseFloat: string -> Option<real>): (r: Result<Extraction>)
    ensures pdf.Raised? || text.Raised? ==> r.Raised?
  {
    match pdf
    case Raised(e) => Raised(e)
    case Ok(pages) =>
      match ScanPages(pages, parseFloat)
      case Raised(e) => Raised(e)
      case Ok((number, items)) =>
        match text
        case Raised(e) => Raised(e)
        case Ok(t) => Ok(Extraction(number, BiddersOf(scan(t)), if items == [] then TextItems(t) else items))
  }

  /** `extract`: the table pass when it succeeds with bidders or items, else the text pass. */
  function Extract(pdf: Result<seq<Page>>, text: Result<string>, scan: string -> BidderScan,
                   parseFloat: string -> Option<real>): (r: Result<Extraction>)
    ensures r.Raised? <==> text.Raised?
    ensures WithTables(pdf, text, scan, parseFloat).Raised? ==> r == WithRegex(text, scan)
  {
    var tables := WithTables(pdf, text, scan, parseFloat);
    if tables.Ok? && (tables.value.bidders != [] || tables.value.bidItems != []) then tables
    else WithRegex(text, scan)
  }

  /** Both passes read the bidders from the document text the same way. */
  lemma ExtractBidders(pdf: Result<seq<Page>>, text: Result<string>, scan: string -> BidderScan,
                       parseFloat: string -> Option<real>)
    requires text.Ok?
    ensures Extract(pdf, text, scan, parseFloat).Ok?
    ensures Extract(pdf, text, scan, parseFloat).value.bidders == BiddersOf(scan(text.value))
  {
  }

  /**
   * When the document opens, its texts carry no None before a contract number is found, and
   * its tables give items, `extract` returns those table items.
   */
  lemma TableItemsWin(pages: seq<Page>, text: string, scan: string -> BidderScan, parseFloat: string -> Option<real>)
    requires ScanPages(pages, parseFloat).Ok? && ScanPages(pages, parseFloat).value.1 != []
    ensures Extract(Ok(pages), Ok(text), scan, parseFloat)
      == Ok(Extraction(ScanPages(pages, parseFloat).value.0, BiddersOf(scan(text)), ScanPages(pages, parseFloat).value.1))
  {
  }

  /** When the tables give nothing, the items always come from the text, whichever pass is used. */
  lemma NoTableItemsUsesText(pdf: Result<seq<Page>>, text: string, scan: string -> BidderScan,
                             parseFloat: string -> Option<real>)
    requires pdf.Ok? ==> ScanPages(pdf.value, parseFloat).Ok? ==> ScanPages(pdf.value, parseFloat).value.1 == []
    ensures Extract(pdf, Ok(text), scan, parseFloat).value.bidItems == TextItems(text)
  {
  }
}
