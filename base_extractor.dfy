/**
 * The extractor base class: page text from the PDF reader, the text statistics attached to
 * every extraction, the success/failed result envelope of `run_extraction`, and the
 * completeness-based confidence score.
 *
 * The PDF reader is abstract: a document is either unreadable (the reader raises) or the
 * sequence of what `page.extract_text()` returns for each page, which may be None.
 */
module BaseExtractor {
  import opened Wrappers
  import opened Values
  import Text

  datatype Document = Unreadable(reason: string) | Pages(pages: seq<Option<string>>)

  /** The TypeError Python raises for `None + "\n"`. */
  const NoneConcatError := "unsupported operand type(s) for +: 'NoneType' and 'str'"

  predicate AllPagesHaveText(pages: seq<Option<string>>) {
    forall i :: 0 <= i < |pages| ==> pages[i].Some?
  }

  function TotalLength(pages: seq<Option<string>>): nat
    decreases |pages|
  {
    if pages == [] then 0
    else TotalLength(pages[..|pages| - 1]) + |pages[|pages| - 1].GetOr("")|
  }

  /** The concatenation `extract_text` builds: each page's text followed by "\n", in page order. */
  function JoinPages(pages: seq<Option<string>>): (r: Result<string>)
    ensures r.Ok? <==> AllPagesHaveText(pages)
    ensures r.Raised? ==> r.error == NoneConcatError
    ensures r.Ok? ==> |r.value| == TotalLength(pages) + |pages|
    ensures r.Ok? && pages != [] ==> Text.EndsWith(r.value, pages[|pages| - 1].value + "\n")
    decreases |pages|
  {
    if pages == [] then Ok("")
    else
      var prefix := pages[..|pages| - 1];
      assert forall i :: 0 <= i < |prefix| ==> prefix[i] == pages[i];
      match JoinPages(prefix)
      case Raised(e) => Raised(e)
      case Ok(t) =>
        match pages[|pages| - 1]
        case None => Raised(NoneConcatError)
        case Some(p) =>
          var r := t + p + "\n";
          assert r[|r| - |p + "\n"|..] == p + "\n";
          Ok(r)
  }

  /** `extract_text`: the page texts joined as above; a reader error is re-raised. */
  method ExtractText(doc: Document) returns (r: Result<string>)
    ensures doc.Unreadable? ==> r == Raised(doc.reason)
    ensures doc.Pages? ==> r == JoinPages(doc.pages)
  {
    if doc.Unreadable? {
      return Raised(doc.reason);
    }
    var pages := doc.pages;
    var text := "";
    var i := 0;
    while i < |pages|
      invariant 0 <= i <= |pages|
      invariant JoinPages(pages[..i]) == Ok(text)
    {
      assert pages[..i + 1][..i] == pages[..i];
      if pages[i].None? {
        return Raised(NoneConcatError);
      }
      text := text + pages[i].value + "\n";
      i := i + 1;
    }
    assert pages[..i] == pages;
    return Ok(text);
  }

  /**
   * `extract_text_from_page`: Python list indexing, so a negative page number counts from the
   * end; a number at or past the page count raises ValueError, one before the first page
   * raises IndexError.
   */
  function ExtractTextFromPage(doc: Document, pageNum: int): (r: Result<Option<string>>)
    ensures doc.Pages? && 0 <= pageNum < |doc.pages| ==> r == Ok(doc.pages[pageNum])
    ensures doc.Pages? && -|doc.pages| <= pageNum < 0 ==> r == Ok(doc.pages[|doc.pages| + pageNum])
    ensures doc.Pages? && pageNum >= |doc.pages| ==> r == Raised("Page " + Text.IntToString(pageNum) + " does not exist")
    ensures r.Ok? <==> doc.Pages? && -|doc.pages| <= pageNum < |doc.pages|
  {
    match doc
    case Unreadable(e) => Raised(e)
    case Pages(pages) =>
      if pageNum >= |pages| then Raised("Page " + Text.IntToString(pageNum) + " does not exist")
      else if pageNum >= 0 then Ok(pages[pageNum])
      else if pageNum >= -|pages| then Ok(pages[|pages| + pageNum])
      else Raised("list index out of range")
  }

  datatype TextStats = TextStats(textLength: nat, pagesWithContent: nat, pageCount: nat)

  /** A page counts as having content when its text (None read as "") is not blank. */
  predicate HasContent(page: Option<string>) {
    !Text.IsBlank(page.GetOr(""))
  }

  /** The statistics of a sequence of pages. */
  function PageStats(pages: seq<Option<string>>): (r: TextStats)
    ensures r.pageCount == |pages|
    ensures r.pagesWithContent <= r.pageCount
    ensures r.pagesWithContent <= r.textLength
    ensures r.pagesWithContent == 0 <==> forall i :: 0 <= i < |pages| ==> !HasContent(pages[i])
    decreases |pages|
  {
    if pages == [] then TextStats(0, 0, 0)
    else
      var prefix := pages[..|pages| - 1];
      var s := PageStats(prefix);
      var p := pages[|pages| - 1];
      assert forall i :: 0 <= i < |prefix| ==> prefix[i] == pages[i];
      if HasContent(p) then TextStats(s.textLength + |p.GetOr("")|, s.pagesWithContent + 1, s.pageCount + 1)
      else TextStats(s.textLength, s.pagesWithContent, s.pageCount + 1)
  }

  /**
   * The text length counts only pages with content, so it is the summed length of those pages;
   * with no page of content it is 0.
   */
  lemma {:induction false} TextLengthOnlyFromContent(pages: seq<Option<string>>)
    ensures PageStats(pages).pagesWithContent == 0 ==> PageStats(pages).textLength == 0
    ensures PageStats(pages).textLength <= TotalLength(pages)
    decreases |pages|
  {
    if pages != [] {
      TextLengthOnlyFromContent(pages[..|pages| - 1]);
    }
  }

  /** `_extract_text_stats`: the statistics of the pages, all zeros when the reader fails. */
  function TextStatsOf(doc: Document): (r: TextStats)
    ensures doc.Unreadable? ==> r == TextStats(0, 0, 0)
    ensures doc.Pages? ==> r.pageCount == |doc.pages|
    ensures r.pagesWithContent <= r.pageCount
  {
    match doc
    case Unreadable(_) => TextStats(0, 0, 0)
    case Pages(pages) => PageStats(pages)
  }

  /** `_extract_text_stats` as the loop over the pages. */
  method ExtractTextStats(doc: Document) returns (r: TextStats)
    ensures r == TextStatsOf(doc)
  {
    if doc.Unreadable? {
      return TextStats(0, 0, 0);
    }
    var pages := doc.pages;
    var textLength: nat := 0;
    var pagesWithText: nat := 0;
    var i := 0;
    while i < |pages|
      invariant 0 <= i <= |pages|
      invariant PageStats(pages[..i]) == TextStats(textLength, pagesWithText, i)
    {
      assert pages[..i + 1][..i] == pages[..i];
      var pageText := pages[i].GetOr("");
      if !Text.IsBlank(pageText) {
        pagesWithText := pagesWithText + 1;
        textLength := textLength + |pageText|;
      }
      i := i + 1;
    }
    assert pages[..i] == pages;
    return TextStats(textLength, pagesWithText, |pages|);
  }

  /** The example of the text-statistics test: an empty page and one page of text. */
  lemma StatsOfEmptyAndTextPage()
    ensures TextStatsOf(Pages([Some(""), Some("Some text")])) == TextStats(9, 1, 2)
  {
    var pages := [Some(""), Some("Some text")];
    assert !Text.IsSpace("Some text"[0]);
    assert pages[..1] == [Some("")];
    assert PageStats(pages[..1]) == TextStats(0, 0, 1);
  }

  function StatsFields(s: TextStats): Fields {
    [("text_length", Num(s.textLength as real)), ("text_pages_with_content", Num(s.pagesWithContent as real)),
     ("text_page_count", Num(s.pageCount as real))]
  }

  /**
   * `run_extraction`: `extract()` either returns the data or raises; either way the result is
   * an envelope with status, data and metadata (file path, extraction method, processing time and
   * the text statistics), and a failure carries the error text. `processingTime` is the elapsed
   * time the source measures.
   */
  function RunExtraction(filePath: string, extractionMethod: string, extracted: Result<Value>,
                          doc: Document, processingTime: real): (r: Fields)
    ensures GetOrNull(r, "status") == Str(if extracted.Ok? then "success" else "failed")
    ensures GetOrNull(r, "data") == if extracted.Ok? then extracted.value else Null
    ensures HasKey(r, "error") <==> extracted.Raised?
    ensures extracted.Raised? ==> GetOrNull(r, "error") == Str(extracted.error)
    ensures Get(r, "metadata") == Some(Obj(EnvelopeMetadata(filePath, extractionMethod, processingTime, TextStatsOf(doc))))
  {
    var meta := Obj(EnvelopeMetadata(filePath, extractionMethod, processingTime, TextStatsOf(doc)));
    match extracted
    case Ok(data) => SuccessEnvelope(data, meta)
    case Raised(e) => FailedEnvelope(e, meta)
  }

  function SuccessEnvelope(data: Value, meta: Value): (r: Fields)
    ensures GetOrNull(r, "status") == Str("success") && GetOrNull(r, "data") == data
    ensures !HasKey(r, "error") && Get(r, "metadata") == Some(meta)
  {
    var r := [("status", Str("success")), ("data", data), ("metadata", meta)];
    GetAtLength(r, 0);
    GetAtLength(r, 1);
    GetAtLength(r, 2);
    NotKey(r, "error");
    r
  }

  function FailedEnvelope(e: string, meta: Value): (r: Fields)
    ensures GetOrNull(r, "status") == Str("failed") && GetOrNull(r, "data") == Null
    ensures GetOrNull(r, "error") == Str(e) && Get(r, "metadata") == Some(meta)
  {
    var r := [("status", Str("failed")), ("data", Null), ("error", Str(e)), ("metadata", meta)];
    GetAtLength(r, 0);
    GetAtLength(r, 1);
    GetAtLength(r, 2);
    GetAtLength(r, 3);
    r
  }

  function EnvelopeMetadata(filePath: string, extractionMethod: string, processingTime: real, s: TextStats): (r: Fields)
    ensures GetOrNull(r, "text_length") == Num(s.textLength as real)
    ensures GetOrNull(r, "text_pages_with_content") == Num(s.pagesWithContent as real)
  {
    var r := [("file_path", Str(filePath)), ("extraction_method", Str(extractionMethod)),
              ("processing_time", Num(processingTime))] + StatsFields(s);
    MetaLookup(r, StatsFields(s), "text_length");
    MetaLookup(r, StatsFields(s), "text_pages_with_content");
    StatLookup(StatsFields(s), 0, "text_length");
    StatLookup(StatsFields(s), 1, "text_pages_with_content");
    r
  }

  /** The first two statistics keys differ in length, so each finds its own entry. */
  lemma StatLookup(stats: Fields, i: nat, k: string)
    requires i < 2 <= |stats| && stats[i].0 == k && |stats[0].0| != |stats[1].0|
    ensures Get(stats, k) == Some(stats[i].1)
  {
    GetAt(stats, i);
  }

  /** The statistics keys are looked up past the three leading metadata entries. */
  lemma MetaLookup(r: Fields, stats: Fields, k: string)
    requires |r| == 3 + |stats| && r[3..] == stats
    requires r[0].0 == "file_path" && r[1].0 == "extraction_method" && r[2].0 == "processing_time"
    requires |k| == 11 || |k| == 23
    ensures Get(r, k) == Get(stats, k)
  {
    GetSkip(r, k);
    GetSkip(r[1..], k);
    assert r[1..][1..][1..] == r[3..];
    GetSkip(r[1..][1..], k);
  }

  /** A value `calculate_confidence_score` counts as filled: neither None nor "". */
  predicate ConfidenceFilled(v: Value) {
    v != Null && v != Str("")
  }

  function CountConfidenceFilled(vs: seq<Value>): (r: nat)
    ensures r <= |vs|
    ensures r == 0 <==> forall i :: 0 <= i < |vs| ==> !ConfidenceFilled(vs[i])
    ensures r == |vs| <==> forall i :: 0 <= i < |vs| ==> ConfidenceFilled(vs[i])
    decreases |vs|
  {
    if vs == [] then 0
    else
      var rest := CountConfidenceFilled(vs[1..]);
      assert forall i :: 1 <= i < |vs| ==> vs[1..][i - 1] == vs[i];
      (if ConfidenceFilled(vs[0]) then 1 else 0) + rest
  }

  /**
   * `calculate_confidence_score`: 0.0 for empty or None data, otherwise the fraction of the
   * dict's values that are filled. Truthy data that is not a dict raises: a number or True at `len()`,
   * a string or a list at `values()`.
   */
  function ConfidenceScore(data: Value): (r: Result<real>)
    ensures r.Raised? <==> Truthy(data) && !data.Obj?
    ensures Truthy(data) && !Sized(data) ==> r == Raised(NoLenError)
    ensures Truthy(data) && Sized(data) && !data.Obj? ==> r == Raised(NoValuesError)
    ensures r.Ok? ==> 0.0 <= r.value <= 1.0
    ensures !Truthy(data) ==> r == Ok(0.0)
    ensures data.Obj? && data.fields != [] ==>
      (r == Ok(1.0) <==> forall i :: 0 <= i < |data.fields| ==> ConfidenceFilled(data.fields[i].1))
    ensures data.Obj? ==>
      (r == Ok(0.0) <==> forall i :: 0 <= i < |data.fields| ==> !ConfidenceFilled(data.fields[i].1))
    ensures data.Obj? && data.fields != [] ==>
      r == Ok(CountConfidenceFilled(ValuesOf(data.fields)) as real / |data.fields| as real)
  {
    if !Truthy(data) then Ok(0.0)
    else if data.Obj? then
      var vs := ValuesOf(data.fields);
      var filled := CountConfidenceFilled(vs);
      var total := |data.fields|;
      RatioBounds(filled, total);
      Ok(filled as real / total as real)
    else if !Sized(data) then Raised(NoLenError)
    else Raised(NoValuesError)
  }

  /** Replacing one value changes the filled count by what the old value took away and the new one adds. */
  lemma {:induction false} CountConfidenceFilledUpdate(vs: seq<Value>, i: nat, v: Value)
    requires i < |vs|
    ensures CountConfidenceFilled(vs[i := v]) + (if ConfidenceFilled(vs[i]) then 1 else 0)
         == CountConfidenceFilled(vs) + (if ConfidenceFilled(v) then 1 else 0)
    decreases |vs|
  {
    if i == 0 {
      assert vs[i := v][1..] == vs[1..];
    } else {
      assert vs[i := v][1..] == vs[1..][i - 1 := v];
      CountConfidenceFilledUpdate(vs[1..], i - 1, v);
    }
  }

  /**
   * Replacing a None or "" value of a dict never lowers its confidence, and filling it raises the
   * confidence strictly.
   */
  lemma ConfidenceMonotone(f: Fields, i: nat, v: Value)
    requires i < |f| && !ConfidenceFilled(f[i].1)
    ensures ConfidenceScore(Obj(f)).Ok? && ConfidenceScore(Obj(f[i := (f[i].0, v)])).Ok?
    ensures ConfidenceScore(Obj(f)).value <= ConfidenceScore(Obj(f[i := (f[i].0, v)])).value
    ensures ConfidenceFilled(v) ==>
      ConfidenceScore(Obj(f)).value < ConfidenceScore(Obj(f[i := (f[i].0, v)])).value
  {
    var g := f[i := (f[i].0, v)];
    assert ValuesOf(g) == ValuesOf(f)[i := v];
    CountConfidenceFilledUpdate(ValuesOf(f), i, v);
    RatioStep(CountConfidenceFilled(ValuesOf(f)), CountConfidenceFilled(ValuesOf(g)), |f|);
  }

  /** Of two counts out of the same positive total, the larger gives the larger ratio. */
  lemma RatioStep(a: nat, b: nat, total: nat)
    requires 0 < total
    ensures a <= b ==> a as real / total as real <= b as real / total as real
    ensures a < b ==> a as real / total as real < b as real / total as real
  {
    var n := total as real;
    assert (b as real / n - a as real / n) * n == b as real - a as real;
  }

  /** A count out of a positive total is a ratio in [0, 1], 0 and 1 exactly at the ends. */
  lemma RatioBounds(filled: nat, total: nat)
    requires 0 < total && filled <= total
    ensures 0.0 <= filled as real / total as real <= 1.0
    ensures filled as real / total as real == 0.0 <==> filled == 0
    ensures filled as real / total as real == 1.0 <==> filled == total
  {
    var q := filled as real / total as real;
    assert q * total as real == filled as real;
  }
}
