/**
 * The S3 ingestor and loader: listing the PDF keys under the raw prefix (with an optional cap),
 * downloading them into a local directory, mapping local paths back to keys, uploading the
 * results file and moving a processed source object to the processed or error prefix.
 *
 * The S3 client is an object that answers listings from a fixed table and records every call
 * made on it, in order. The local file system is not modelled: a local path is its text.
 */
module S3 {
  import opened Wrappers
  import opened Values
  import Text

  /** An entry of a listing page's "Contents"; `key` is None when the entry has no "Key". */
  datatype Item = Item(key: Option<string>)

  /** One page of `list_objects_v2`; `contents` is None when the page has no "Contents". */
  datatype Page = Page(contents: Option<seq<Item>>)

  /** `item.get("Key", "")` */
  function ItemKey(it: Item): string {
    it.key.GetOr("")
  }

  /** The keys of a page's items, in order (`page.get("Contents", [])`). */
  function PageKeys(p: Page): (r: seq<string>)
    ensures |r| == |p.contents.GetOr([])|
  {
    var items := p.contents.GetOr([]);
    seq(|items|, i requires 0 <= i < |items| => ItemKey(items[i]))
  }

  /** The keys of all pages, page after page. */
  function AllKeys(pages: seq<Page>): seq<string>
    decreases |pages|
  {
    if pages == [] then [] else AllKeys(pages[..|pages| - 1]) + PageKeys(pages[|pages| - 1])
  }

  /** `key.lower().endswith(".pdf")` */
  predicate IsPdfKey(key: string) {
    Text.EndsWith(Text.Lower(key), ".pdf")
  }

  /** The PDF keys among `keys`, in their order. */
  function PdfKeys(keys: seq<string>): (r: seq<string>)
    ensures |r| <= |keys|
    ensures forall i :: 0 <= i < |r| ==> IsPdfKey(r[i]) && r[i] in keys
    ensures forall k :: k in keys && IsPdfKey(k) ==> k in r
    decreases |keys|
  {
    if keys == [] then []
    else
      var p := PdfKeys(keys[..|keys| - 1]);
      assert forall k :: k in keys <==> k in keys[..|keys| - 1] || k == keys[|keys| - 1];
      if IsPdfKey(keys[|keys| - 1]) then p + [keys[|keys| - 1]] else p
  }

  // ---------------------------------------------------------------------------------------------
  // list_pdf_keys, as a fold over the listed keys

  /** `self.max_items and len(keys) >= self.max_items` */
  predicate Capped(keys: seq<string>, maxItems: Option<int>) {
    maxItems.Some? && maxItems.value != 0 && |keys| >= maxItems.value
  }

  /** The state of the listing loop: still collecting, or returned. */
  datatype Listing = Collecting(keys: seq<string>) | Done(keys: seq<string>)

  /** One item of the loop: append a PDF key, then return once the cap is reached. */
  function Step(st: Listing, key: string, maxItems: Option<int>): Listing {
    if st.Done? then st
    else
      var keys := if IsPdfKey(key) then st.keys + [key] else st.keys;
      if Capped(keys, maxItems) then Done(keys) else Collecting(keys)
  }

  function FoldKeys(st: Listing, keys: seq<string>, maxItems: Option<int>): Listing
    decreases |keys|
  {
    if keys == [] then st else Step(FoldKeys(st, keys[..|keys| - 1], maxItems), keys[|keys| - 1], maxItems)
  }

  function FoldPages(st: Listing, pages: seq<Page>, maxItems: Option<int>): Listing
    decreases |pages|
  {
    if pages == [] then st else FoldKeys(FoldPages(st, pages[..|pages| - 1], maxItems), PageKeys(pages[|pages| - 1]), maxItems)
  }

  /** What `list_pdf_keys` returns for the listed pages. */
  function ListedKeys(pages: seq<Page>, maxItems: Option<int>): seq<string> {
    FoldPages(Collecting([]), pages, maxItems).keys
  }

  /** Folding a concatenation is folding its parts in turn. */
  lemma {:induction false} FoldKeysConcat(st: Listing, a: seq<string>, b: seq<string>, maxItems: Option<int>)
    ensures FoldKeys(st, a + b, maxItems) == FoldKeys(FoldKeys(st, a, maxItems), b, maxItems)
    decreases |b|
  {
    if b == [] {
      assert a + b == a;
    } else {
      assert (a + b)[..|a + b| - 1] == a + b[..|b| - 1];
      assert (a + b)[|a + b| - 1] == b[|b| - 1];
      FoldKeysConcat(st, a, b[..|b| - 1], maxItems);
    }
  }

  /** Folding page by page is folding all their keys. */
  lemma {:induction false} FoldPagesFlat(st: Listing, pages: seq<Page>, maxItems: Option<int>)
    ensures FoldPages(st, pages, maxItems) == FoldKeys(st, AllKeys(pages), maxItems)
    decreases |pages|
  {
    if pages != [] {
      var p := pages[..|pages| - 1];
      FoldPagesFlat(st, p, maxItems);
      FoldKeysConcat(st, AllKeys(p), PageKeys(pages[|pages| - 1]), maxItems);
    }
  }

  /** Once returned, later items change nothing. */
  lemma {:induction false} DoneStays(keys: seq<string>, rest: seq<string>, maxItems: Option<int>)
    ensures FoldKeys(Done(keys), rest, maxItems) == Done(keys)
    decreases |rest|
  {
    if rest != [] {
      DoneStays(keys, rest[..|rest| - 1], maxItems);
    }
  }

  /** Without a cap (None or 0), every PDF key is listed. */
  lemma {:induction false} UncappedFold(keys: seq<string>, maxItems: Option<int>)
    requires maxItems.None? || maxItems.value == 0
    ensures FoldKeys(Collecting([]), keys, maxItems) == Collecting(PdfKeys(keys))
    decreases |keys|
  {
    if keys != [] {
      UncappedFold(keys[..|keys| - 1], maxItems);
    }
  }

  /** With a positive cap, the loop returns the first `cap` PDF keys once there are that many. */
  lemma {:induction false} PositiveCapFold(keys: seq<string>, cap: int)
    requires cap > 0
    ensures FoldKeys(Collecting([]), keys, Some(cap)) ==
      if |PdfKeys(keys)| >= cap then Done(PdfKeys(keys)[..cap]) else Collecting(PdfKeys(keys))
    decreases |keys|
  {
    if keys != [] {
      var p := keys[..|keys| - 1];
      PositiveCapFold(p, cap);
      if |PdfKeys(p)| >= cap {
        assert PdfKeys(keys)[..cap] == PdfKeys(p)[..cap];
      }
    }
  }

  /** A negative cap is reached by the first item, whatever it is. */
  lemma NegativeCapFold(keys: seq<string>, cap: int)
    requires cap < 0 && keys != []
    ensures FoldKeys(Collecting([]), keys, Some(cap)) == Done(PdfKeys(keys[..1]))
  {
    var first := keys[..1];
    assert first[..0] == [];
    assert FoldKeys(Collecting([]), first, Some(cap)) == Done(PdfKeys(first));
    assert keys == first + keys[1..];
    FoldKeysConcat(Collecting([]), first, keys[1..], Some(cap));
    DoneStays(PdfKeys(first), keys[1..], Some(cap));
  }

  /** `list_pdf_keys` without a cap (None or 0): every PDF key of the listed pages, in page order. */
  lemma ListedUncapped(pages: seq<Page>, maxItems: Option<int>)
    requires maxItems.None? || maxItems.value == 0
    ensures ListedKeys(pages, maxItems) == PdfKeys(AllKeys(pages))
  {
    FoldPagesFlat(Collecting([]), pages, maxItems);
    UncappedFold(AllKeys(pages), maxItems);
  }

  /** `list_pdf_keys` with a positive cap: the first `cap` PDF keys, or all of them when there are fewer. */
  lemma ListedPositiveCap(pages: seq<Page>, cap: int)
    requires cap > 0
    ensures var pdf := PdfKeys(AllKeys(pages));
      ListedKeys(pages, Some(cap)) == pdf[..if |pdf| < cap then |pdf| else cap]
  {
    var pdf := PdfKeys(AllKeys(pages));
    FoldPagesFlat(Collecting([]), pages, Some(cap));
    PositiveCapFold(AllKeys(pages), cap);
    if |pdf| < cap {
      assert pdf[..|pdf|] == pdf;
    }
  }

  /** `list_pdf_keys` with a negative cap: the loop returns after the first item, whatever it is. */
  lemma ListedNegativeCap(pages: seq<Page>, cap: int)
    requires cap < 0
    ensures var all := AllKeys(pages);
      ListedKeys(pages, Some(cap)) == if all == [] then [] else PdfKeys(all[..1])
  {
    var all := AllKeys(pages);
    FoldPagesFlat(Collecting([]), pages, Some(cap));
    if all != [] {
      NegativeCapFold(all, cap);
    }
  }

  /** Every listed key is a PDF key of the listing, and a positive cap bounds how many there are. */
  lemma ListedKeysArePdf(pages: seq<Page>, maxItems: Option<int>)
    ensures forall i :: 0 <= i < |ListedKeys(pages, maxItems)| ==>
      IsPdfKey(ListedKeys(pages, maxItems)[i]) && ListedKeys(pages, maxItems)[i] in AllKeys(pages)
    ensures maxItems.Some? && maxItems.value > 0 ==> |ListedKeys(pages, maxItems)| <= maxItems.value
  {
    var all := AllKeys(pages);
    if maxItems.None? || maxItems.value == 0 {
      ListedUncapped(pages, maxItems);
    } else if maxItems.value > 0 {
      ListedPositiveCap(pages, maxItems.value);
      var pdf := PdfKeys(all);
      assert forall k :: k in pdf[..if |pdf| < maxItems.value then |pdf| else maxItems.value] ==> k in pdf;
    } else {
      ListedNegativeCap(pages, maxItems.value);
      if all != [] {
        assert forall k :: k in all[..1] ==> k in all;
      }
    }
  }

  lemma PdfKeysSnoc(keys: seq<string>, k: string)
    ensures PdfKeys(keys + [k]) == PdfKeys(keys) + (if IsPdfKey(k) then [k] else [])
  {
    assert (keys + [k])[..|keys|] == keys;
  }

  /** A key ending in ".pdf" in any case is a PDF key. */
  lemma PdfSuffixAnyCase(stem: string, suffix: string)
    requires |suffix| == 4 && suffix[0] == '.' && Text.LowerChar(suffix[1]) == 'p'
    requires Text.LowerChar(suffix[2]) == 'd' && Text.LowerChar(suffix[3]) == 'f'
    ensures IsPdfKey(stem + suffix)
  {
    Text.LowerConcat(stem, suffix);
    var l := Text.Lower(stem + suffix);
    assert l[|l| - 4..] == Text.Lower(suffix);
  }

  /**
   * With a cap of 2, one page of a PDF key, another key and a second PDF key lists the two PDF
   * keys (the case of "one.pdf", "two.txt" and "three.PDF").
   */
  lemma CapOfTwoExample(a: string, b: string, c: string)
    requires IsPdfKey(a) && !IsPdfKey(b) && IsPdfKey(c)
    ensures ListedKeys([Page(Some([Item(Some(a)), Item(Some(b)), Item(Some(c))]))], Some(2)) == [a, c]
  {
    var page := Page(Some([Item(Some(a)), Item(Some(b)), Item(Some(c))]));
    OnePageKeys(page, [a, b, c]);
    ThreeKeysFiltered(a, b, c);
    ListedPositiveCap([page], 2);
    assert [a, c][..2] == [a, c];
  }

  lemma OnePageKeys(page: Page, ks: seq<string>)
    requires PageKeys(page) == ks
    ensures AllKeys([page]) == ks
  {
    assert [page][..0] == [];
  }

  lemma ThreeKeysFiltered(a: string, b: string, c: string)
    requires IsPdfKey(a) && !IsPdfKey(b) && IsPdfKey(c)
    ensures PdfKeys([a, b, c]) == [a, c]
  {
    PdfKeysSnoc([], a);
    PdfKeysSnoc([a], b);
    PdfKeysSnoc([a, b], c);
    assert [] + [a] == [a] && [a] + [b] == [a, b] && [a, b] + [c] == [a, b, c];
  }

  /** The keys after the first `j` of page `p`: one more step of the loop. */
  lemma StepInPage(pages: seq<Page>, p: nat, j: nat, maxItems: Option<int>)
    requires p < |pages| && j < |PageKeys(pages[p])|
    ensures var ks := PageKeys(pages[p]); var st := FoldPages(Collecting([]), pages[..p], maxItems);
      FoldKeys(st, ks[..j + 1], maxItems) == Step(FoldKeys(st, ks[..j], maxItems), ks[j], maxItems)
  {
    var ks := PageKeys(pages[p]);
    assert ks[..j + 1][..j] == ks[..j];
  }

  /** A whole page folded: the state the next page starts from. */
  lemma PageFinished(pages: seq<Page>, p: nat, maxItems: Option<int>)
    requires p < |pages|
    ensures var ks := PageKeys(pages[p]);
      FoldPages(Collecting([]), pages[..p + 1], maxItems) == FoldKeys(FoldPages(Collecting([]), pages[..p], maxItems), ks[..|ks|], maxItems)
  {
    var ks := PageKeys(pages[p]);
    assert pages[..p + 1][..p] == pages[..p];
    assert ks[..|ks|] == ks;
  }

  /** The early `return keys`: once the loop has returned, that is the listing's result. */
  lemma EarlyReturn(pages: seq<Page>, p: nat, j: nat, maxItems: Option<int>, keys: seq<string>)
    requires p < |pages| && j < |PageKeys(pages[p])|
    requires FoldKeys(FoldPages(Collecting([]), pages[..p], maxItems), PageKeys(pages[p])[..j + 1], maxItems) == Done(keys)
    ensures ListedKeys(pages, maxItems) == keys
  {
    var ks := PageKeys(pages[p]);
    var st := FoldPages(Collecting([]), pages[..p], maxItems);
    assert ks == ks[..j + 1] + ks[j + 1..];
    FoldKeysConcat(st, ks[..j + 1], ks[j + 1..], maxItems);
    DoneStays(keys, ks[j + 1..], maxItems);
    PageFinished(pages, p, maxItems);
    assert ks[..|ks|] == ks;
    assert FoldPages(Collecting([]), pages[..p + 1], maxItems) == Done(keys);
    DonePagesStay(pages, p + 1, maxItems, keys);
  }

  /** Once returned, later pages change nothing. */
  lemma {:induction false} DonePagesStay(pages: seq<Page>, n: nat, maxItems: Option<int>, keys: seq<string>)
    requires n <= |pages| && FoldPages(Collecting([]), pages[..n], maxItems) == Done(keys)
    ensures FoldPages(Collecting([]), pages, maxItems) == Done(keys)
    decreases |pages| - n
  {
    if n < |pages| {
      PageFinished(pages, n, maxItems);
      var ks := PageKeys(pages[n]);
      DoneStays(keys, ks[..|ks|], maxItems);
      DonePagesStay(pages, n + 1, maxItems, keys);
    } else {
      assert pages[..n] == pages;
    }
  }

  // ---------------------------------------------------------------------------------------------
  // Local paths and the key map

  /**
   * A directory as `str(Path(d))` prints it: not empty, and without a trailing "/" unless it is
   * the root.
   */
  predicate NormalDir(dir: string) {
    dir != [] && (dir == "/" || dir[|dir| - 1] != '/')
  }

  /** `str(Path(dir) / name)` for a file name without "/". */
  function LocalPath(dir: string, name: string): string {
    if name == "" then dir
    else if dir == "." then name
    else if dir == "/" then "/" + name
    else dir + "/" + name
  }

  /** A downloaded object: its key and where it was saved. */
  datatype IngestedFile = IngestedFile(key: string, localPath: string)

  /** The files `download_all` records for the listed keys: each saved under its own file name. */
  function IngestedFiles(keys: seq<string>, dir: string): (r: seq<IngestedFile>)
    ensures |r| == |keys|
    decreases |keys|
  {
    if keys == [] then []
    else
      var k := keys[|keys| - 1];
      IngestedFiles(keys[..|keys| - 1], dir) + [IngestedFile(k, LocalPath(dir, Text.Basename(k)))]
  }

  /** The `i`-th file is the `i`-th key, saved under the directory with the key's file name. */
  lemma {:induction false} IngestedAt(keys: seq<string>, dir: string, i: nat)
    requires i < |keys|
    ensures IngestedFiles(keys, dir)[i] == IngestedFile(keys[i], LocalPath(dir, Text.Basename(keys[i])))
    decreases |keys|
  {
    if i < |keys| - 1 {
      IngestedAt(keys[..|keys| - 1], dir, i);
    }
  }

  /** The first "/" of `a + "/" + b` is the first of `a`, or the joining one. */
  lemma FindJoin(a: string, b: string)
    ensures Text.Find(a + "/" + b, "/") == if Text.Find(a, "/").Some? then Text.Find(a, "/") else Some(|a|)
  {
    var s := a + "/" + b;
    var i := if Text.Find(a, "/").Some? then Text.Find(a, "/").value else |a|;
    assert s[i..i + 1] == "/" by {
      if i < |a| {
        assert Text.OccursAt(a, "/", i);
        assert s[i..i + 1] == a[i..i + 1];
      } else {
        assert s[|a|..|a| + 1] == "/";
      }
    }
    forall j | 0 <= j < i ensures !Text.OccursAt(s, "/", j) {
      assert !Text.OccursAt(a, "/", j);
      assert s[j..j + 1] == a[j..j + 1];
    }
    Text.FindAt(s, "/", i);
  }

  /** The slash-separated pieces of a joined path are those of its parts. */
  lemma {:induction false} SplitSlashJoin(a: string, b: string)
    ensures Text.SplitSlash(a + "/" + b) == Text.SplitSlash(a) + Text.SplitSlash(b)
    decreases |a|
  {
    var s := a + "/" + b;
    FindJoin(a, b);
    if Text.Find(a, "/").None? {
      assert s[..|a|] == a && s[|a| + 1..] == b;
    } else {
      var i := Text.Find(a, "/").value;
      assert s[..i] == a[..i];
      assert s[i + 1..] == a[i + 1..] + "/" + b;
      SplitSlashJoin(a[i + 1..], b);
    }
  }

  /** The kept path components of two piece lists are those of each, in turn. */
  lemma {:induction false} PathPartsConcat(x: seq<string>, y: seq<string>)
    ensures Text.PathParts(x + y) == Text.PathParts(x) + Text.PathParts(y)
    decreases |x|
  {
    if x == [] {
      assert x + y == y;
    } else {
      assert (x + y)[0] == x[0];
      assert (x + y)[1..] == x[1..] + y;
      PathPartsConcat(x[1..], y);
    }
  }

  /** A plain file name joined to any directory is the joined path's name. */
  lemma BasenameAfterSlash(a: string, name: string)
    requires '/' !in name && name != "" && name != "."
    ensures Text.Basename(a + "/" + name) == name
  {
    SplitSlashJoin(a, name);
    Text.BasenamePlain(name);
    assert Text.Find(name, "/").None? by {
      Text.AbsentChar(name, "/", 0);
    }
    PathPartsConcat(Text.SplitSlash(a), [name]);
  }

  /** Each downloaded file is saved under the object's own file name. */
  lemma LocalPathKeepsName(dir: string, key: string)
    requires NormalDir(dir) && Text.Basename(key) != ""
    ensures Text.Basename(LocalPath(dir, Text.Basename(key))) == Text.Basename(key)
  {
    var name := Text.Basename(key);
    if dir == "." {
      Text.BasenamePlain(name);
    } else if dir == "/" {
      assert "/" + name == "" + "/" + name;
      BasenameAfterSlash("", name);
    } else {
      BasenameAfterSlash(dir, name);
    }
  }

  /** `build_key_map`: each local path mapped to its key, file after file. */
  function KeyMap(files: seq<IngestedFile>): map<string, string>
    decreases |files|
  {
    if files == [] then map[]
    else KeyMap(files[..|files| - 1])[files[|files| - 1].localPath := files[|files| - 1].key]
  }

  /** The key map's paths are the files' local paths. */
  lemma {:induction false} KeyMapPaths(files: seq<IngestedFile>)
    ensures forall p :: p in KeyMap(files) <==> exists i :: 0 <= i < |files| && files[i].localPath == p
    decreases |files|
  {
    if files != [] {
      var init := files[..|files| - 1];
      KeyMapPaths(init);
      assert forall i :: 0 <= i < |init| ==> init[i] == files[i];
    }
  }

  /** A file whose path no later file repeats is mapped to its own key: a later duplicate wins. */
  lemma {:induction false} KeyMapLastWins(files: seq<IngestedFile>, i: nat)
    requires i < |files| && forall j :: i < j < |files| ==> files[j].localPath != files[i].localPath
    ensures files[i].localPath in KeyMap(files) && KeyMap(files)[files[i].localPath] == files[i].key
    decreases |files|
  {
    if i < |files| - 1 {
      var init := files[..|files| - 1];
      KeyMapLastWins(init, i);
    }
  }

  /** Of two files saved to the same path, the key map keeps the second. */
  lemma LaterDuplicateWins(a: IngestedFile, b: IngestedFile)
    requires a.localPath == b.localPath
    ensures KeyMap([a, b]) == map[b.localPath := b.key]
  {
    assert [a, b][..1] == [a];
    assert [a][..0] == [];
    assert KeyMap([a]) == map[a.localPath := a.key];
    assert KeyMap([a, b]) == map[a.localPath := a.key][b.localPath := b.key];
  }

  // ---------------------------------------------------------------------------------------------
  // Moved and uploaded keys

  /** `f"{prefix.rstrip('/')}/{Path(key).name}"` */
  function MovedKey(prefix: string, key: string): (r: string)
    ensures Text.StartsWith(r, Text.RStripChar(prefix, '/') + "/")
  {
    var r := Text.RStripChar(prefix, '/') + "/" + Text.Basename(key);
    assert r[..|Text.RStripChar(prefix, '/') + "/"|] == Text.RStripChar(prefix, '/') + "/";
    r
  }

  /** A moved object keeps its file name and lands directly under the target prefix. */
  lemma MovedKeepsName(prefix: string, key: string)
    requires Text.Basename(key) != ""
    ensures Text.Basename(MovedKey(prefix, key)) == Text.Basename(key)
  {
    BasenameAfterSlash(Text.RStripChar(prefix, '/'), Text.Basename(key));
  }

  /** The destination does not depend on how many slashes end the prefix. */
  lemma MovedKeyIgnoresTrailingSlashes(prefix: string, key: string)
    ensures MovedKey(prefix + "/", key) == MovedKey(prefix, key)
  {
    var p := prefix + "/";
    assert p[..|p| - 1] == prefix;
  }

  /** A key `dir/name` moved to `prefix/` (as "raw/a.pdf" to "error/") becomes `prefix/name`. */
  lemma MovedUnderPrefix(prefix: string, dir: string, name: string)
    requires prefix == [] || prefix[|prefix| - 1] != '/'
    requires '/' !in name && name != "" && name != "."
    ensures MovedKey(prefix + "/", dir + "/" + name) == prefix + "/" + name
  {
    MovedKeyIgnoresTrailingSlashes(prefix, dir + "/" + name);
    BasenameAfterSlash(dir, name);
  }

  /** The directory the results file is written to. */
  const OutputDir := "/tmp/pdf-results"

  /** `output_format.lower() == "parquet"` */
  predicate IsParquet(outputFormat: string) {
    Text.Lower(outputFormat) == "parquet"
  }

  /** `results_{run_id}.parquet` or `results_{run_id}.jsonl` */
  function OutputName(runId: string, outputFormat: string): string {
    "results_" + runId + (if IsParquet(outputFormat) then ".parquet" else ".jsonl")
  }

  /** `f"{processed_prefix.rstrip('/')}/results/{name}"` */
  function ResultsKey(processedPrefix: string, name: string): (r: string)
    ensures Text.StartsWith(r, Text.RStripChar(processedPrefix, '/') + "/results/") && Text.EndsWith(r, name)
  {
    var p := Text.RStripChar(processedPrefix, '/') + "/results/";
    assert (p + name)[..|p|] == p && (p + name)[|p|..] == name;
    p + name
  }

  /** What the results file holds: the rows for parquet, or one JSON line per row. */
  datatype Body = Parquet(rows: seq<Fields>) | Jsonl(text: string)

  /** `json.dumps(row)` followed by a newline, for every row in turn. */
  function JsonLines(rows: seq<Fields>, dumps: Fields -> string): string
    decreases |rows|
  {
    if rows == [] then "" else JsonLines(rows[..|rows| - 1], dumps) + dumps(rows[|rows| - 1]) + "\n"
  }

  function BodyOf(rows: seq<Fields>, outputFormat: string, dumps: Fields -> string): Body {
    if IsParquet(outputFormat) then Parquet(rows) else Jsonl(JsonLines(rows, dumps))
  }

  /** How many times `c` occurs in `s`. */
  function Occurrences(s: string, c: char): (r: nat)
    ensures r <= |s|
    decreases |s|
  {
    if s == [] then 0 else Occurrences(s[..|s| - 1], c) + (if s[|s| - 1] == c then 1 else 0)
  }

  lemma {:induction false} OccurrencesConcat(a: string, b: string, c: char)
    ensures Occurrences(a + b, c) == Occurrences(a, c) + Occurrences(b, c)
    decreases |b|
  {
    if b == [] {
      assert a + b == a;
    } else {
      assert (a + b)[..|a + b| - 1] == a + b[..|b| - 1];
      assert (a + b)[|a + b| - 1] == b[|b| - 1];
      OccurrencesConcat(a, b[..|b| - 1], c);
    }
  }

  /** JSON lines hold one line per row when no row's JSON text holds a newline (`json.dumps` escapes them). */
  lemma {:induction false} OneLinePerRow(rows: seq<Fields>, dumps: Fields -> string)
    requires forall i :: 0 <= i < |rows| ==> '\n' !in dumps(rows[i])
    ensures Occurrences(JsonLines(rows, dumps), '\n') == |rows|
    decreases |rows|
  {
    if rows != [] {
      var p := rows[..|rows| - 1];
      var last := dumps(rows[|rows| - 1]);
      OneLinePerRow(p, dumps);
      OccurrencesConcat(JsonLines(p, dumps), last, '\n');
      OccurrencesConcat(JsonLines(p, dumps) + last, "\n", '\n');
      NoOccurrence(last, '\n');
      assert Occurrences("\n", '\n') == 1 by {
        assert "\n"[..0] == "";
      }
    }
  }

  lemma {:induction false} NoOccurrence(s: string, c: char)
    requires c !in s
    ensures Occurrences(s, c) == 0
    decreases |s|
  {
    if s != [] {
      assert s[..|s| - 1] <= s;
      NoOccurrence(s[..|s| - 1], c);
    }
  }

  // ---------------------------------------------------------------------------------------------
  // The client and the two services

  /** A call made on the S3 client. */
  datatype Call =
    | Download(bucket: string, key: string, filename: string)
    | Upload(filename: string, bucket: string, key: string, body: Body)
    | Copy(bucket: string, sourceBucket: string, sourceKey: string, key: string)
    | Delete(bucket: string, key: string)

  /** An S3 client: the pages it lists for each bucket and prefix, and the calls made on it so far. */
  class Client {
    var listings: map<(string, string), seq<Page>>
    var calls: seq<Call>

    constructor(listings: map<(string, string), seq<Page>>)
      ensures this.listings == listings && calls == []
    {
      this.listings := listings;
      calls := [];
    }

    /** `get_paginator("list_objects_v2").paginate(Bucket=bucket, Prefix=prefix)` */
    function Paginate(bucket: string, prefix: string): seq<Page>
      reads this
    {
      if (bucket, prefix) in listings then listings[(bucket, prefix)] else []
    }

    method DownloadFile(bucket: string, key: string, filename: string)
      modifies this
      ensures listings == old(listings) && calls == old(calls) + [Download(bucket, key, filename)]
    {
      calls := calls + [Download(bucket, key, filename)];
    }

    method UploadFile(filename: string, bucket: string, key: string, body: Body)
      modifies this
      ensures listings == old(listings) && calls == old(calls) + [Upload(filename, bucket, key, body)]
    {
      calls := calls + [Upload(filename, bucket, key, body)];
    }

    method CopyObject(bucket: string, sourceBucket: string, sourceKey: string, key: string)
      modifies this
      ensures listings == old(listings) && calls == old(calls) + [Copy(bucket, sourceBucket, sourceKey, key)]
    {
      calls := calls + [Copy(bucket, sourceBucket, sourceKey, key)];
    }

    method DeleteObject(bucket: string, key: string)
      modifies this
      ensures listings == old(listings) && calls == old(calls) + [Delete(bucket, key)]
    {
      calls := calls + [Delete(bucket, key)];
    }
  }

  /** The downloads `download_all` makes, one per file, in order. */
  function Downloads(bucket: string, files: seq<IngestedFile>): (r: seq<Call>)
    ensures |r| == |files|
    decreases |files|
  {
    if files == [] then []
    else Downloads(bucket, files[..|files| - 1]) + [Download(bucket, files[|files| - 1].key, files[|files| - 1].localPath)]
  }

  lemma DownloadsSnoc(bucket: string, files: seq<IngestedFile>, f: IngestedFile)
    ensures Downloads(bucket, files + [f]) == Downloads(bucket, files) + [Download(bucket, f.key, f.localPath)]
  {
    assert (files + [f])[..|files|] == files;
  }

  /** The ingestor: where it lists from, where it saves to, the cap, and its client. */
  class Ingestor {
    var bucket: string
    var rawPrefix: string
    var localDir: string
    var maxItems: Option<int>
    var s3: Client

    constructor(bucket: string, rawPrefix: string, localDir: string, maxItems: Option<int>, s3: Client)
      ensures this.bucket == bucket && this.rawPrefix == rawPrefix && this.localDir == localDir
      ensures this.maxItems == maxItems && this.s3 == s3
    {
      this.bucket := bucket;
      this.rawPrefix := rawPrefix;
      this.localDir := localDir;
      this.maxItems := maxItems;
      this.s3 := s3;
    }

    /** `list_pdf_keys`: the nested loop over pages and items, with its early return. */
    method ListPdfKeys() returns (keys: seq<string>)
      ensures keys == ListedKeys(s3.Paginate(bucket, rawPrefix), maxItems)
    {
      var pages := s3.Paginate(bucket, rawPrefix);
      keys := [];
      for p := 0 to |pages|
        invariant FoldPages(Collecting([]), pages[..p], maxItems) == Collecting(keys)
      {
        var ks := PageKeys(pages[p]);
        for j := 0 to |ks|
          invariant FoldKeys(FoldPages(Collecting([]), pages[..p], maxItems), ks[..j], maxItems) == Collecting(keys)
        {
          StepInPage(pages, p, j, maxItems);
          var key := ks[j];
          if IsPdfKey(key) {
            keys := keys + [key];
          }
          if Capped(keys, maxItems) {
            EarlyReturn(pages, p, j, maxItems, keys);
            return;
          }
        }
        PageFinished(pages, p, maxItems);
      }
      assert pages[..|pages|] == pages;
    }

    /** `download_all`: every listed key downloaded to the local directory under its file name. */
    method DownloadAll() returns (files: seq<IngestedFile>)
      modifies s3
      ensures files == IngestedFiles(ListedKeys(old(s3.Paginate(bucket, rawPrefix)), maxItems), localDir)
      ensures s3.listings == old(s3.listings) && s3.calls == old(s3.calls) + Downloads(bucket, files)
    {
      var keys := ListPdfKeys();
      files := [];
      for i := 0 to |keys|
        invariant s3.listings == old(s3.listings)
        invariant files == IngestedFiles(keys[..i], localDir)
        invariant s3.calls == old(s3.calls) + Downloads(bucket, files)
      {
        var localPath := LocalPath(localDir, Text.Basename(keys[i]));
        s3.DownloadFile(bucket, keys[i], localPath);
        DownloadsSnoc(bucket, files, IngestedFile(keys[i], localPath));
        assert keys[..i + 1][..i] == keys[..i];
        files := files + [IngestedFile(keys[i], localPath)];
      }
      assert keys[..|keys|] == keys;
    }
  }

  /** The loader: the bucket, the two target prefixes, and its client. */
  class Loader {
    var bucket: string
    var processedPrefix: string
    var errorPrefix: string
    var s3: Client

    constructor(bucket: string, processedPrefix: string, errorPrefix: string, s3: Client)
      ensures this.bucket == bucket && this.processedPrefix == processedPrefix
      ensures this.errorPrefix == errorPrefix && this.s3 == s3
    {
      this.bucket := bucket;
      this.processedPrefix := processedPrefix;
      this.errorPrefix := errorPrefix;
      this.s3 := s3;
    }

    /** `upload_results`: writes the rows under the run's file name and uploads it under the results key. */
    method UploadResults(results: seq<Fields>, outputFormat: string, runId: string, dumps: Fields -> string)
      returns (key: string)
      modifies s3
      ensures key == ResultsKey(processedPrefix, OutputName(runId, outputFormat))
      ensures s3.listings == old(s3.listings)
      ensures s3.calls == old(s3.calls)
        + [Upload(OutputDir + "/" + OutputName(runId, outputFormat), bucket, key, BodyOf(results, outputFormat, dumps))]
    {
      var name := OutputName(runId, outputFormat);
      var body := BodyOf(results, outputFormat, dumps);
      key := ResultsKey(processedPrefix, name);
      s3.UploadFile(OutputDir + "/" + name, bucket, key, body);
    }

    /** `move_source`: one copy to the new key, then one delete of the old key, both in the loader's bucket. */
    method MoveSource(key: string, success: bool) returns (newKey: string)
      modifies s3
      ensures newKey == MovedKey(if success then processedPrefix else errorPrefix, key)
      ensures s3.listings == old(s3.listings)
      ensures s3.calls == old(s3.calls) + [Copy(bucket, bucket, key, newKey), Delete(bucket, key)]
    {
      var targetPrefix := if success then processedPrefix else errorPrefix;
      newKey := MovedKey(targetPrefix, key);
      s3.CopyObject(bucket, bucket, key, newKey);
      s3.DeleteObject(bucket, key);
    }
  }
}
