/**
 * The pipeline orchestrator: per-file processing (classification, extraction, mapping, the OCR
 * heuristic and fingerprint metadata), the incremental fingerprint cache across a directory
 * run, and the run summary.
 *
 * The file system, the clock and the extractors are parameters: each file comes with its
 * fingerprint, the first-page content the classifier reads, and either the envelope its
 * extractor's `run_extraction` returned or the exception constructing the extractor raised.
 */
module Orchestrator {
  import opened Wrappers
  import opened Values
  import Text
  import Classifier
  import FileMapping

  // ----- fingerprints and the incremental cache -----

  /** What `_compute_file_fingerprint` returns: SHA-256 hex digest, size in bytes, mtime. */
  datatype Fingerprint = Fingerprint(fileHash: string, sizeBytes: nat, mtime: real)

  /** The fingerprint as the dict written into the state. */
  function FingerprintValue(fp: Fingerprint): Value {
    Obj([("file_hash", Str(fp.fileHash)), ("file_size_bytes", Num(fp.sizeBytes as real)),
         ("file_mtime", Num(fp.mtime))])
  }

  /** The AttributeError of `.get` on a cached entry that is not a dict. */
  const NoGetError := "object has no attribute 'get'"

  /**
   * `_is_unchanged`: false without a (truthy) cached entry; otherwise hash, size and mtime must
   * all equal the fingerprint's. A truthy cached entry that is not a dict raises.
   */
  function IsUnchanged(state: map<string, Value>, path: string, fp: Fingerprint): (r: Result<bool>)
    ensures path !in state || !Truthy(state[path]) ==> r == Ok(false)
    ensures r.Raised? <==> path in state && Truthy(state[path]) && !state[path].Obj?
  {
    if path !in state || !Truthy(state[path]) then Ok(false)
    else match state[path]
      case Obj(cached) =>
        Ok(PyEq(GetOrNull(cached, "file_hash"), Str(fp.fileHash))
          && PyEq(GetOrNull(cached, "file_size_bytes"), Num(fp.sizeBytes as real))
          && PyEq(GetOrNull(cached, "file_mtime"), Num(fp.mtime)))
      case _ => Raised(NoGetError)
  }

  /** The stored dict gives back the hash, the size and the mtime. */
  lemma FingerprintFields(fp: Fingerprint)
    ensures GetOrNull(FingerprintValue(fp).fields, "file_hash") == Str(fp.fileHash)
    ensures GetOrNull(FingerprintValue(fp).fields, "file_size_bytes") == Num(fp.sizeBytes as real)
    ensures GetOrNull(FingerprintValue(fp).fields, "file_mtime") == Num(fp.mtime)
  {
    var f := FingerprintValue(fp).fields;
    GetAt(f, 0);
    GetAt(f, 1);
    GetAt(f, 2);
  }

  /** A fingerprint the cache holds for a path makes that path unchanged. */
  lemma StoredFingerprintIsUnchanged(state: map<string, Value>, path: string, fp: Fingerprint)
    ensures IsUnchanged(state[path := FingerprintValue(fp)], path, fp) == Ok(true)
  {
    FingerprintFields(fp);
  }

  /** A path whose cached entry is the fingerprint is unchanged. */
  lemma CachedFingerprintIsUnchanged(state: map<string, Value>, path: string, fp: Fingerprint)
    requires path in state && state[path] == FingerprintValue(fp)
    ensures IsUnchanged(state, path, fp) == Ok(true)
  {
    FingerprintFields(fp);
  }

  /** A changed hash, size or mtime makes the path changed. */
  lemma ChangedFingerprintIsChanged(state: map<string, Value>, path: string, old_fp: Fingerprint, fp: Fingerprint)
    requires old_fp != fp
    ensures IsUnchanged(state[path := FingerprintValue(old_fp)], path, fp) == Ok(false)
  {
    FingerprintFields(old_fp);
  }

  /** What reading the state file gives; all but a stored dict load as `{}`. */
  datatype StateFile = NoStateFile | UnreadableState | NotADict | StoredState(entries: map<string, Value>)

  /** `_load_state`. */
  function LoadState(f: StateFile): (r: map<string, Value>)
    ensures f.StoredState? ==> r == f.entries
    ensures !f.StoredState? ==> r == map[]
  {
    match f
    case StoredState(entries) => entries
    case _ => map[]
  }

  // ----- the OCR heuristic -----

  /** A value `_assess_needs_ocr` counts as filled: not None, not an empty list or dict, not a blank string. */
  predicate OcrFilled(v: Value) {
    match v
    case Null => false
    case List(items) => items != []
    case Obj(fields) => fields != []
    case Str(s) => !Text.IsBlank(s)
    case _ => true
  }

  function FilledCount(vs: seq<Value>): (r: nat)
    ensures r <= |vs|
    ensures r == 0 <==> forall i :: 0 <= i < |vs| ==> !OcrFilled(vs[i])
    decreases |vs|
  {
    if vs == [] then 0
    else
      var prefix := vs[..|vs| - 1];
      assert forall i :: 0 <= i < |prefix| ==> prefix[i] == vs[i];
      FilledCount(prefix) + if OcrFilled(vs[|vs| - 1]) then 1 else 0
  }

  /** `x or 0`. */
  function OrZero(v: Value): Value {
    if Truthy(v) then v else Num(0.0)
  }

  /** The TypeError of `text_length < 50` on a value that is not a number. */
  const CompareError := "'<' not supported between instances"

  /** The metadata dict of a result: `{}` when absent, None for a present non-dict. */
  function MetaOf(r: Fields): Option<Fields> {
    match Get(r, "metadata")
    case None => Some([])
    case Some(Obj(m)) => Some(m)
    case Some(_) => None
  }

  predicate NoTextCondition(meta: Fields) {
    PyEq(OrZero(GetOrNull(meta, "text_pages_with_content")), Num(0.0))
    || (NumericValue(OrZero(GetOrNull(meta, "text_length"))).Some?
        && NumericValue(OrZero(GetOrNull(meta, "text_length"))).value < 50.0)
  }

  /** `result.get("data") or {}`. */
  function DataOf(r: Fields): Value {
    if Truthy(GetOrNull(r, "data")) then GetOrNull(r, "data") else Obj([])
  }

  /** The reasons the data dict gives: empty data, or low coverage with empty bidder and item lists. */
  function DataReasons(data: Value): (r: seq<string>)
    ensures |r| <= 1
  {
    if !data.Obj? then []
    else
      var filled := FilledCount(ValuesOf(data.fields));
      if |data.fields| == 0 || filled == 0 then ["empty_data"]
      else if filled <= 1 && GetOrNull(data.fields, "bidders") == List([])
        && GetOrNull(data.fields, "bid_items") == List([]) then ["low_field_coverage"]
      else []
  }

  /** `_assess_needs_ocr`'s reason list, or the exception it raises. */
  function NeedsOcrReasons(r: Fields): (res: Result<seq<string>>)
  {
    match MetaOf(r)
    case None => Raised(NoGetError)
    case Some(meta) =>
      var pagesZero := PyEq(OrZero(GetOrNull(meta, "text_pages_with_content")), Num(0.0));
      var textLength := NumericValue(OrZero(GetOrNull(meta, "text_length")));
      if !pagesZero && textLength.None? then Raised(CompareError)
      else
        var first := if NoTextCondition(meta) then ["no_text_extracted"] else [];
        Ok(first + DataReasons(DataOf(r)))
  }

  /** `_assess_needs_ocr`: (needs_ocr, reasons), or the exception. */
  function NeedsOcr(r: Fields): Result<(bool, seq<string>)> {
    match NeedsOcrReasons(r)
    case Raised(e) => Raised(e)
    case Ok(reasons) => Ok((|reasons| > 0, reasons))
  }

  /** The loop of `_assess_needs_ocr` counting filled values. */
  method CountFilled(values: seq<Value>) returns (filledFields: nat)
    ensures filledFields == FilledCount(values)
  {
    filledFields := 0;
    var i := 0;
    while i < |values|
      invariant 0 <= i <= |values|
      invariant filledFields == FilledCount(values[..i])
    {
      assert values[..i + 1][..i] == values[..i];
      if OcrFilled(values[i]) {
        filledFields := filledFields + 1;
      }
      i := i + 1;
    }
    assert values[..i] == values;
  }

  /** `_assess_needs_ocr`: the text test, then the data test. */
  method AssessNeedsOcr(result: Fields) returns (outcome: Result<(bool, seq<string>)>)
    ensures outcome == NeedsOcr(result)
  {
    var metaOpt := MetaOf(result);
    if metaOpt.None? {
      return Raised(NoGetError);
    }
    var meta := metaOpt.value;
    var textLength := OrZero(GetOrNull(meta, "text_length"));
    var pagesWithText := OrZero(GetOrNull(meta, "text_pages_with_content"));
    var reasons: seq<string> := [];
    if PyEq(pagesWithText, Num(0.0)) {
      reasons := reasons + ["no_text_extracted"];
    } else {
      var n := NumericValue(textLength);
      if n.None? {
        return Raised(CompareError);
      }
      if n.value < 50.0 {
        reasons := reasons + ["no_text_extracted"];
      }
    }
    assert reasons == if NoTextCondition(meta) then ["no_text_extracted"] else [];
    var data := DataOf(result);
    var dataReasons: seq<string> := [];
    if data.Obj? {
      var totalFields := |data.fields|;
      var filledFields := CountFilled(ValuesOf(data.fields));
      if totalFields == 0 || filledFields == 0 {
        dataReasons := ["empty_data"];
      } else if filledFields <= 1 && GetOrNull(data.fields, "bidders") == List([])
        && GetOrNull(data.fields, "bid_items") == List([]) {
        dataReasons := ["low_field_coverage"];
      }
    }
    assert dataReasons == DataReasons(data);
    reasons := reasons + dataReasons;
    return Ok((|reasons| > 0, reasons));
  }

  /**
   * The heuristic fires exactly when it has a reason. "no_text_extracted", when present, is the
   * first reason, and it is present exactly when pages_with_text == 0 or text_length < 50, an
   * absent or falsy statistic counting as 0.
   */
  lemma NeedsOcrReasonsShape(r: Fields)
    requires NeedsOcr(r).Ok?
    ensures NeedsOcr(r).value.0 <==> NeedsOcr(r).value.1 != []
    ensures var reasons := NeedsOcr(r).value.1;
      ("no_text_extracted" in reasons <==> NoTextCondition(MetaOf(r).value))
      && ("no_text_extracted" in reasons ==> reasons[0] == "no_text_extracted")
  {
  }

  /**
   * "empty_data" and "low_field_coverage" never both fire. "empty_data" fires exactly when the
   * data dict has no keys or no filled value; "low_field_coverage" exactly when it has one filled
   * value and both "bidders" and "bid_items" are present as `[]`.
   */
  lemma DataReasonsCases(data: Value)
    ensures !("empty_data" in DataReasons(data) && "low_field_coverage" in DataReasons(data))
    ensures "empty_data" in DataReasons(data) <==>
      data.Obj? && forall i :: 0 <= i < |data.fields| ==> !OcrFilled(data.fields[i].1)
    ensures "low_field_coverage" in DataReasons(data) <==>
      data.Obj? && FilledCount(ValuesOf(data.fields)) == 1
      && Get(data.fields, "bidders") == Some(List([])) && Get(data.fields, "bid_items") == Some(List([]))
  {
    if data.Obj? {
      var vs := ValuesOf(data.fields);
      var filled := FilledCount(vs);
      assert filled == 0 <==> forall i :: 0 <= i < |data.fields| ==> !OcrFilled(data.fields[i].1) by {
        assert forall i :: 0 <= i < |data.fields| ==> vs[i] == data.fields[i].1;
      }
      var lists := GetOrNull(data.fields, "bidders") == List([]) && GetOrNull(data.fields, "bid_items") == List([]);
      assert lists <==> Get(data.fields, "bidders") == Some(List([])) && Get(data.fields, "bid_items") == Some(List([]));
      var r := DataReasons(data);
      assert r == if |data.fields| == 0 || filled == 0 then ["empty_data"] else if filled <= 1 && lists then ["low_field_coverage"] else [];
      assert "empty_data" != "low_field_coverage" by {
        assert |"empty_data"| != |"low_field_coverage"|;
      }
      assert |data.fields| == 0 ==> filled == 0;
    }
  }

  /** The test with no text and an empty dict: both "no_text_extracted" and "empty_data". */
  lemma NeedsOcrWhenEmpty()
    ensures NeedsOcr([("status", Str("success")), ("data", Obj([])),
      ("metadata", Obj([("text_length", Num(0.0)), ("text_pages_with_content", Num(0.0))]))])
      == Ok((true, ["no_text_extracted", "empty_data"]))
  {
    var r := [("status", Str("success")), ("data", Obj([])),
      ("metadata", Obj([("text_length", Num(0.0)), ("text_pages_with_content", Num(0.0))]))];
    GetAtLength(r, 1);
    GetAtLength(r, 2);
    var meta := [("text_length", Num(0.0)), ("text_pages_with_content", Num(0.0))];
    GetAtLength(meta, 1);
    assert MetaOf(r) == Some(meta);
    assert NoTextCondition(meta);
    assert DataOf(r) == Obj([]);
    assert DataReasons(Obj([])) == ["empty_data"];
    assert NeedsOcrReasons(r) == Ok(["no_text_extracted"] + ["empty_data"]);
    assert ["no_text_extracted"] + ["empty_data"] == ["no_text_extracted", "empty_data"];
  }

  /** The test with text and two filled fields: no reason. */
  lemma NeedsOcrWhenOk()
    ensures NeedsOcr([("status", Str("success")),
      ("data", Obj([("contract_number", Str("DA12345")), ("bidders", List([Obj([("bidder_name", Str("ACME"))])]))])),
      ("metadata", Obj([("text_length", Num(200.0)), ("text_pages_with_content", Num(1.0))]))])
      == Ok((false, []))
  {
    var bidders := List([Obj([("bidder_name", Str("ACME"))])]);
    var data := [("contract_number", Str("DA12345")), ("bidders", bidders)];
    var meta := [("text_length", Num(200.0)), ("text_pages_with_content", Num(1.0))];
    var r := [("status", Str("success")), ("data", Obj(data)), ("metadata", Obj(meta))];
    GetAt(r, 1);
    GetAt(r, 2);
    assert MetaOf(r) == Some(meta);
    assert DataOf(r) == Obj(data);
    TextPresent();
    TwoFilled();
  }

  lemma TextPresent()
    ensures !NoTextCondition([("text_length", Num(200.0)), ("text_pages_with_content", Num(1.0))])
  {
    var meta := [("text_length", Num(200.0)), ("text_pages_with_content", Num(1.0))];
    GetAt(meta, 0);
    GetAt(meta, 1);
  }

  lemma TwoFilled()
    ensures DataReasons(Obj([("contract_number", Str("DA12345")),
      ("bidders", List([Obj([("bidder_name", Str("ACME"))])]))])) == []
  {
    var bidders := List([Obj([("bidder_name", Str("ACME"))])]);
    var data := [("contract_number", Str("DA12345")), ("bidders", bidders)];
    assert OcrFilled(Str("DA12345")) by {
      assert !Text.IsSpace("DA12345"[0]);
    }
    var vs := ValuesOf(data);
    assert vs == [Str("DA12345"), bidders];
    assert vs[..1] == [Str("DA12345")];
    assert FilledCount(vs[..1]) == 1;
    assert FilledCount(vs) == 2;
  }

  // ----- one file -----

  /**
   * Everything `process_file` learns about one file from outside: its path, its fingerprint, the
   * first-page content the classifier reads, what running its extractor gave (the envelope of
   * `run_extraction`, or the exception constructing the extractor raised) and the elapsed time.
   */
  datatype FileInput = FileInput(
    path: string,
    fingerprint: Fingerprint,
    content: Classifier.Content,
    extraction: Result<Fields>,
    processingTime: real)

  /** The fingerprint entries added to a result's metadata; `isoOf` renders an mtime in ISO form. */
  function FingerprintMeta(fp: Fingerprint, isoOf: real -> string): (r: Fields)
    ensures DistinctKeys(r) && HasKey(r, "file_hash") && Get(r, "file_hash") == Some(Str(fp.fileHash))
    ensures !HasKey(r, "needs_ocr") && !HasKey(r, "status")
  {
    var r := [("file_hash", Str(fp.fileHash)), ("file_size_bytes", Num(fp.sizeBytes as real)),
      ("file_mtime", Str(isoOf(fp.mtime))), ("file_mtime_ts", Num(fp.mtime))];
    GetAt(r, 0);
    NotKey(r, "needs_ocr");
    NotKey(r, "status");
    r
  }

  const NoExtractorMessage := "No extractor available for this document type"

  /** The result for a document type without an extractor. */
  function NoExtractorResult(path: string, t: Classifier.DocumentType): Fields {
    [("file_path", Str(path)), ("document_type", Str(t.Name())), ("status", Str("skipped")),
     ("error", Str(NoExtractorMessage))]
  }

  /** The result of the `except` branch of `process_file`. */
  function FailedResult(f: FileInput, e: string, isoOf: real -> string): Fields {
    [("file_path", Str(f.path)), ("document_type", Str("unknown")), ("status", Str("failed")),
     ("error", Str(e)), ("processing_time", Num(f.processingTime)),
     ("metadata", Obj(FingerprintMeta(f.fingerprint, isoOf)))]
  }

  /** `_build_skip_result`: the result for an unchanged file, typed by its name alone. */
  function SkipResult(f: FileInput, isoOf: real -> string): Fields {
    [("file_path", Str(f.path)), ("document_type", Str(Classifier.ClassifyFilenameOnly(f.path).Name())),
     ("status", Str("skipped")), ("error", Str("unchanged")),
     ("metadata", Obj(FingerprintMeta(f.fingerprint, isoOf) + [("skip_reason", Str("unchanged"))]))]
  }

  /** The TypeError of `setdefault("metadata", {})[k] = v` when the metadata is not a dict. */
  const ItemAssignError := "object does not support item assignment"
  /** The AttributeError of `setdefault("metadata", {}).update(...)` when the metadata is not a dict. */
  const NoUpdateError := "object has no attribute 'update'"

  /** `result.setdefault("metadata", {}).update(entries)`. */
  function UpdateMeta(r: Fields, entries: Fields, error: string): (res: Result<Fields>)
    ensures res.Raised? <==> MetaOf(r).None?
    ensures res.Ok? ==> MetaOf(res.value) == Some(PutAll(MetaOf(r).value, entries))
    ensures res.Ok? ==> forall k :: k != "metadata" ==> Get(res.value, k) == Get(r, k)
  {
    match MetaOf(r)
    case None => Raised(error)
    case Some(m) =>
      var out := Put(r, "metadata", Obj(PutAll(m, entries)));
      PutGet(r, "metadata", Obj(PutAll(m, entries)), "metadata");
      assert forall k :: k != "metadata" ==> Get(out, k) == Get(r, k) by {
        forall k | k != "metadata" ensures Get(out, k) == Get(r, k) {
          PutGet(r, "metadata", Obj(PutAll(m, entries)), k);
        }
      }
      Ok(out)
  }

  predicate IsSuccess(r: Fields) {
    GetOrNull(r, "status") == Str("success")
  }

  /** The mapping step: applied only to a success envelope with truthy data. */
  function MapStep(resolver: FileMapping.MappingResolver, mappingExists: bool, path: string,
                   docType: Classifier.DocumentType, env: Fields): Result<Fields>
  {
    if IsSuccess(env) && Truthy(GetOrNull(env, "data")) then
      var mapping := resolver.Resolve(docType.Name(), Text.Basename(path), mappingExists);
      var (mappedData, mappingMeta) := FileMapping.ApplyMappingSpec(GetOrNull(env, "data"), mapping);
      UpdateMeta(Put(env, "data", mappedData), [("mapping", Obj(mappingMeta))], ItemAssignError)
    else Ok(env)
  }

  /** Setting the result's type and path. */
  function Label(r: Fields, path: string, name: string): Fields {
    Put(Put(r, "document_type", Str(name)), "file_path", Str(path))
  }

  /** Recording the OCR verdict, marking a success partial when OCR is needed, adding the fingerprint. */
  function RecordOcr(r: Fields, needs: bool, reasons: seq<string>, fp: Fingerprint, isoOf: real -> string): Result<Fields> {
    match UpdateMeta(r, OcrEntries(needs, reasons), NoUpdateError)
    case Raised(e) => Raised(e)
    case Ok(r3) => UpdateMeta(MarkIfNeeded(r3, needs), FingerprintMeta(fp, isoOf), NoUpdateError)
  }

  /** A successful result that needs OCR becomes partial. */
  function MarkIfNeeded(r: Fields, needs: bool): Fields {
    if needs && IsSuccess(r) then Put(r, "status", Str("partial")) else r
  }

  /** The OCR assessment, the partial status and the fingerprint metadata. */
  function OcrStep(r: Fields, fp: Fingerprint, isoOf: real -> string): Result<Fields> {
    match NeedsOcr(r)
    case Raised(e) => Raised(e)
    case Ok((needs, reasons)) => RecordOcr(r, needs, reasons, fp, isoOf)
  }

  /** The steps of `process_file` after extraction, each of which may raise. */
  function Finish(resolver: FileMapping.MappingResolver, mappingExists: bool, f: FileInput,
                  docType: Classifier.DocumentType, env: Fields, isoOf: real -> string): Result<Fields>
  {
    match MapStep(resolver, mappingExists, f.path, docType, env)
    case Raised(e) => Raised(e)
    case Ok(r1) => OcrStep(Label(r1, f.path, docType.Name()), f.fingerprint, isoOf)
  }

  /** `process_file`: it never raises; every exception inside the `try` becomes a failed result. */
  function ProcessFileSpec(resolver: FileMapping.MappingResolver, mappingExists: bool, f: FileInput,
                           isoOf: real -> string): Fields
  {
    ProcessTyped(resolver, mappingExists, f, Classifier.Classify(f.path, f.content), isoOf)
  }

  /** `process_file` once the document type is known. */
  function ProcessTyped(resolver: FileMapping.MappingResolver, mappingExists: bool, f: FileInput,
                        docType: Classifier.DocumentType, isoOf: real -> string): Fields
  {
    if Classifier.GetExtractorClass(docType).None? then NoExtractorResult(f.path, docType)
    else match f.extraction
      case Raised(e) => FailedResult(f, e, isoOf)
      case Ok(env) =>
        match Finish(resolver, mappingExists, f, docType, env, isoOf)
        case Ok(r) => r
        case Raised(e) => FailedResult(f, e, isoOf)
  }

  /** `process_file` step by step, updating the result dict in place. */
  method ProcessFile(resolver: FileMapping.MappingResolver, mappingExists: bool, f: FileInput,
                     isoOf: real -> string) returns (result: Fields)
    ensures result == ProcessFileSpec(resolver, mappingExists, f, isoOf)
  {
    var docType := Classifier.Classify(f.path, f.content);
    if Classifier.GetExtractorClass(docType).None? {
      return NoExtractorResult(f.path, docType);
    }
    if f.extraction.Raised? {
      return FailedResult(f, f.extraction.error, isoOf);
    }
    result := f.extraction.value;
    var env := result;
    if IsSuccess(result) && Truthy(GetOrNull(result, "data")) {
      var mapping := resolver.Resolve(docType.Name(), Text.Basename(f.path), mappingExists);
      var mappedData, mappingMeta := FileMapping.ApplyMapping(GetOrNull(result, "data"), mapping);
      result := Put(result, "data", mappedData);
      var withMapping := UpdateMeta(result, [("mapping", Obj(mappingMeta))], ItemAssignError);
      if withMapping.Raised? {
        return FailedResult(f, withMapping.error, isoOf);
      }
      result := withMapping.value;
    }
    assert MapStep(resolver, mappingExists, f.path, docType, env) == Ok(result);
    result := Put(result, "document_type", Str(docType.Name()));
    result := Put(result, "file_path", Str(f.path));
    var assessed := AssessNeedsOcr(result);
    if assessed.Raised? {
      return FailedResult(f, assessed.error, isoOf);
    }
    var (needsOcr, reasons) := assessed.value;
    var withOcr := UpdateMeta(result, [("needs_ocr", Bool(needsOcr)), ("needs_ocr_reasons", List(FileMapping.StrValues(reasons)))],
                              NoUpdateError);
    result := withOcr.value;
    if needsOcr && IsSuccess(result) {
      result := Put(result, "status", Str("partial"));
    }
    var withFingerprint := UpdateMeta(result, FingerprintMeta(f.fingerprint, isoOf), NoUpdateError);
    if withFingerprint.Raised? {
      return FailedResult(f, withFingerprint.error, isoOf);
    }
    result := withFingerprint.value;
  }

  lemma PutOther(f: Fields, k: string, v: Value, k2: string)
    requires k2 != k
    ensures Get(Put(f, k, v), k2) == Get(f, k2)
  {
    PutGet(f, k, v, k2);
  }

  /** Mapping changes only the data and the metadata. */
  lemma MapStepKeeps(resolver: FileMapping.MappingResolver, mappingExists: bool, path: string,
                     docType: Classifier.DocumentType, env: Fields)
    requires MapStep(resolver, mappingExists, path, docType, env).Ok?
    ensures Get(MapStep(resolver, mappingExists, path, docType, env).value, "status") == Get(env, "status")
  {
    if IsSuccess(env) && Truthy(GetOrNull(env, "data")) {
      var mapping := resolver.Resolve(docType.Name(), Text.Basename(path), mappingExists);
      var (mappedData, mappingMeta) := FileMapping.ApplyMappingSpec(GetOrNull(env, "data"), mapping);
      PutOther(env, "data", mappedData, "status");
    }
  }

  lemma LabelFacts(r: Fields, path: string, name: string)
    ensures var out := Label(r, path, name);
      && Get(out, "status") == Get(r, "status") && Get(out, "metadata") == Get(r, "metadata")
      && Get(out, "file_path") == Some(Str(path)) && Get(out, "document_type") == Some(Str(name))
  {
    var r2a := Put(r, "document_type", Str(name));
    PutOther(r, "document_type", Str(name), "status");
    PutOther(r, "document_type", Str(name), "metadata");
    PutGet(r, "document_type", Str(name), "document_type");
    PutOther(r2a, "file_path", Str(path), "status");
    PutOther(r2a, "file_path", Str(path), "metadata");
    PutOther(r2a, "file_path", Str(path), "document_type");
    PutGet(r2a, "file_path", Str(path), "file_path");
  }

  /** Marking a result partial changes only its status. */
  lemma MarkPartial(r: Fields, k: string)
    requires k != "status"
    ensures Get(Put(r, "status", Str("partial")), k) == Get(r, k)
    ensures GetOrNull(Put(r, "status", Str("partial")), "status") == Str("partial")
  {
    PutOther(r, "status", Str("partial"), k);
    PutGet(r, "status", Str("partial"), "status");
  }

  /** An `update` of the metadata keeps every other key and puts the metadata it states. */
  lemma UpdateMetaFacts(r: Fields, entries: Fields, error: string)
    requires UpdateMeta(r, entries, error).Ok?
    ensures var out := UpdateMeta(r, entries, error).value;
      && MetaOf(out) == Some(PutAll(MetaOf(r).value, entries))
      && Get(out, "status") == Get(r, "status")
      && Get(out, "file_path") == Get(r, "file_path")
      && Get(out, "document_type") == Get(r, "document_type")
  {
  }

  /** Updating the metadata, then marking a success partial, changes only the metadata and the status. */
  lemma MarkAfterUpdate(r: Fields, r3: Fields, entries: Fields, needs: bool)
    requires UpdateMeta(r, entries, NoUpdateError) == Ok(r3)
    ensures var r4 := MarkIfNeeded(r3, needs);
      && MetaOf(r4) == Some(PutAll(MetaOf(r).value, entries))
      && GetOrNull(r4, "status") == (if needs && IsSuccess(r) then Str("partial") else GetOrNull(r, "status"))
      && Get(r4, "file_path") == Get(r, "file_path")
      && Get(r4, "document_type") == Get(r, "document_type")
  {
    UpdateMetaFacts(r, entries, NoUpdateError);
    MarkIfNeededFacts(r3, needs);
    if needs && IsSuccess(r3) {
      MarkPartial(r3, "file_path");
      MarkPartial(r3, "document_type");
    }
  }

  /** The OCR verdict's entries set `needs_ocr`. */
  lemma OcrEntriesNeeds(m: Fields, needs: bool, reasons: seq<string>)
    ensures Get(PutAll(m, OcrEntries(needs, reasons)), "needs_ocr") == Some(Bool(needs))
  {
    GetAt(OcrEntries(needs, reasons), 0);
    PutAllGet(m, OcrEntries(needs, reasons), "needs_ocr");
  }

  /** Marking partial touches only the status. */
  lemma MarkIfNeededFacts(r: Fields, needs: bool)
    ensures forall k :: k != "status" ==> Get(MarkIfNeeded(r, needs), k) == Get(r, k)
    ensures GetOrNull(MarkIfNeeded(r, needs), "status") == if needs && IsSuccess(r) then Str("partial") else GetOrNull(r, "status")
    ensures MetaOf(MarkIfNeeded(r, needs)) == MetaOf(r)
  {
    if needs && IsSuccess(r) {
      forall k | k != "status" ensures Get(MarkIfNeeded(r, needs), k) == Get(r, k) {
        MarkPartial(r, k);
      }
      MarkPartial(r, "metadata");
    }
  }

  /** The metadata entries of the OCR verdict. */
  function OcrEntries(needs: bool, reasons: seq<string>): Fields {
    [("needs_ocr", Bool(needs)), ("needs_ocr_reasons", List(FileMapping.StrValues(reasons)))]
  }

  /** Recording the OCR verdict puts `needs_ocr` and the fingerprint into the metadata and marks a success partial when OCR is needed. */
  lemma RecordOcrFacts(r: Fields, needs: bool, reasons: seq<string>, fp: Fingerprint, isoOf: real -> string)
    requires RecordOcr(r, needs, reasons, fp, isoOf).Ok?
    ensures var out := RecordOcr(r, needs, reasons, fp, isoOf).value;
      && MetaOf(out).Some?
      && GetOrNull(MetaOf(out).value, "needs_ocr") == Bool(needs)
      && GetOrNull(out, "status") == (if needs && IsSuccess(r) then Str("partial") else GetOrNull(r, "status"))
      && Get(out, "file_path") == Get(r, "file_path")
      && Get(out, "document_type") == Get(r, "document_type")
      && Get(MetaOf(out).value, "file_hash") == Some(Str(fp.fileHash))
  {
    var ocrEntries := OcrEntries(needs, reasons);
    var r3 := UpdateMeta(r, ocrEntries, NoUpdateError).value;
    MarkAfterUpdate(r, r3, ocrEntries, needs);
    OcrEntriesNeeds(MetaOf(r).value, needs, reasons);
    var r4 := MarkIfNeeded(r3, needs);
    var m3 := PutAll(MetaOf(r).value, ocrEntries);
    var fpm := FingerprintMeta(fp, isoOf);
    UpdateMetaFacts(r4, fpm, NoUpdateError);
    PutAllOther(m3, fpm, "needs_ocr");
    PutAllGet(m3, fpm, "file_hash");
  }

  /**
   * The OCR step keeps the status, except that a success becomes partial exactly when the
   * heuristic fires, which the metadata records as `needs_ocr`; the fingerprint lands in the
   * metadata; every other top-level key is kept.
   */
  lemma OcrStepFacts(r: Fields, fp: Fingerprint, isoOf: real -> string)
    requires OcrStep(r, fp, isoOf).Ok?
    ensures var out := OcrStep(r, fp, isoOf).value;
      var needs := MetaOf(out).Some? && GetOrNull(MetaOf(out).value, "needs_ocr") == Bool(true);
      && MetaOf(out).Some?
      && GetOrNull(out, "status") == (if needs && IsSuccess(r) then Str("partial") else GetOrNull(r, "status"))
      && Get(out, "file_path") == Get(r, "file_path")
      && Get(out, "document_type") == Get(r, "document_type")
      && Get(MetaOf(out).value, "file_hash") == Some(Str(fp.fileHash))
  {
    var (needs, reasons) := NeedsOcr(r).value;
    RecordOcrFacts(r, needs, reasons, fp, isoOf);
  }

  /**
   * What `Finish` does to the envelope: the status is kept, except that a success becomes
   * partial exactly when the OCR heuristic fires; the path and type are set; the fingerprint is
   * in the metadata.
   */
  lemma FinishFacts(resolver: FileMapping.MappingResolver, mappingExists: bool, f: FileInput,
                    docType: Classifier.DocumentType, env: Fields, isoOf: real -> string)
    requires Finish(resolver, mappingExists, f, docType, env, isoOf).Ok?
    ensures var out := Finish(resolver, mappingExists, f, docType, env, isoOf).value;
      var needs := MetaOf(out).Some? && GetOrNull(MetaOf(out).value, "needs_ocr") == Bool(true);
      && MetaOf(out).Some?
      && GetOrNull(out, "status") == (if needs && IsSuccess(env) then Str("partial") else GetOrNull(env, "status"))
      && Get(out, "file_path") == Some(Str(f.path))
      && Get(out, "document_type") == Some(Str(docType.Name()))
      && Get(MetaOf(out).value, "file_hash") == Some(Str(f.fingerprint.fileHash))
  {
    var r1 := MapStep(resolver, mappingExists, f.path, docType, env).value;
    MapStepKeeps(resolver, mappingExists, f.path, docType, env);
    LabelFacts(r1, f.path, docType.Name());
    OcrStepFacts(Label(r1, f.path, docType.Name()), f.fingerprint, isoOf);
  }

  lemma NoExtractorFields(path: string, t: Classifier.DocumentType)
    ensures var r := NoExtractorResult(path, t);
      GetOrNull(r, "file_path") == Str(path) && GetOrNull(r, "status") == Str("skipped")
      && GetOrNull(r, "error") == Str(NoExtractorMessage)
  {
    var r := NoExtractorResult(path, t);
    GetAt(r, 0);
    GetAt(r, 2);
    GetAt(r, 3);
  }

  lemma FailedFields(f: FileInput, e: string, isoOf: real -> string)
    ensures var r := FailedResult(f, e, isoOf);
      GetOrNull(r, "file_path") == Str(f.path) && GetOrNull(r, "status") == Str("failed")
      && GetOrNull(r, "document_type") == Str("unknown") && GetOrNull(r, "error") == Str(e)
  {
    var r := FailedResult(f, e, isoOf);
    GetAt(r, 0);
    GetAt(r, 1);
    GetAt(r, 2);
    GetAt(r, 3);
  }

  /**
   * The status transitions of `process_file` for a given document type. For an extractor that returns,
   * `FinishFacts` states the exact transition: success becomes partial exactly when needs_ocr is recorded true.
   */
  lemma ProcessTypedStatus(resolver: FileMapping.MappingResolver, mappingExists: bool, f: FileInput,
                           docType: Classifier.DocumentType, isoOf: real -> string)
    ensures var out := ProcessTyped(resolver, mappingExists, f, docType, isoOf);
      && GetOrNull(out, "file_path") == Str(f.path)
      && (Classifier.GetExtractorClass(docType).None? ==>
            GetOrNull(out, "status") == Str("skipped") && GetOrNull(out, "error") == Str(NoExtractorMessage))
      && (Classifier.GetExtractorClass(docType).Some? && f.extraction.Raised? ==>
            GetOrNull(out, "status") == Str("failed") && GetOrNull(out, "document_type") == Str("unknown")
            && GetOrNull(out, "error") == Str(f.extraction.error))
      && (Classifier.GetExtractorClass(docType).Some? && f.extraction.Ok? ==>
            var env := f.extraction.value;
            GetOrNull(out, "status") == Str("failed")
            || GetOrNull(out, "status") == GetOrNull(env, "status")
            || (IsSuccess(env) && GetOrNull(out, "status") == Str("partial")
                && MetaOf(out).Some? && GetOrNull(MetaOf(out).value, "needs_ocr") == Bool(true)))
  {
    if Classifier.GetExtractorClass(docType).None? {
      NoExtractorFields(f.path, docType);
    } else if f.extraction.Raised? {
      FailedFields(f, f.extraction.error, isoOf);
    } else {
      var fin := Finish(resolver, mappingExists, f, docType, f.extraction.value, isoOf);
      if fin.Raised? {
        FailedFields(f, fin.error, isoOf);
      } else {
        FinishFacts(resolver, mappingExists, f, docType, f.extraction.value, isoOf);
      }
    }
  }

  /**
   * The status transitions of `process_file`: every result carries its file path; a type
   * without an extractor is skipped; an extractor that raises gives a failed result of type
   * unknown; otherwise the envelope's status is kept, or the result failed, or a success
   * became partial because the OCR heuristic fired.
   */
  lemma ProcessFileStatus(resolver: FileMapping.MappingResolver, mappingExists: bool, f: FileInput, isoOf: real -> string)
    ensures var out := ProcessFileSpec(resolver, mappingExists, f, isoOf);
      var docType := Classifier.Classify(f.path, f.content);
      && GetOrNull(out, "file_path") == Str(f.path)
      && (Classifier.GetExtractorClass(docType).None? ==>
            GetOrNull(out, "status") == Str("skipped") && GetOrNull(out, "error") == Str(NoExtractorMessage))
      && (Classifier.GetExtractorClass(docType).Some? && f.extraction.Raised? ==>
            GetOrNull(out, "status") == Str("failed") && GetOrNull(out, "document_type") == Str("unknown")
            && GetOrNull(out, "error") == Str(f.extraction.error))
      && (Classifier.GetExtractorClass(docType).Some? && f.extraction.Ok? ==>
            var env := f.extraction.value;
            GetOrNull(out, "status") == Str("failed")
            || GetOrNull(out, "status") == GetOrNull(env, "status")
            || (IsSuccess(env) && GetOrNull(out, "status") == Str("partial")
                && MetaOf(out).Some? && GetOrNull(MetaOf(out).value, "needs_ocr") == Bool(true)))
  {
    ProcessTypedStatus(resolver, mappingExists, f, Classifier.Classify(f.path, f.content), isoOf);
  }

  // ----- a directory run -----

  /** The outcome of the loop of `process_directory`: results so far, the state, and an exception if one escaped. */
  datatype DirRun = DirRun(results: seq<Fields>, state: map<string, Value>, raised: Option<string>)

  /** `process_file`, as the function of the file the directory loop applies. */
  function ProcessWith(resolver: FileMapping.MappingResolver, mappingExists: bool, isoOf: real -> string): FileInput -> Fields {
    f => ProcessFileSpec(resolver, mappingExists, f, isoOf)
  }

  /** `_build_skip_result`, as the function of the file the directory loop applies. */
  function SkipWith(isoOf: real -> string): FileInput -> Fields {
    f => SkipResult(f, isoOf)
  }

  /** One iteration of the loop of `process_directory`; `process` is `process_file` and `skip` is `_build_skip_result`. */
  function Step(incremental: bool, process: FileInput -> Fields, skip: FileInput -> Fields,
                prev: DirRun, f: FileInput): DirRun
  {
    var cached := if incremental then IsUnchanged(prev.state, f.path, f.fingerprint) else Ok(false);
    match cached
    case Raised(e) => DirRun(prev.results, prev.state, Some(e))
    case Ok(isCached) =>
      if isCached then DirRun(prev.results + [skip(f)], prev.state, None)
      else
        var r := process(f);
        var st := if incremental && IsSuccess(r) then prev.state[f.path := FingerprintValue(f.fingerprint)] else prev.state;
        DirRun(prev.results + [r], st, None)
  }

  /** The loop of `process_directory` over the discovered files, from state `s0`; it stops at an exception. */
  function RunFiles(incremental: bool, process: FileInput -> Fields, skip: FileInput -> Fields,
                    files: seq<FileInput>, s0: map<string, Value>): DirRun
    decreases |files|
  {
    if files == [] then DirRun([], s0, None)
    else
      var prev := RunFiles(incremental, process, skip, files[..|files| - 1], s0);
      if prev.raised.Some? then prev
      else Step(incremental, process, skip, prev, files[|files| - 1])
  }

  /** Once an exception escapes, the rest of the files change nothing. */
  lemma {:induction false} RunRaisedStays(incremental: bool, process: FileInput -> Fields, skip: FileInput -> Fields,
                                          files: seq<FileInput>, n: nat, s0: map<string, Value>)
    requires n <= |files|
    requires RunFiles(incremental, process, skip, files[..n], s0).raised.Some?
    ensures RunFiles(incremental, process, skip, files, s0)
         == RunFiles(incremental, process, skip, files[..n], s0)
    decreases |files| - n
  {
    if n < |files| {
      var m := |files| - 1;
      assert files[..m][..n] == files[..n];
      RunRaisedStays(incremental, process, skip, files[..m], n, s0);
    } else {
      assert files[..n] == files;
    }
  }

  /** A run without an exception has one result per file, and its prefixes are the runs of the prefixes. */
  lemma {:induction false} RunPrefix(incremental: bool, process: FileInput -> Fields, skip: FileInput -> Fields,
                                     files: seq<FileInput>, n: nat, s0: map<string, Value>)
    requires n <= |files|
    requires RunFiles(incremental, process, skip, files, s0).raised.None?
    ensures var run := RunFiles(incremental, process, skip, files, s0);
      var pre := RunFiles(incremental, process, skip, files[..n], s0);
      |run.results| == |files| && pre.raised.None? && pre.results == run.results[..n]
    decreases |files|
  {
    if files == [] {
      assert files[..n] == files;
    } else {
      var m := |files| - 1;
      var prev := RunFiles(incremental, process, skip, files[..m], s0);
      assert prev.raised.None?;
      RunPrefix(incremental, process, skip, files[..m], m, s0);
      assert files[..m][..m] == files[..m];
      if n <= m {
        assert files[..m][..n] == files[..n];
        RunPrefix(incremental, process, skip, files[..m], n, s0);
      } else {
        assert files[..n] == files;
      }
    }
  }

  /** The state entry of a path that no later file has is the one the prefix run left. */
  lemma {:induction false} RunStateSuffix(incremental: bool, process: FileInput -> Fields, skip: FileInput -> Fields,
                                          files: seq<FileInput>, n: nat, s0: map<string, Value>, k: string)
    requires n <= |files|
    requires forall j :: n <= j < |files| ==> files[j].path != k
    ensures var run := RunFiles(incremental, process, skip, files, s0);
      var pre := RunFiles(incremental, process, skip, files[..n], s0);
      (k in run.state <==> k in pre.state) && (k in pre.state ==> run.state[k] == pre.state[k])
    decreases |files|
  {
    if n == |files| {
      assert files[..n] == files;
    } else {
      var m := |files| - 1;
      assert files[..m][..n] == files[..n];
      RunStateSuffix(incremental, process, skip, files[..m], n, s0, k);
      var prev := RunFiles(incremental, process, skip, files[..m], s0);
      if prev.raised.None? {
        StepKeepsOther(incremental, process, skip, prev, files[m], k);
      }
    }
  }

  /** A step for another path leaves the entry of `k` as it was. */
  lemma StepKeepsOther(incremental: bool, process: FileInput -> Fields, skip: FileInput -> Fields,
                       prev: DirRun, f: FileInput, k: string)
    requires f.path != k
    ensures var st := Step(incremental, process, skip, prev, f);
      (k in st.state <==> k in prev.state) && (k in prev.state ==> st.state[k] == prev.state[k])
  {
  }

  /**
   * Every entry of `s0` is still in the state of `run`, and an entry that is new or changed is
   * the fingerprint of a file of `files` whose result is a success, in incremental mode only.
   */
  ghost predicate StateExplained(incremental: bool, files: seq<FileInput>, s0: map<string, Value>, run: DirRun) {
    && (forall k :: k in s0 ==> k in run.state)
    && (forall k :: k in run.state && !(k in s0 && run.state[k] == s0[k]) ==>
          incremental && (exists i :: (0 <= i < |run.results| && i < |files| && files[i].path == k
            && IsSuccess(run.results[i]) && run.state[k] == FingerprintValue(files[i].fingerprint))))
  }

  /** State entries only ever change to the fingerprint of a file with a success result, and only in incremental mode; no entry is ever removed. */
  lemma {:induction false} RunStateWrites(incremental: bool, process: FileInput -> Fields, skip: FileInput -> Fields,
                                          files: seq<FileInput>, s0: map<string, Value>)
    ensures StateExplained(incremental, files, s0, RunFiles(incremental, process, skip, files, s0))
    decreases |files|
  {
    if files != [] {
      var m := |files| - 1;
      var prev := RunFiles(incremental, process, skip, files[..m], s0);
      RunStateWrites(incremental, process, skip, files[..m], s0);
      RunLength(incremental, process, skip, files[..m], s0);
      if prev.raised.None? {
        assert files == files[..m] + [files[m]];
        StepExplained(incremental, process, skip, files[..m], files[m], s0, prev);
      }
    }
  }

  /** One iteration after an explained run leaves an explained run. */
  lemma StepExplained(incremental: bool, process: FileInput -> Fields, skip: FileInput -> Fields,
                      pre: seq<FileInput>, f: FileInput, s0: map<string, Value>, prev: DirRun)
    requires prev.raised.None? && |prev.results| == |pre|
    requires StateExplained(incremental, pre, s0, prev)
    ensures StateExplained(incremental, pre + [f], s0, Step(incremental, process, skip, prev, f))
  {
    var run := Step(incremental, process, skip, prev, f);
    var files := pre + [f];
    StepFacts(incremental, process, skip, prev, f);
    forall k | k in run.state && !(k in s0 && run.state[k] == s0[k])
      ensures incremental && (exists i :: (0 <= i < |run.results| && i < |files| && files[i].path == k
          && IsSuccess(run.results[i]) && run.state[k] == FingerprintValue(files[i].fingerprint)))
    {
      if k in prev.state && run.state[k] == prev.state[k] {
        var i :| 0 <= i < |prev.results| && i < |pre| && pre[i].path == k
          && IsSuccess(prev.results[i]) && prev.state[k] == FingerprintValue(pre[i].fingerprint);
        assert files[i] == pre[i];
        assert run.results[i] == prev.results[i];
      } else {
        assert files[|pre|] == f;
      }
    }
  }

  /**
   * One iteration either raises and changes nothing, or appends one result; it changes the
   * state only by storing the file's fingerprint after a success in incremental mode.
   */
  lemma StepFacts(incremental: bool, process: FileInput -> Fields, skip: FileInput -> Fields, prev: DirRun, f: FileInput)
    ensures var st := Step(incremental, process, skip, prev, f);
      && (st.raised.Some? ==> st.results == prev.results && st.state == prev.state)
      && (st.raised.None? ==> |st.results| == |prev.results| + 1 && st.results[..|prev.results|] == prev.results)
      && (st.state == prev.state
          || (incremental && st.raised.None? && IsSuccess(st.results[|prev.results|])
              && st.state == prev.state[f.path := FingerprintValue(f.fingerprint)]))
  {
    var st := Step(incremental, process, skip, prev, f);
    if st.raised.None? {
      assert st.results[..|prev.results|] == prev.results;
    }
  }

  /** Without an exception, a run has one result per file. */
  lemma {:induction false} RunLength(incremental: bool, process: FileInput -> Fields, skip: FileInput -> Fields,
                                     files: seq<FileInput>, s0: map<string, Value>)
    ensures var run := RunFiles(incremental, process, skip, files, s0);
      |run.results| <= |files| && (run.raised.None? ==> |run.results| == |files|)
    decreases |files|
  {
    if files != [] {
      RunLength(incremental, process, skip, files[..|files| - 1], s0);
    }
  }

  /** A run that is not incremental processes every file and never touches the state. */
  lemma {:induction false} RunNonIncremental(process: FileInput -> Fields, skip: FileInput -> Fields,
                                             files: seq<FileInput>, s0: map<string, Value>)
    ensures var run := RunFiles(false, process, skip, files, s0);
      && run.raised.None? && run.state == s0 && |run.results| == |files|
      && forall i :: 0 <= i < |files| ==> run.results[i] == process(files[i])
    decreases |files|
  {
    if files != [] {
      var m := |files| - 1;
      RunNonIncremental(process, skip, files[..m], s0);
    }
  }

  predicate DistinctPaths(files: seq<FileInput>) {
    forall i, j :: 0 <= i < j < |files| ==> files[i].path != files[j].path
  }

  /** The result of file `i` is the one its iteration appended. */
  lemma ResultAt(incremental: bool, process: FileInput -> Fields, skip: FileInput -> Fields,
                 files: seq<FileInput>, i: nat, s0: map<string, Value>)
    requires i < |files|
    requires RunFiles(incremental, process, skip, files, s0).raised.None?
    ensures var run := RunFiles(incremental, process, skip, files, s0);
      var pre := RunFiles(incremental, process, skip, files[..i], s0);
      var step := Step(incremental, process, skip, pre, files[i]);
      pre.raised.None? && |pre.results| == i && step.raised.None? && |run.results| == |files|
      && run.results[i] == step.results[i]
      && RunFiles(incremental, process, skip, files[..i + 1], s0) == step
  {
    RunPrefix(incremental, process, skip, files, i + 1, s0);
    RunPrefix(incremental, process, skip, files, i, s0);
    assert files[..i + 1][..i] == files[..i];
  }

  /**
   * In incremental mode, with distinct paths and no exception, file `i` gets a skip result
   * exactly when the loaded state holds its fingerprint, and is processed otherwise.
   */
  lemma RunSkipsUnchanged(process: FileInput -> Fields, skip: FileInput -> Fields,
                          files: seq<FileInput>, i: nat, s0: map<string, Value>)
    requires DistinctPaths(files) && i < |files|
    requires RunFiles(true, process, skip, files, s0).raised.None?
    ensures var run := RunFiles(true, process, skip, files, s0);
      |run.results| == |files|
      && (IsUnchanged(s0, files[i].path, files[i].fingerprint) == Ok(true) ==> run.results[i] == skip(files[i]))
      && (IsUnchanged(s0, files[i].path, files[i].fingerprint) == Ok(false) ==>
            run.results[i] == process(files[i]))
  {
    ResultAt(true, process, skip, files, i, s0);
    var pre := RunFiles(true, process, skip, files[..i], s0);
    RunStateSuffix(true, process, skip, files[..i], 0, s0, files[i].path);
    assert files[..i][..0] == [];
    assert IsUnchanged(pre.state, files[i].path, files[i].fingerprint)
        == IsUnchanged(s0, files[i].path, files[i].fingerprint);
  }

  /**
   * In incremental mode, with distinct paths and no exception, a file with a success result
   * leaves its fingerprint in the state, so a run from that state skips it.
   */
  lemma RunCachesSuccess(process: FileInput -> Fields, skip: FileInput -> Fields,
                         files: seq<FileInput>, i: nat, s0: map<string, Value>)
    requires DistinctPaths(files) && i < |files|
    requires RunFiles(true, process, skip, files, s0).raised.None?
    requires forall f :: !IsSuccess(skip(f))
    requires i < |RunFiles(true, process, skip, files, s0).results|
    requires IsSuccess(RunFiles(true, process, skip, files, s0).results[i])
    ensures var run := RunFiles(true, process, skip, files, s0);
      files[i].path in run.state && run.state[files[i].path] == FingerprintValue(files[i].fingerprint)
      && IsUnchanged(run.state, files[i].path, files[i].fingerprint) == Ok(true)
  {
    var run := RunFiles(true, process, skip, files, s0);
    var f := files[i];
    PrefixStoresSuccess(process, skip, files, i, s0);
    assert forall j :: i + 1 <= j < |files| ==> files[j].path != f.path;
    RunStateSuffix(true, process, skip, files, i + 1, s0, f.path);
    CachedFingerprintIsUnchanged(run.state, f.path, f.fingerprint);
  }

  /** The run up to and including a success stores its fingerprint. */
  lemma PrefixStoresSuccess(process: FileInput -> Fields, skip: FileInput -> Fields,
                            files: seq<FileInput>, i: nat, s0: map<string, Value>)
    requires i < |files|
    requires RunFiles(true, process, skip, files, s0).raised.None?
    requires forall f :: !IsSuccess(skip(f))
    requires i < |RunFiles(true, process, skip, files, s0).results|
    requires IsSuccess(RunFiles(true, process, skip, files, s0).results[i])
    ensures var st := RunFiles(true, process, skip, files[..i + 1], s0).state;
      files[i].path in st && st[files[i].path] == FingerprintValue(files[i].fingerprint)
  {
    ResultAt(true, process, skip, files, i, s0);
    var pre := RunFiles(true, process, skip, files[..i], s0);
    StepStoresSuccess(process, skip, pre, files[i]);
  }

  /** An incremental step whose result is a success, when skips never are, stores the file's fingerprint. */
  lemma StepStoresSuccess(process: FileInput -> Fields, skip: FileInput -> Fields, prev: DirRun, f: FileInput)
    requires forall g :: !IsSuccess(skip(g))
    requires var st := Step(true, process, skip, prev, f);
      st.raised.None? && |st.results| == |prev.results| + 1 && IsSuccess(st.results[|prev.results|])
    ensures var st := Step(true, process, skip, prev, f);
      f.path in st.state && st.state[f.path] == FingerprintValue(f.fingerprint)
  {
  }

  /** A skip result is never a success. */
  lemma SkipNotSuccess(isoOf: real -> string)
    ensures forall f :: GetOrNull(SkipWith(isoOf)(f), "status") == Str("skipped")
  {
    forall f ensures GetOrNull(SkipWith(isoOf)(f), "status") == Str("skipped") {
      GetAt(SkipResult(f, isoOf), 2);
    }
  }

  // ----- the summary -----

  /** A document type's counters in `by_document_type`. */
  datatype TypeCounts = TypeCounts(total: nat, successful: nat, failed: nat)

  /** `get_summary`'s dict; `successRate` is the text `f"{rate:.1f}%"` renders. */
  datatype Summary = Summary(
    totalFiles: nat,
    successful: nat,
    failed: nat,
    skipped: nat,
    successRate: string,
    byType: seq<(Value, TypeCounts)>)

  predicate StatusIs(r: Fields, status: string) {
    GetOrNull(r, "status") == Str(status)
  }

  /** `sum(1 for r in results if r.get("status") == status)`. */
  function CountStatus(rs: seq<Fields>, status: string): (n: nat)
    ensures n <= |rs|
    ensures n == 0 <==> forall i :: 0 <= i < |rs| ==> !StatusIs(rs[i], status)
  {
    if rs == [] then 0
    else
      var prefix := rs[..|rs| - 1];
      assert rs == prefix + [rs[|rs| - 1]];
      CountStatus(prefix, status) + if StatusIs(rs[|rs| - 1], status) then 1 else 0
  }

  /** `result.get("document_type", "unknown")`. */
  function DocTypeOf(r: Fields): Value {
    Get(r, "document_type").GetOr(Str("unknown"))
  }

  /** The position of a type in the `by_type` dict. */
  function FindType(bt: seq<(Value, TypeCounts)>, key: Value): (r: Option<nat>)
    ensures r.Some? ==> r.value < |bt| && bt[r.value].0 == key
    ensures r.None? ==> forall i :: 0 <= i < |bt| ==> bt[i].0 != key
  {
    if bt == [] then None
    else if bt[|bt| - 1].0 == key then Some(|bt| - 1)
    else FindType(bt[..|bt| - 1], key)
  }

  /** One iteration of the grouping loop: add the type if new, then count the result in it. */
  function Tally(bt: seq<(Value, TypeCounts)>, r: Fields): seq<(Value, TypeCounts)> {
    var key := DocTypeOf(r);
    var pos := FindType(bt, key);
    var c := if pos.Some? then bt[pos.value].1 else TypeCounts(0, 0, 0);
    var c' := TypeCounts(c.total + 1,
      c.successful + (if StatusIs(r, "success") then 1 else 0),
      c.failed + (if !StatusIs(r, "success") && StatusIs(r, "failed") then 1 else 0));
    if pos.Some? then bt[pos.value := (key, c')] else bt + [(key, c')]
  }

  /** The grouping loop of `get_summary`. */
  function ByType(rs: seq<Fields>): seq<(Value, TypeCounts)>
  {
    if rs == [] then [] else Tally(ByType(rs[..|rs| - 1]), rs[|rs| - 1])
  }

  /** `successful/total*100`: a percentage between 0 and 100. */
  function SuccessRate(successful: nat, total: nat): (r: real)
    requires 0 < total
    ensures successful <= total ==> 0.0 <= r <= 100.0
  {
    var ratio := successful as real / total as real;
    assert successful <= total ==> ratio <= 1.0 by {
      if successful <= total {
        assert ratio * total as real == successful as real;
      }
    }
    ratio * 100.0
  }

  /** `get_summary`: None for `{}`; `rateText` renders the percentage. */
  function SummaryOf(rs: seq<Fields>, rateText: real -> string): Option<Summary> {
    if rs == [] then None
    else
      var successful := CountStatus(rs, "success");
      Some(Summary(|rs|, successful, CountStatus(rs, "failed"), CountStatus(rs, "skipped"),
        rateText(SuccessRate(successful, |rs|)), ByType(rs)))
  }

  lemma ByTypeStep(rs: seq<Fields>, i: nat)
    requires i < |rs|
    ensures ByType(rs[..i + 1]) == Tally(ByType(rs[..i]), rs[i])
  {
    assert rs[..i + 1][..i] == rs[..i];
  }

  datatype Counter = Total | Successful | Failed

  function Pick(c: TypeCounts, w: Counter): nat {
    match w
    case Total => c.total
    case Successful => c.successful
    case Failed => c.failed
  }

  /** A counter summed over every type. */
  function SumOf(bt: seq<(Value, TypeCounts)>, w: Counter): nat {
    if bt == [] then 0 else SumOf(bt[..|bt| - 1], w) + Pick(bt[|bt| - 1].1, w)
  }

  lemma {:induction false} SumUpdate(bt: seq<(Value, TypeCounts)>, i: nat, e: (Value, TypeCounts), w: Counter)
    requires i < |bt|
    ensures SumOf(bt[i := e], w) == SumOf(bt, w) - Pick(bt[i].1, w) + Pick(e.1, w)
    decreases |bt|
  {
    var m := |bt| - 1;
    if i < m {
      assert bt[i := e][..m] == bt[..m][i := e];
      SumUpdate(bt[..m], i, e, w);
    } else {
      assert bt[i := e][..m] == bt[..m];
    }
  }

  /** Counting a result adds one to the total, to successful exactly for a success, to failed exactly for a failure. */
  lemma TallySums(bt: seq<(Value, TypeCounts)>, r: Fields)
    ensures SumOf(Tally(bt, r), Total) == SumOf(bt, Total) + 1
    ensures SumOf(Tally(bt, r), Successful) == SumOf(bt, Successful) + (if StatusIs(r, "success") then 1 else 0)
    ensures SumOf(Tally(bt, r), Failed) == SumOf(bt, Failed) + (if StatusIs(r, "failed") then 1 else 0)
  {
    var key := DocTypeOf(r);
    var pos := FindType(bt, key);
    var t := Tally(bt, r);
    if pos.Some? {
      var c := bt[pos.value].1;
      var c' := TypeCounts(c.total + 1,
        c.successful + (if StatusIs(r, "success") then 1 else 0),
        c.failed + (if !StatusIs(r, "success") && StatusIs(r, "failed") then 1 else 0));
      SumUpdate(bt, pos.value, (key, c'), Total);
      SumUpdate(bt, pos.value, (key, c'), Successful);
      SumUpdate(bt, pos.value, (key, c'), Failed);
    } else {
      assert t[..|bt|] == bt;
    }
  }

  /**
   * The per-type counters add up: the totals to the number of results, the successes and
   * failures to the summary's own counts.
   */
  lemma {:induction false} ByTypeSums(rs: seq<Fields>)
    ensures SumOf(ByType(rs), Total) == |rs|
    ensures SumOf(ByType(rs), Successful) == CountStatus(rs, "success")
    ensures SumOf(ByType(rs), Failed) == CountStatus(rs, "failed")
    decreases |rs|
  {
    if rs != [] {
      ByTypeSums(rs[..|rs| - 1]);
      TallySums(ByType(rs[..|rs| - 1]), rs[|rs| - 1]);
    }
  }

  /** Each document type appears once, and its successes and failures are within its total. */
  predicate WellFormedByType(bt: seq<(Value, TypeCounts)>) {
    && (forall i, j :: 0 <= i < j < |bt| ==> bt[i].0 != bt[j].0)
    && (forall i :: 0 <= i < |bt| ==> bt[i].1.successful + bt[i].1.failed <= bt[i].1.total)
  }

  /** Counting one more result keeps the types distinct and each type's counters within its total. */
  lemma TallyWellFormed(bt: seq<(Value, TypeCounts)>, r: Fields)
    requires WellFormedByType(bt)
    ensures WellFormedByType(Tally(bt, r))
  {
    var pos := FindType(bt, DocTypeOf(r));
    var t := Tally(bt, r);
    if pos.Some? {
      assert forall i :: 0 <= i < |t| && i != pos.value ==> t[i] == bt[i];
    } else {
      assert forall i :: 0 <= i < |bt| ==> t[i] == bt[i];
    }
  }

  /** Each document type appears once in `by_document_type`, and its successes and failures are within its total. */
  lemma {:induction false} ByTypeWellFormed(rs: seq<Fields>)
    ensures WellFormedByType(ByType(rs))
    decreases |rs|
  {
    if rs != [] {
      ByTypeWellFormed(rs[..|rs| - 1]);
      TallyWellFormed(ByType(rs[..|rs| - 1]), rs[|rs| - 1]);
    }
  }

  /** A result has one status, so the success, failure and skip counts never exceed the total. */
  lemma {:induction false} StatusCountsBound(rs: seq<Fields>)
    ensures CountStatus(rs, "success") + CountStatus(rs, "failed") + CountStatus(rs, "skipped") <= |rs|
    decreases |rs|
  {
    if rs != [] {
      StatusCountsBound(rs[..|rs| - 1]);
    }
  }

  /** `get_summary`: the three counts are expressions; the grouping is a loop over the results. */
  method Summarize(rs: seq<Fields>, rateText: real -> string) returns (summary: Option<Summary>)
    ensures summary == SummaryOf(rs, rateText)
  {
    if rs == [] {
      return None;
    }
    var successful := CountStatus(rs, "success");
    var byType: seq<(Value, TypeCounts)> := [];
    var i := 0;
    while i < |rs|
      invariant 0 <= i <= |rs|
      invariant byType == ByType(rs[..i])
    {
      ByTypeStep(rs, i);
      byType := Tally(byType, rs[i]);
      i := i + 1;
    }
    assert rs[..i] == rs;
    summary := Some(Summary(|rs|, successful, CountStatus(rs, "failed"), CountStatus(rs, "skipped"),
      rateText(SuccessRate(successful, |rs|)), byType));
  }

  /** One more file is one more step of the loop. */
  lemma RunFilesStep(incremental: bool, process: FileInput -> Fields, skip: FileInput -> Fields,
                     files: seq<FileInput>, i: nat, s0: map<string, Value>)
    requires i < |files|
    requires RunFiles(incremental, process, skip, files[..i], s0).raised.None?
    ensures RunFiles(incremental, process, skip, files[..i + 1], s0)
         == Step(incremental, process, skip, RunFiles(incremental, process, skip, files[..i], s0), files[i])
  {
    assert files[..i + 1][..i] == files[..i];
  }

  /** The loop of `process_directory` over the discovered files, from the loaded state `s0`. */
  method RunDirectory(incremental: bool, resolver: FileMapping.MappingResolver, mappingExists: bool,
                      files: seq<FileInput>, s0: map<string, Value>, isoOf: real -> string) returns (run: DirRun)
    ensures run == RunFiles(incremental, ProcessWith(resolver, mappingExists, isoOf), SkipWith(isoOf), files, s0)
  {
    var process := ProcessWith(resolver, mappingExists, isoOf);
    var skip := SkipWith(isoOf);
    run := DirRun([], s0, None);
    var i := 0;
    while i < |files|
      invariant 0 <= i <= |files|
      invariant run.raised.None? && RunFiles(incremental, process, skip, files[..i], s0) == run
    {
      RunFilesStep(incremental, process, skip, files, i, s0);
      run := DirectoryStep(incremental, resolver, mappingExists, run, files[i], isoOf);
      if run.raised.Some? {
        RunRaisedStays(incremental, process, skip, files, i + 1, s0);
        return;
      }
      i := i + 1;
    }
    assert files[..i] == files;
  }

  /** One iteration of the loop of `process_directory`. */
  method DirectoryStep(incremental: bool, resolver: FileMapping.MappingResolver, mappingExists: bool,
                       prev: DirRun, f: FileInput, isoOf: real -> string) returns (next: DirRun)
    ensures next == Step(incremental, ProcessWith(resolver, mappingExists, isoOf), SkipWith(isoOf), prev, f)
  {
    var st := prev.state;
    if incremental {
      var cached := IsUnchanged(st, f.path, f.fingerprint);
      if cached.Raised? {
        return DirRun(prev.results, st, Some(cached.error));
      }
      if cached.value {
        return DirRun(prev.results + [SkipResult(f, isoOf)], st, None);
      }
    }
    var r := ProcessFile(resolver, mappingExists, f, isoOf);
    if incremental && IsSuccess(r) {
      st := st[f.path := FingerprintValue(f.fingerprint)];
    }
    return DirRun(prev.results + [r], st, None);
  }

  /**
   * `process_directory`'s pipeline: the mapping resolver, the incremental flag, the state
   * cache, the last run's results, and each state it saved.
   */
  class Pipeline {
    const incremental: bool
    const resolver: FileMapping.MappingResolver
    var state: map<string, Value>
    var results: seq<Fields>
    var savedStates: seq<map<string, Value>>

    constructor (incremental: bool, resolver: FileMapping.MappingResolver)
      ensures this.incremental == incremental && this.resolver == resolver
      ensures state == map[] && results == [] && savedStates == []
    {
      this.incremental := incremental;
      this.resolver := resolver;
      state := map[];
      results := [];
      savedStates := [];
    }

    /**
     * `process_directory` over the discovered files, in discovery order: the state is loaded
     * and saved only in incremental mode; an escaping exception leaves the results as they
     * were and saves nothing.
     */
    method ProcessDirectory(files: seq<FileInput>, stateFile: StateFile, mappingExists: bool, isoOf: real -> string)
      returns (out: Result<seq<Fields>>)
      modifies this
      ensures var s0 := if incremental then LoadState(stateFile) else old(state);
        var run := RunFiles(incremental, ProcessWith(resolver, mappingExists, isoOf), SkipWith(isoOf), files, s0);
        && state == run.state
        && (run.raised.None? ==>
              (out == Ok(run.results) && results == run.results
               && savedStates == old(savedStates) + (if incremental then [run.state] else [])))
        && (run.raised.Some? ==>
              (out == Raised(run.raised.value) && results == old(results) && savedStates == old(savedStates)))
    {
      if incremental {
        state := LoadState(stateFile);
      }
      var run := RunDirectory(incremental, resolver, mappingExists, files, state, isoOf);
      state := run.state;
      if run.raised.Some? {
        return Raised(run.raised.value);
      }
      results := run.results;
      if incremental {
        savedStates := savedStates + [state];
      }
      return Ok(run.results);
    }

    /** `get_summary` over the last run's results. */
    method GetSummary(rateText: real -> string) returns (summary: Option<Summary>)
      ensures summary == SummaryOf(results, rateText)
    {
      summary := Summarize(results, rateText);
    }
  }
}
