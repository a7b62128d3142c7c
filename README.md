# Bid PDF document processor — a Dafny model of its core

The system turns public-procurement PDFs into structured records. It works in these steps:

1. It classifies each document by its file name, falling back to the text of the first page. The types are invitation to bid, bid tabulation, award letter, Item C report, bid summary and bids as read.
2. It runs the extractor registered for the type and wraps the result in a status/data/metadata envelope.
3. Optionally, it falls back to an LLM extractor when the rule-based result's confidence is below a threshold.
4. It reshapes the data through per-type field mappings.
5. It flags documents that probably need OCR.
6. It validates business rules, such as the award matching the winning bid and dates in order.
7. It loads the records into a relational store, de-duplicating bidders.

An incremental pipeline caches file fingerprints, and S3 helpers list, download and move the source files and upload the results. An evaluation script compares the rule-based and LLM extractors field by field.

This project models that core in Dafny, one module per source file:

| module | source |
|---|---|
| `Classifier` | `src/pipeline/classifier.py` |
| `BaseExtractor` | `src/extractors/base_extractor.py` |
| `LlmExtractor` | `src/extractors/llm_extractor.py` |
| `BidTabs` | `src/extractors/bid_tabs_extractor.py` |
| `BidsAsRead` | `src/extractors/bids_as_read_extractor.py` |
| `Ocr` | `src/transformers/ocr.py` |
| `FileMapping` | `src/transformers/file_mapping.py` |
| `Orchestrator` | `src/pipeline/orchestrator.py` |
| `BusinessRules` | `src/validators/business_rules.py` |
| `PostgresLoader` | `src/loaders/postgres_loader.py` |
| `Schemas` | `src/models/schemas.py` |
| `S3` | `src/ingestors/s3_ingestor.py` and `src/loaders/s3_loader.py` |
| `Evaluate` | `scripts/evaluate_llm.py` |

Five support modules give Python's semantics for what the core relies on:

- `Wrappers`: `Option` and `Result`.
- `Text`: Python string methods on `seq<char>`, ASCII case mapping, and `str.isspace` whitespace.
- `Values`: a JSON-like `Value` with Python truthiness, and dicts as insertion-ordered association lists.
- `Environment`: `os.getenv` over a map.
- `Patterns`: the simple regular expressions the extractors and the loader share, `DA\d{5}` and `\d{8}`.

How the code's effects appear in the model:

- An exception the code raises and does not catch is a `Raised`/`Err` result, never a precondition.
- State that the code updates in place is a `class` with `modifies` clauses. This covers the pipeline's state cache, the mapping resolver, the database session, the S3 client's call log and the evaluator's results.
- Each `for` or `while` loop of the source that updates variables or state is a `method` with a loop and its invariants. It is proved against a specification function, and the properties are proved about that function as lemmas. Comprehensions and generator expressions are recursive functions. The one loop that only writes a file (the JSON Lines upload) is modelled by the text it writes (`JsonLines`).

## Model

| member | source | states |
|---|---|---|
| `Classifier.FileName` | src/pipeline/classifier.py:23-30 | the classifier's file name is the last path component, lowercased, so it holds no `/` |
| `Classifier.ClassifyByFilename` | src/pipeline/classifier.py:55-77 | each type is returned exactly when its rule matches and no earlier rule does. Invitation needs "invitation" and "bid", and award letter needs "award" and "letter". The other types need any one of their spellings. Unknown means no rule matches |
| `Classifier.ClassifyByContent` | src/pipeline/classifier.py:79-109 | an unreadable document, or one with no pages, is Unknown. Content never yields bid summary. A recognised type is decided by the rules, in order, on the lowercased first page |
| `Classifier.Classify` | src/pipeline/classifier.py:33-45 | the file-name result when it is not Unknown, otherwise the content result |
| `Classifier.ClassifyFilenameOnly` | src/pipeline/classifier.py:47-53 | it reads no content: it gives Unknown, or what `classify` gives for an unreadable file |
| `Classifier.GetExtractorClass` | src/pipeline/classifier.py:111-138 | exactly Unknown has no extractor |
| `Classifier.ExtractorInjective` | src/pipeline/classifier.py:129-136 | distinct document types are registered with distinct extractors |
| `Classifier.ClassifyIgnoresContent` | src/pipeline/classifier.py:33-45 | a file recognised by its name gets the same type whatever its content |
| `Classifier.BidTabsExcludesInvitation` | src/pipeline/classifier.py:59-64 | a name classified as bid tabs does not contain "invitation", because the invitation rule comes first and every bid-tabs spelling contains "bid" |
| `Classifier.BidsAsReadExcludesInvitation` | src/pipeline/classifier.py:59-75 | the same holds for the bid-summary and bids-as-read results |
| `BaseExtractor.JoinPages` | src/extractors/base_extractor.py:38-42 | the joined text succeeds exactly when every page has text (`None + "\n"` raises TypeError). Its length is the summed page lengths plus one "\n" per page, and it ends with the last page and "\n" |
| `BaseExtractor.ExtractText` | src/extractors/base_extractor.py:31-45 | the page loop computes the joined text; a reader error is re-raised |
| `BaseExtractor.ExtractTextFromPage` | src/extractors/base_extractor.py:47-64 | an index in range yields that page, and a negative index counts from the end as Python indexing does. A number at or past the page count raises "Page n does not exist"; success happens exactly in Python's index range |
| `BaseExtractor.PageStats` | src/extractors/base_extractor.py:166-178 | the page count is the number of pages, and pages with content are at most the page count and at most the text length. No page has content exactly when the count is 0 |
| `BaseExtractor.TextLengthOnlyFromContent` | src/extractors/base_extractor.py:170-175 | only pages with content add to the text length, so no page of content means length 0, and the length never exceeds the total page text |
| `BaseExtractor.TextStatsOf` | src/extractors/base_extractor.py:155-180 | a reader failure gives all zeros. Otherwise the page count is the number of pages and the pages with content are within it |
| `BaseExtractor.ExtractTextStats` | src/extractors/base_extractor.py:155-180 | the loop over the pages computes exactly `TextStatsOf` |
| `BaseExtractor.StatsOfEmptyAndTextPage` | tests/test_ocr_alerts.py:22-34 | an empty page plus "Some text" gives text length 9, one page with content and two pages |
| `BaseExtractor.RunExtraction` | src/extractors/base_extractor.py:76-135 | the envelope's status is "success" exactly when `extract` returned, with its data; otherwise it is "failed" with data None. An "error" key appears exactly on failure and holds the message. The metadata (path, method, time, text statistics) is the same shape either way, and nothing propagates |
| `BaseExtractor.SuccessEnvelope` | src/extractors/base_extractor.py:95-112 | a success envelope: status "success", the data, no error, and the metadata |
| `BaseExtractor.FailedEnvelope` | src/extractors/base_extractor.py:114-135 | a failed envelope: status "failed", data None, the error text, and the metadata |
| `BaseExtractor.EnvelopeMetadata` | src/extractors/base_extractor.py:100-110 | the metadata records the text length and the pages with content from the statistics |
| `BaseExtractor.CountConfidenceFilled` | src/extractors/base_extractor.py:150-152 | the filled count is at most the number of values: 0 exactly when none is filled, all exactly when every value is filled. Only None and "" are unfilled |
| `BaseExtractor.ConfidenceScore` | src/extractors/base_extractor.py:137-153 | it raises exactly for truthy data that is not a dict: a number or True fails at `len()`, a string or a list at `values()`. Falsy data scores 0.0, every score lies in [0,1], and a non-empty dict scores `CountConfidenceFilled` of its values divided by its length |
| `BaseExtractor.CountConfidenceFilledUpdate` | src/extractors/base_extractor.py:151 | replacing one value changes the filled count by +1, -1 or 0, as the old and new values are filled or not |
| `BaseExtractor.ConfidenceMonotone` | src/extractors/base_extractor.py:146-153 | replacing a None or "" value of a dict never lowers its confidence, and replacing it with a filled value raises the confidence strictly |
| `BaseExtractor.RatioStep` | src/extractors/base_extractor.py:153 | of two counts out of the same total, the larger count gives the larger ratio |
| `BaseExtractor.RatioBounds` | src/extractors/base_extractor.py:150-153 | filled/total lies in [0,1], is 0 exactly when nothing is filled and is 1 exactly when everything is |
| `Orchestrator.IsUnchanged` | src/pipeline/orchestrator.py:86-96 | a path with no cached entry, or only a falsy one, is never unchanged. A truthy cached entry that is not a dict raises |
| `Orchestrator.StoredFingerprintIsUnchanged` | src/pipeline/orchestrator.py:86-96 | a path whose cached fingerprint equals the current one is unchanged |
| `Orchestrator.ChangedFingerprintIsChanged` | src/pipeline/orchestrator.py:92-96 | if the hash, size or mtime differs from the cached fingerprint, the path is changed |
| `Orchestrator.FingerprintFields` | src/pipeline/orchestrator.py:92-96 | the stored fingerprint dict gives back the hash, the size and the mtime that `_is_unchanged` compares |
| `Orchestrator.CachedFingerprintIsUnchanged` | src/pipeline/orchestrator.py:86-96 | a path whose cache entry is the current fingerprint is unchanged |
| `Orchestrator.LoadState` | src/pipeline/orchestrator.py:65-76 | the stored dict when the state file holds one; `{}` when it is missing, unreadable or not a dict |
| `Orchestrator.FilledCount` | src/pipeline/orchestrator.py:246-254 | the filled count is at most the number of values, and is 0 exactly when no value is filled. None, empty lists and dicts, and blank strings are unfilled |
| `Orchestrator.DataReasons` | src/pipeline/orchestrator.py:243-259 | the data test adds at most one reason |
| `Orchestrator.CountFilled` | src/pipeline/orchestrator.py:246-254 | the loop computes `FilledCount` |
| `Orchestrator.AssessNeedsOcr` | src/pipeline/orchestrator.py:226-261 | the heuristic, step by step, gives the verdict and reasons of `NeedsOcr` |
| `Orchestrator.NeedsOcrReasonsShape` | src/pipeline/orchestrator.py:235-241 | needs_ocr holds exactly when the reason list is non-empty. "no_text_extracted" is present exactly when pages_with_text == 0 or text_length < 50, with an absent or falsy statistic counted as 0, and then it is the first reason |
| `Orchestrator.DataReasonsCases` | src/pipeline/orchestrator.py:243-259 | "empty_data" and "low_field_coverage" never both fire. "empty_data" fires exactly for a dict with no filled value. "low_field_coverage" fires exactly for one filled value with "bidders" and "bid_items" both present as `[]` |
| `Orchestrator.NeedsOcrWhenEmpty` | tests/test_ocr_alerts.py:37-52 | no text plus an empty dict needs OCR, for both "no_text_extracted" and "empty_data" |
| `Orchestrator.NeedsOcrWhenOk` | tests/test_ocr_alerts.py:55-69 | 200 characters on one page plus two filled fields needs no OCR and gives no reason |
| `Orchestrator.TextPresent` | tests/test_ocr_alerts.py:57-64 | the test's statistics do not meet the no-text condition |
| `Orchestrator.TwoFilled` | tests/test_ocr_alerts.py:59 | the test's data dict gives no data reason |
| `Orchestrator.FingerprintMeta` | src/pipeline/orchestrator.py:188-193 | the fingerprint entries have distinct keys and carry the file hash; they set neither needs_ocr nor status |
| `Orchestrator.UpdateMeta` | src/pipeline/orchestrator.py:173-176 | `setdefault("metadata", {}).update(...)` raises exactly when "metadata" holds a non-dict. Otherwise the metadata becomes the old entries updated with the new ones, and every other key is unchanged |
| `Orchestrator.ProcessFile` | src/pipeline/orchestrator.py:120-224 | the in-place steps on the result dict compute `process_file` as specified by `ProcessFileSpec` |
| `Orchestrator.MapStepKeeps` | src/pipeline/orchestrator.py:162-166 | applying the mapping leaves the status as it was |
| `Orchestrator.LabelFacts` | src/pipeline/orchestrator.py:169-170 | the type and the path are set; the status and the metadata are kept |
| `Orchestrator.MarkPartial` | src/pipeline/orchestrator.py:177-178 | setting the status to "partial" changes no other key |
| `Orchestrator.UpdateMetaFacts` | src/pipeline/orchestrator.py:173-176 | a metadata update keeps status, path and type |
| `Orchestrator.MarkAfterUpdate` | src/pipeline/orchestrator.py:172-178 | updating the metadata, then marking partial, changes the status only for a success that needs OCR, and keeps path and type |
| `Orchestrator.OcrEntriesNeeds` | src/pipeline/orchestrator.py:173-176 | after the update, the metadata's needs_ocr is the verdict |
| `Orchestrator.MarkIfNeededFacts` | src/pipeline/orchestrator.py:177-178 | only the status changes, and it becomes "partial" exactly for a success that needs OCR |
| `Orchestrator.RecordOcrFacts` | src/pipeline/orchestrator.py:172-193 | the metadata records needs_ocr and the file hash. A success that needs OCR becomes partial and every other status is kept. Path and type are kept |
| `Orchestrator.OcrStepFacts` | src/pipeline/orchestrator.py:172-193 | after the OCR step, the status changes only from success to partial, and exactly when the recorded needs_ocr is true |
| `Orchestrator.FinishFacts` | src/pipeline/orchestrator.py:161-201 | after extraction, the status changes only from success to partial, when needs_ocr is recorded true. The path and type are set and the fingerprint is in the metadata |
| `Orchestrator.NoExtractorFields` | src/pipeline/orchestrator.py:146-155 | a type with no extractor gives "skipped" with the fixed message and the path |
| `Orchestrator.FailedFields` | src/pipeline/orchestrator.py:203-224 | an exception gives "failed", document type "unknown", the error text and the path |
| `Orchestrator.ProcessTypedStatus` | src/pipeline/orchestrator.py:143-224 | for a known type: no extractor gives skipped; an extractor that raises gives failed and unknown; otherwise the status is kept, is failed, or is a success turned partial with needs_ocr recorded |
| `Orchestrator.ProcessFileStatus` | src/pipeline/orchestrator.py:120-224 | the same transitions for the classified type. `process_file` never raises and every result carries the path |
| `Orchestrator.RunRaisedStays` | src/pipeline/orchestrator.py:278-289 | once an exception escapes the loop, later files change nothing |
| `Orchestrator.RunPrefix` | src/pipeline/orchestrator.py:277-286 | a completed run has one result per file, and the run over a prefix gives the matching prefix of results |
| `Orchestrator.RunStateSuffix` | src/pipeline/orchestrator.py:288-289 | the cache entry of a path no later file has is the one the prefix left |
| `Orchestrator.RunStateWrites` | src/pipeline/orchestrator.py:274-289 | no cache entry is removed. A changed entry happens only in incremental mode and holds the fingerprint of a file with the same path whose result is a success |
| `Orchestrator.StepExplained` | src/pipeline/orchestrator.py:279-289 | one iteration keeps every entry the cache started with, and any new or changed entry is the fingerprint of a successfully processed file with that path, in incremental mode only |
| `Orchestrator.StepFacts` | src/pipeline/orchestrator.py:279-289 | an iteration either raises and changes nothing, or appends one result. It changes the cache only by storing the file's fingerprint after a success in incremental mode |
| `Orchestrator.StepKeepsOther` | src/pipeline/orchestrator.py:279-289 | an iteration for another path leaves the cache entry of a path as it was |
| `Orchestrator.StepStoresSuccess` | src/pipeline/orchestrator.py:288-289 | an incremental iteration with a success result, when skip results are never successes, caches the file's fingerprint |
| `Orchestrator.RunLength` | src/pipeline/orchestrator.py:277-286 | a run has at most one result per file, and exactly one when nothing escapes |
| `Orchestrator.RunNonIncremental` | src/pipeline/orchestrator.py:274-289 | without incremental mode, every file is processed in order, nothing raises and the cache is untouched |
| `Orchestrator.ResultAt` | src/pipeline/orchestrator.py:278-286 | file i's result is the one its own iteration appended |
| `Orchestrator.RunSkipsUnchanged` | src/pipeline/orchestrator.py:281-286 | in incremental mode, with distinct paths, file i gets the skip result exactly when the loaded cache holds its fingerprint, and is processed otherwise |
| `Orchestrator.RunCachesSuccess` | src/pipeline/orchestrator.py:288-289 | a success leaves its fingerprint cached, so the next run finds the file unchanged |
| `Orchestrator.PrefixStoresSuccess` | src/pipeline/orchestrator.py:279-289 | the run up to and including a success has that file's fingerprint cached |
| `Orchestrator.SkipNotSuccess` | src/pipeline/orchestrator.py:98-118 | a skip result always has status "skipped" |
| `Orchestrator.CountStatus` | src/pipeline/orchestrator.py:319-321 | the count for a status is at most the number of results, and is 0 exactly when no result has that status |
| `Orchestrator.FindType` | src/pipeline/orchestrator.py:326-328 | the lookup finds the position of the type in `by_type`, or reports that the type is absent |
| `Orchestrator.SuccessRate` | src/pipeline/orchestrator.py:340 | the percentage lies in [0, 100] |
| `Orchestrator.ByTypeStep` | src/pipeline/orchestrator.py:325-333 | each result is one more step of the grouping loop |
| `Orchestrator.TallySums` | src/pipeline/orchestrator.py:326-333 | counting a result adds one to the summed per-type totals. It adds one to successful exactly for a success, and to failed exactly for a failure |
| `Orchestrator.ByTypeSums` | src/pipeline/orchestrator.py:318-333 | the per-type totals sum to total_files, and the per-type successes and failures sum to the summary's own counts |
| `Orchestrator.TallyWellFormed` | src/pipeline/orchestrator.py:326-333 | counting a result keeps each type listed once, with its successes plus failures within its total |
| `Orchestrator.ByTypeWellFormed` | src/pipeline/orchestrator.py:324-333 | each type appears once in `by_document_type`, with its successes plus failures within its total |
| `Orchestrator.StatusCountsBound` | src/pipeline/orchestrator.py:318-321 | successful + failed + skipped is at most total_files, since partial results are in none of them |
| `Orchestrator.Summarize` | src/pipeline/orchestrator.py:309-342 | the counting expressions and the grouping loop compute `get_summary`, which is None (`{}`) exactly for no results |
| `Orchestrator.RunFilesStep` | src/pipeline/orchestrator.py:278-289 | each file is one more step of the directory loop |
| `Orchestrator.RunDirectory` | src/pipeline/orchestrator.py:277-289 | the loop over the discovered files computes `RunFiles` from the loaded cache |
| `Orchestrator.DirectoryStep` | src/pipeline/orchestrator.py:279-289 | one iteration skips an unchanged file, or processes the file and caches a success's fingerprint |
| `Orchestrator.Pipeline.constructor` | src/pipeline/orchestrator.py:20-36 | a new pipeline has an empty cache, no results and no saved state |
| `Orchestrator.Pipeline.ProcessDirectory` | src/pipeline/orchestrator.py:263-307 | the cache is loaded only in incremental mode and the results are those of `RunFiles`. The cache is saved once, only in incremental mode and only when the run completes; an escaping exception keeps the old results |
| `Orchestrator.Pipeline.GetSummary` | src/pipeline/orchestrator.py:309-342 | the summary of the last run's results |
| `FileMapping.Lookup` | src/transformers/file_mapping.py:130 | a type missing from the mappings gets the empty mapping; present, it gets its entry |
| `FileMapping.LoadMappings` | src/transformers/file_mapping.py:118-127 | the file's mappings when it exists and holds a JSON object; the defaults otherwise |
| `FileMapping.MappingResolver.constructor` | src/transformers/file_mapping.py:105-108 | the resolver keeps the mapping path and the mappings loaded once |
| `FileMapping.MappingResolver.Resolve` | src/transformers/file_mapping.py:129-137 | resolving gives the type's mapping (empty for an unknown type). mapping_source is "external" exactly when the file exists, else "default", and the mapping file and document type are recorded |
| `FileMapping.MapItems` | src/transformers/file_mapping.py:166-171 | the mapped list keeps only dict elements, in order, each reduced by the item schema. A list of dicts keeps every element |
| `FileMapping.StrValues` | src/transformers/file_mapping.py:179 | `expected_fields` lists the mapping's fields in order |
| `FileMapping.ApplyMappingSpec` | src/transformers/file_mapping.py:140-182 | a falsy mapping or non-dict data returns the data unchanged with `{"applied": False}`. Otherwise the result is a dict, applied is True and expected_fields is the field list |
| `FileMapping.CopyFields` | src/transformers/file_mapping.py:154-156 | the first loop computes `FieldsPass` |
| `FileMapping.CopyAliases` | src/transformers/file_mapping.py:158-160 | the alias loop computes `AliasPass` |
| `FileMapping.ApplyItemMapping` | src/transformers/file_mapping.py:185-198 | the item mapping is the fields loop followed by the alias loop |
| `FileMapping.MapItemsStep` | src/transformers/file_mapping.py:167-170 | each element adds its reduction exactly when it is a dict |
| `FileMapping.MapItemList` | src/transformers/file_mapping.py:166-171 | the inner list loop computes `MapItems` |
| `FileMapping.CopyLists` | src/transformers/file_mapping.py:162-171 | the list-fields loop computes `ListPass` |
| `FileMapping.ApplyMapping` | src/transformers/file_mapping.py:140-182 | the three loops and the metadata compute `ApplyMappingSpec`. The input is a value, so it is never mutated |
| `FileMapping.FieldsPassGet` | src/transformers/file_mapping.py:154-156 | the first loop maps exactly the listed fields present in the data, verbatim |
| `FileMapping.AliasPassKeeps` | src/transformers/file_mapping.py:159 | the alias loop never overwrites a key already mapped |
| `FileMapping.FirstAlias` | src/transformers/file_mapping.py:158-160 | the supplied value comes from an alias of the target that the data holds; None means the data holds no alias of the target |
| `FileMapping.FirstAliasSnoc` | src/transformers/file_mapping.py:158-160 | a later alias matters only when no earlier one supplied the target |
| `FileMapping.AliasPassGet` | src/transformers/file_mapping.py:158-160 | after the alias loop, a mapped key keeps its value, and an unmapped listed target takes the first alias present. Anything else stays absent, so explicit fields win and the first alias wins |
| `FileMapping.ListPassOther` | src/transformers/file_mapping.py:162-171 | the list loop leaves every other key as it was |
| `FileMapping.ListPassGet` | src/transformers/file_mapping.py:162-171 | a list field whose value is a list (absent means `[]`) gets the mapped list. A non-list value keeps what the earlier loops mapped |
| `FileMapping.ListNames` | src/transformers/file_mapping.py:162 | the list-field names, in order |
| `FileMapping.ExplicitFieldCopied` | src/transformers/file_mapping.py:154-156 | a plain listed field that the data holds is copied verbatim |
| `FileMapping.AliasFillsMissingField` | src/transformers/file_mapping.py:158-160 | a plain listed field the data lacks takes its first present alias, if any |
| `FileMapping.UnlistedKeyDropped` | src/transformers/file_mapping.py:152-171 | a key that is neither a listed field nor a list field never reaches the output |
| `FileMapping.ListFieldPresent` | src/transformers/file_mapping.py:162-171 | a list field with a list value appears as the mapped list, and as `[]` when the data lacks it |
| `FileMapping.EmptySchemaGivesEmptyDict` | src/transformers/file_mapping.py:148-171 | with no fields and no list fields, every dict maps to `{}` |
| `FileMapping.NoDefaultSchema` | src/transformers/file_mapping.py:7-99 | only the four default types have a schema; every other type gets the empty mapping |
| `FileMapping.UnmappedTypesBecomeEmpty` | src/transformers/file_mapping.py:129-171 | under the default mappings, a bid_summary or bids_as_read dict maps to `{}` with applied True, because `resolve` returns a truthy mapping with no fields |
| `Ocr.ResolveEnabled` | src/transformers/ocr.py:21-26 | an explicit `enabled` argument wins; without one the environment decides |
| `Ocr.ResolveTimeout` | src/transformers/ocr.py:22-27 | an OCR_TIMEOUT_SECONDS that is all digits once stripped overrides the argument with its non-negative value; otherwise the argument is kept |
| `Ocr.OcrProcessor.constructor` | src/transformers/ocr.py:20-28 | the processor's enabled flag and timeout are the resolved ones, and its method is "ocrmypdf" |
| `Ocr.OcrProcessor.Run` | src/transformers/ocr.py:33-96 | an output path is returned exactly when OCR is enabled, the tool is available and the subprocess completed, and it is that subprocess's file |
| `Ocr.RunTable` | src/transformers/ocr.py:33-96 | the same for a given enabled flag and method name |
| `Ocr.DisabledAttemptsNothing` | src/transformers/ocr.py:35-36 | a disabled processor returns no path, with attempted and enabled False and no applied entry, whatever the tool would do |
| `Ocr.EnabledRunOutcomes` | src/transformers/ocr.py:38-96 | every enabled run is an attempt naming the method, and ocr_applied is True exactly when a path is returned. A success records its duration and no error. Otherwise the error is "ocrmypdf_not_available", "timeout" or the exception text |
| `Ocr.NotAppliedFacts` | src/transformers/ocr.py:38-45 | a run that produced no file is attempted and enabled, not applied, names the method and carries the error |
| `Ocr.CompletedFacts` | src/transformers/ocr.py:71-78 | a completed run is attempted, enabled and applied, names the method and records the duration, with no error |
| `Ocr.EnabledDefault` | src/transformers/ocr.py:21 | OCR_ENABLED unset enables OCR, because the default is "true"; set to blank, it disables it |
| `Ocr.DefaultConfiguration` | src/transformers/ocr.py:20-28 | with no overrides, the processor is enabled with a 300 s timeout |
| `Ocr.UpperYEnables` | src/transformers/ocr.py:21 | "Y" enables OCR, since the value is lowercased |
| `Ocr.OneEnables` | src/transformers/ocr.py:21 | "1" enables OCR |
| `Ocr.NoDisables` | src/transformers/ocr.py:21 | "no" disables OCR |
| `Ocr.SpellingEnables` | src/transformers/ocr.py:21 | a value with no whitespace enables OCR exactly when its lowercase is one of 1, true, yes, y |
| `Ocr.TimeoutExamples` | src/transformers/ocr.py:22-24 | "60" sets the timeout to 60, while "1m" and "-5" leave the argument |
| `LlmExtractor.SetApiKey` | src/extractors/llm_extractor.py:55-62 | the key goes to the variable of the first provider the model mentions, in the order gemini, gpt, claude; a model naming none leaves the environment alone |
| `LlmExtractor.ValidateConfiguration` | src/extractors/llm_extractor.py:64-71 | configuration passes exactly when each provider the model mentions, taken in order, has its key set. The error names a missing key variable, and a Gemini model without GEMINI_API_KEY fails on that key |
| `LlmExtractor.Configure` | src/extractors/llm_extractor.py:43-53 | a truthy key is installed first, then the configuration is validated against the resulting environment |
| `LlmExtractor.KeyConfiguresSingleProvider` | src/extractors/llm_extractor.py:49-71 | a non-empty key passed in configures a model that names exactly one provider, whatever the environment held |
| `LlmExtractor.KeyCoversFirstProviderOnly` | src/extractors/llm_extractor.py:55-71 | a model naming both gemini and gpt gets the key for Gemini only, so validation still fails on OPENAI_API_KEY |
| `LlmExtractor.NormalizeModelName` | src/extractors/llm_extractor.py:166-179 | a non-Gemini name is unchanged. A bare Gemini name gets "gemini/", another prefix is replaced by "gemini/" plus the last segment, and an already prefixed name is unchanged |
| `LlmExtractor.PrefixedMentionsGemini` | src/extractors/llm_extractor.py:169-175 | a name under "gemini/" mentions Gemini |
| `LlmExtractor.GeminiNamesArePrefixed` | src/extractors/llm_extractor.py:169-179 | every Gemini model is sent under "gemini/". Unless the caller already wrote that prefix, what follows it holds no "/" |
| `LlmExtractor.NormalizeIdempotent` | src/extractors/llm_extractor.py:166-179 | normalising a name twice is the same as normalising it once |
| `LlmExtractor.CallArgsFor` | src/extractors/llm_extractor.py:166-187 | the completion call gets the normalised name. Only a Gemini model gets a key, taken from GEMINI_API_KEY; any other model keeps its name and gets no key |
| `LlmExtractor.Clip` | src/extractors/llm_extractor.py:86 | the embedded text is a prefix of the document of at most 8000 characters, and the whole text when it is shorter |
| `LlmExtractor.SchemaFor` | src/extractors/llm_extractor.py:90-136 | every schema is a non-empty object, and the error schema is used exactly for an unknown type. Every known type except Item C starts with contract_number |
| `LlmExtractor.PromptTail` | src/extractors/llm_extractor.py:138 | the prompt's tail contains the schema and ends with the closing instruction |
| `LlmExtractor.PromptBody` | src/extractors/llm_extractor.py:83-138 | the part after the document type contains the clipped text and the schema |
| `LlmExtractor.Prompt` | src/extractors/llm_extractor.py:73-138 | the prompt starts with the instructions and contains the document type, the clipped text and the dumped schema, then ends with the closing instruction |
| `LlmExtractor.PromptFacts` | src/extractors/llm_extractor.py:83-138 | concatenating the parts keeps what each contains |
| `LlmExtractor.StripFences` | src/extractors/llm_extractor.py:194-199 | text without a fence is only stripped; a fenced answer yields text with no fence left |
| `LlmExtractor.InsideFence` | src/extractors/llm_extractor.py:195-197 | the text between a fence and the next "```" contains no fence |
| `LlmExtractor.JsonFenceUnwrapped` | src/extractors/llm_extractor.py:194-195 | an answer with a "```json" fence yields the stripped text inside it |
| `LlmExtractor.PlainFenceUnwrapped` | src/extractors/llm_extractor.py:196-197 | an answer with only plain "```" fences yields the stripped text between the first two |
| `LlmExtractor.ExtractWithLlm` | src/extractors/llm_extractor.py:140-216 | a text failure is re-raised as an LLM failure. Data comes back exactly when the call answered, the unfenced answer parses and the value has a length, and it is the parsed value. A JSON failure is reported as such only when parsing failed |
| `LlmExtractor.LlmError` | src/extractors/llm_extractor.py:213-216 | an LLM failure is a RuntimeError text that is never mistaken for a JSON failure |
| `LlmExtractor.InferDocType` | src/extractors/llm_extractor.py:218-238 | the inferred type is a known type or "unknown". "unknown" means the lowercased name mentions none of invitation, bid tab/bidtab, award or item c/itemc |
| `LlmExtractor.InferAgreesWithClassifier` | src/extractors/llm_extractor.py:225-234 | where the classifier sees an invitation, or bid tabs by a spelling both know, the LLM extractor infers the same type |
| `LlmExtractor.InferMissesUnderscoreSpelling` | src/extractors/llm_extractor.py:229-230 | "bid_tabs.pdf" is bid tabs to the classifier but "unknown" to the LLM extractor |
| `LlmExtractor.DocumentText` | src/extractors/base_extractor.py:31-45 | the LLM extractor reads the text as `extract_text` does |
| `LlmExtractor.LlmRunExtraction` | src/extractors/llm_extractor.py:218-238 | the LLM extractor's run_extraction always has a metadata dict, and its successful data has a length |
| `LlmExtractor.SetMeta` | src/extractors/llm_extractor.py:285-286 | the metadata writes succeed exactly when the result has a metadata dict, and they update only the metadata |
| `LlmExtractor.TraditionalConfidence` | src/extractors/llm_extractor.py:273-276 | the confidence is computed exactly for a success, from its data |
| `LlmExtractor.Hybrid` | src/extractors/llm_extractor.py:264-312 | the environment changes only by the LLM extractor's own key installation. A traditional result without "status" raises KeyError |
| `LlmExtractor.Fallback` | src/extractors/llm_extractor.py:295-312 | the fallback never raises as long as the traditional result has metadata |
| `LlmExtractor.LabelFallback` | src/extractors/llm_extractor.py:303-304 | the LLM result is labelled "llm_fallback" with the traditional confidence, or 0.0 when none was computed |
| `LlmExtractor.SetMetaGet` | src/extractors/llm_extractor.py:285-286 | a written metadata entry reads back |
| `LlmExtractor.HybridKeepsConfidentTraditional` | src/extractors/llm_extractor.py:273-287 | a success whose confidence reaches the threshold (equality accepted) comes back unchanged apart from its metadata, which records the confidence and "traditional". The environment is untouched |
| `LlmExtractor.LabelTraditionalFacts` | src/extractors/llm_extractor.py:285-287 | labelling keeps every top-level key but the metadata, and records the confidence and method |
| `LlmExtractor.HybridFallsBackToLlm` | src/extractors/llm_extractor.py:289-306 | when the traditional result is not accepted and the LLM extractor can be configured, the result is the LLM's. It is labelled "llm_fallback" with the traditional confidence, or 0.0 |
| `LlmExtractor.HybridReportsFailedFallback` | src/extractors/llm_extractor.py:308-312 | when the LLM extractor cannot be configured, the traditional result is returned, marked llm_fallback_failed |
| `LlmExtractor.HybridRaisesOnlyOnTraditionalErrors` | src/extractors/llm_extractor.py:264-312 | the hybrid raises exactly when the traditional result lacks a status or its confidence cannot be computed |
| `LlmExtractor.RunExtractionIsEnvelope` | src/extractors/base_extractor.py:76-135 | every run_extraction result has a status and a metadata dict, and a success has data, as the hybrid expects |
| `BusinessRules.Iter` | src/validators/business_rules.py:35 | iterating a list gives its items, a dict its keys and a string its characters; anything else raises TypeError |
| `BusinessRules.AsDict` | src/validators/business_rules.py:36 | `.get` succeeds exactly on a dict |
| `BusinessRules.Float` | src/validators/business_rules.py:44 | `float(v)` succeeds exactly when Python's float conversion of v does, and gives its value |
| `BusinessRules.FirstWinnerFrom` | src/validators/business_rules.py:34-38 | the winner is the first bidder with is_winner truthy or bid_rank == 1, and no earlier bidder qualifies. The loop raises only on reaching a non-dict bidder first |
| `BusinessRules.FindWinner` | src/validators/business_rules.py:34-38 | the loop with `break` finds `FirstWinnerFrom` |
| `BusinessRules.CompareAward` | src/validators/business_rules.py:43-47 | a falsy winner total validates. Otherwise both amounts must convert, and the comparison fails exactly when they differ by more than 0.01 |
| `BusinessRules.ContractTotals` | src/validators/business_rules.py:17-47 | without a truthy awarded_amount and awarded_to, the result is (True, "No award data to validate") |
| `BusinessRules.ValidateContractTotals` | src/validators/business_rules.py:17-47 | the method computes `ContractTotals` |
| `BusinessRules.ObjList` | src/validators/business_rules.py:59 | a list of dicts is truthy exactly when non-empty |
| `BusinessRules.ContractTotalsVerdict` | src/validators/business_rules.py:33-47 | with award data, no winner gives (False, "Winner marked in contract but no winner found in bidders"); otherwise the first winner's total is compared with the award |
| `BusinessRules.NoWinnerFrom` | src/validators/business_rules.py:35-38 | dicts none of which qualifies yield no winner |
| `BusinessRules.FirstWinnerAt` | src/validators/business_rules.py:35-38 | the first qualifying dict is the winner |
| `BusinessRules.KeyClassIsEquality` | src/validators/business_rules.py:66 | two bidder names fall in the same dict slot exactly when Python's `==` holds between them |
| `BusinessRules.AddToGroup` | src/validators/business_rules.py:66-68 | adding an item registers its bidder-name key |
| `BusinessRules.ItemsOf` | src/validators/business_rules.py:80 | a bidder's items are items whose bidder_name equals the name |
| `BusinessRules.LookupGroupAll` | src/validators/business_rules.py:63-68 | the grouping loop files under each name exactly the items with that bidder_name, in order |
| `BusinessRules.GroupErrorNone` | src/validators/business_rules.py:64-68 | grouping raises nothing exactly when every item is a dict with a hashable bidder_name |
| `BusinessRules.Dicts` | src/validators/business_rules.py:64 | the dict items, in order |
| `BusinessRules.ItemsSum` | src/validators/business_rules.py:81-85 | the item sum is defined exactly when every truthy total_price converts to a number |
| `BusinessRules.TotalCheck` | src/validators/business_rules.py:80-91 | the comparison succeeds exactly when the prices and the bidder total convert. It reports a mismatch exactly when the total and the item sum differ by more than 1.0 |
| `BusinessRules.BidderCheck` | src/validators/business_rules.py:72-91 | a non-dict bidder raises, and so does an unhashable name. A bidder without a truthy name and total is skipped; otherwise its items are checked |
| `BusinessRules.MismatchesOk` | src/validators/business_rules.py:71-91 | the mismatch loop succeeds exactly when every bidder's check does, and finds no mismatch exactly when every bidder passes |
| `BusinessRules.BidItemsSum` | src/validators/business_rules.py:49-96 | no bidders or no items gives (True, "No data to validate") |
| `BusinessRules.Summary` | src/validators/business_rules.py:93-96 | the rule is valid exactly when there is no mismatch |
| `BusinessRules.ValidateBidItemsSum` | src/validators/business_rules.py:49-96 | the two loops compute `BidItemsSum` |
| `BusinessRules.GroupItems` | src/validators/business_rules.py:63-68 | the grouping loop computes `Grouped` |
| `BusinessRules.GroupAllStep` | src/validators/business_rules.py:64-68 | each item is one more step of the grouping loop |
| `BusinessRules.CollectMismatches` | src/validators/business_rules.py:71-91 | the per-bidder loop computes `Mismatches` |
| `BusinessRules.MismatchesStep` | src/validators/business_rules.py:72-91 | each bidder is one more step of the mismatch loop |
| `BusinessRules.MismatchesRaise` | src/validators/business_rules.py:72-91 | an exception stops the loop |
| `BusinessRules.ItemsOfPrices` | src/validators/business_rules.py:81-85 | a bidder's items inherit convertible prices |
| `BusinessRules.BidderVerdict` | src/validators/business_rules.py:72-91 | a well-typed bidder passes exactly when it is within one dollar of its items' sum, or is skipped |
| `BusinessRules.CheckedBidderVerdict` | src/validators/business_rules.py:80-91 | a checked bidder passes exactly when its total and item sum differ by at most 1.0 |
| `BusinessRules.UncheckedBidderVerdict` | src/validators/business_rules.py:76-77 | a bidder without a truthy name or total is skipped |
| `BusinessRules.AllBidderVerdicts` | src/validators/business_rules.py:72-91 | each bidder's check succeeds, and passes exactly when it is within a dollar |
| `BusinessRules.BidItemsUnfold` | src/validators/business_rules.py:59-96 | with bidders and items, the rule is the summary of the grouped mismatch loop |
| `BusinessRules.BidItemsVerdict` | src/validators/business_rules.py:49-96 | for well-typed lists, the rule succeeds and is valid exactly when every bidder is within a dollar of its items, skipped bidders counting as within |
| `BusinessRules.GroupedLists` | src/validators/business_rules.py:63-68 | dict items with hashable names group without error, each name holding its items |
| `BusinessRules.NoGroupErrorInLists` | src/validators/business_rules.py:64-68 | such items raise nothing while grouping |
| `BusinessRules.GroupedNoError` | src/validators/business_rules.py:64-68 | grouping without error files the dict items |
| `BusinessRules.DictsOfObjList` | src/validators/business_rules.py:64 | the dicts of a list of dicts are the dicts themselves |
| `BusinessRules.DatesOf` | src/validators/business_rules.py:115-129 | a date is recorded exactly when its value is truthy and parses, and it is the parsed date |
| `BusinessRules.ParseDates` | src/validators/business_rules.py:115-129 | the parsing loop computes `DatesOf` |
| `BusinessRules.DateOrder` | src/validators/business_rules.py:131-144 | the dates are valid exactly when available < completion, bid_opening ≤ award and bid_opening < available, each checked only when both dates are present. The first violation's message is reported |
| `BusinessRules.ValidateDates` | src/validators/business_rules.py:98-144 | the method computes the order check of the parsed dates |
| `BusinessRules.DatesVerdict` | src/validators/business_rules.py:109-144 | the rule is valid exactly when the three orderings hold among the dates that parse; missing or unparseable dates skip their checks |
| `BusinessRules.ValidateGoals` | src/validators/business_rules.py:146-169 | a None goal gives (True, "Goals not all specified"). Otherwise all three must convert, and the rule fails exactly when combined < mbe + wbe by more than 0.1 |
| `BusinessRules.NonListEntries` | src/validators/business_rules.py:184 | contract_data keeps exactly the entries whose value is not a list, in order |
| `BusinessRules.Report` | src/validators/business_rules.py:196-209 | the report's valid flag is the conjunction of the four rules |
| `BusinessRules.RunRules` | src/validators/business_rules.py:183-193 | the four rules run on the non-list entries, the bidders and the bid items, with `[]` when those are absent |
| `BusinessRules.ValidateAll` | src/validators/business_rules.py:171-218 | a non-success result gives valid True with the "Skipped" message. For a success, valid is the conjunction of the four rules over the data |
| `PostgresLoader.NormalizeContractNumber` | src/loaders/postgres_loader.py:351-355 | a falsy value gives None. A non-empty string comes back stripped and uppercased |
| `PostgresLoader.NormalizeIdempotent` | src/loaders/postgres_loader.py:351-355 | normalising a normalised contract number changes nothing |
| `PostgresLoader.NormalizeString` | src/loaders/postgres_loader.py:351-355 | a non-empty string normalises to its stripped, uppercased text |
| `PostgresLoader.NormalizeStripsPadding` | src/loaders/postgres_loader.py:351-355 | one space on each side is removed and the rest is uppercased |
| `PostgresLoader.InferContractNumber` | src/loaders/postgres_loader.py:357-373 | a falsy path gives None, and a path that is not a string raises. Otherwise the contract number comes from the file name alone |
| `PostgresLoader.FileNameNumber` | src/loaders/postgres_loader.py:365-373 | there is no number exactly when the name holds neither `DA` followed by five digits (any case) nor an eight-digit word. A DA match wins and is uppercased |
| `PostgresLoader.InferUsesBasename` | src/loaders/postgres_loader.py:364 | the directories of the path never matter |
| `PostgresLoader.InferDaAtStart` | src/loaders/postgres_loader.py:366-372 | a file name starting with DA and five digits gives those seven characters, uppercased |
| `PostgresLoader.NameKey` | src/loaders/postgres_loader.py:377 | a falsy name gives the empty key; a truthy non-string raises, as `.strip()` does |
| `PostgresLoader.BidderKey` | src/loaders/postgres_loader.py:375-379 | the key raises exactly when the name part does, and starts with the name key and `|` |
| `PostgresLoader.BidderKeyEquality` | src/loaders/postgres_loader.py:375-379 | for names without `|`, two bidder keys are equal exactly when both their name keys and their amount keys are |
| `PostgresLoader.FormatOcrReasons` | src/loaders/postgres_loader.py:226-234 | falsy reasons give None. A string is kept as it is, and a value that is neither string nor list becomes its `str` |
| `PostgresLoader.StrAll` | src/loaders/postgres_loader.py:233 | each reason is converted with `str`, in order |
| `PostgresLoader.ReasonsRoundTrip` | src/loaders/postgres_loader.py:226-234 | a non-empty list of reasons without commas is recovered by splitting the stored text at commas |
| `PostgresLoader.TagLeading` | src/loaders/postgres_loader.py:106-108 | tagging keeps the length of the list |
| `PostgresLoader.TagLeadingAt` | src/loaders/postgres_loader.py:106-108 | the first n bidders get `contract_id` set, and the rest are unchanged |
| `PostgresLoader.ExistingKeysOf` | src/loaders/postgres_loader.py:101-104 | a key is known exactly when some stored bidder of the contract has it |
| `PostgresLoader.BidderPlanFresh` | src/loaders/postgres_loader.py:106-118 | the bidders staged have distinct keys, none of them stored before, and each key recorded belongs to a staged bidder |
| `PostgresLoader.PlanKeysFromRows` | src/loaders/postgres_loader.py:113-117 | every pending key comes from a staged bidder |
| `PostgresLoader.PlanKeysGrow` | src/loaders/postgres_loader.py:117 | the pending keys only grow along the loop |
| `PostgresLoader.ReloadAddsNothing` | src/loaders/postgres_loader.py:101-118 | loading the same bidders again, once their keys are stored, stages nothing |
| `PostgresLoader.BidderPlanStep` | src/loaders/postgres_loader.py:107-118 | one bidder is staged exactly when its key builds, is neither stored nor pending, and `Bidder(**data)` accepts its keys |
| `PostgresLoader.SkipsKnownBidder` | src/loaders/postgres_loader.py:113-114 | a stored bidder and its repeat are skipped, and a new bidder is staged |
| `PostgresLoader.LeadingDicts` | src/loaders/postgres_loader.py:106-108 | the loop reaches exactly the leading dicts. The first non-dict raises at the item assignment, and its handler's own `.get` raises again, so the error escapes the loop |
| `PostgresLoader.ItemRows` | src/loaders/postgres_loader.py:145-150 | no more bid items are staged than given |
| `PostgresLoader.ItemRowsStep` | src/loaders/postgres_loader.py:146-150 | an item is staged exactly when `BidItem(**data)` accepts its keys |
| `PostgresLoader.ApplyUpdateGet` | src/loaders/postgres_loader.py:69-71 | after the update, an attribute holds the new non-None value, and every other key keeps its old value |
| `PostgresLoader.UpdateFields` | src/loaders/postgres_loader.py:69-71 | the update loop computes `ApplyUpdate` |
| `PostgresLoader.GetLast` | src/loaders/postgres_loader.py:69 | the lookup in a dict with distinct keys finds the last entry or an earlier one |
| `PostgresLoader.FindContract` | src/loaders/postgres_loader.py:63-65 | the query finds a stored contract with the number, or reports that none has it |
| `PostgresLoader.LoadContractSpec` | src/loaders/postgres_loader.py:47-88 | there is a contract exactly when the commit happened. Otherwise the table is unchanged. A falsy number touches nothing, and a failing commit yields None |
| `PostgresLoader.LoadKeepsNumbersUnique` | src/loaders/postgres_loader.py:47-88 | loading a contract keeps the contract numbers unique |
| `PostgresLoader.ReplaceKeepsUnique` | src/loaders/postgres_loader.py:67-72 | updating a contract in place keeps the numbers unique |
| `PostgresLoader.AppendKeepsUnique` | src/loaders/postgres_loader.py:74-77 | adding a contract with a new number keeps the numbers unique |
| `PostgresLoader.LoadContractEffect` | src/loaders/postgres_loader.py:63-81 | an existing contract keeps its id and is updated in place with the non-None attribute values. A new one is created exactly when `Contract(**data)` accepts the keys |
| `PostgresLoader.ContractKeysUndeclared` | src/loaders/postgres_loader.py:282 | `source_file_hash` is a key of the contract record and no attribute of the declared `Contract` |
| `PostgresLoader.LogKeysUndeclared` | src/loaders/postgres_loader.py:187 | `ocr_applied` is a key of the log record and no attribute of the declared `ExtractionLog` |
| `PostgresLoader.RecordKeysMigrated` | src/loaders/postgres_loader.py:176-194 | every key of both records is a column after the migrations |
| `PostgresLoader.Entries` | src/loaders/postgres_loader.py:176-194 | the dict pairs each key with its value, in order |
| `PostgresLoader.AcceptsEntries` | src/loaders/postgres_loader.py:196 | a class accepts the dict exactly when it declares every key |
| `PostgresLoader.Metadata` | src/loaders/postgres_loader.py:173 | a missing metadata entry reads as `{}`, and one that is not a dict raises |
| `PostgresLoader.ParseDate` | src/loaders/postgres_loader.py:335-349 | anything that is not a string is stored as None |
| `PostgresLoader.ContractNumberOf` | src/loaders/postgres_loader.py:259-264 | a truthy contract number is normalised. Otherwise the number is inferred from the file path and then normalised |
| `PostgresLoader.ContractRecordNumber` | src/loaders/postgres_loader.py:263-264 | the contract record carries the normalised number |
| `PostgresLoader.DeclaredContractRejects` | src/loaders/postgres_loader.py:263-285 | the declared `Contract` class rejects every contract record of `load_extraction_result` |
| `PostgresLoader.MigratedContractAccepts` | src/loaders/postgres_loader.py:263-285 | a class with the migrated columns accepts every such record |
| `PostgresLoader.DeclaredNewContractFails` | src/loaders/postgres_loader.py:47-88 | as declared, `load_contract` given a contract record with a new non-empty number rolls back, returns None and leaves the table as it was |
| `PostgresLoader.MigratedNewContractLoads` | src/loaders/postgres_loader.py:47-88 | with the migrated columns, the same record commits and is appended as a new contract under the next id |
| `PostgresLoader.DeclaredLogRejects` | src/loaders/postgres_loader.py:176-196 | the declared `ExtractionLog` rejects every log record of `log_extraction` |
| `PostgresLoader.MigratedLogAccepts` | src/loaders/postgres_loader.py:176-196 | the migrated log table accepts every such record |
| `PostgresLoader.LogOutcome` | src/loaders/postgres_loader.py:166-202 | the session is always touched. A log row is committed exactly when the commit works, the metadata is a dict and the class accepts the record, and then the row is appended to the logs |
| `PostgresLoader.Database.constructor` | src/loaders/postgres_loader.py:29-40 | a fresh session over empty tables |
| `PostgresLoader.Database.Commit` | src/loaders/postgres_loader.py:124-130 | a commit stores the pending rows; a failing one rolls them back |
| `PostgresLoader.Database.Rollback` | src/loaders/postgres_loader.py:83-84 | a rollback drops every pending row |
| `PostgresLoader.Database.LoadContract` | src/loaders/postgres_loader.py:47-88 | the contract table and the result follow `LoadContractSpec`, and the logs are untouched |
| `PostgresLoader.Database.LoadBidders` | src/loaders/postgres_loader.py:90-132 | the leading dict bidders get `contract_id`, and the staged bidders follow `BidderPlan`. A non-dict raises with the staged rows still pending. A failing commit gives 0 and drops them. Otherwise they are committed and counted |
| `PostgresLoader.Database.StageBidders` | src/loaders/postgres_loader.py:100-122 | the staging loop stages `BidderPlan` over the leading dicts, and reports whether it reached the end |
| `PostgresLoader.Database.StageBidder` | src/loaders/postgres_loader.py:107-118 | one bidder is tagged and, when its key is new and the class accepts it, staged |
| `PostgresLoader.Database.LoadBidItems` | src/loaders/postgres_loader.py:134-164 | the leading dict items get `contract_id`, and the accepted ones are staged. A failing commit gives 0 and drops them; otherwise they are committed and counted |
| `PostgresLoader.Database.StageBidItems` | src/loaders/postgres_loader.py:144-154 | the staging loop stages `ItemRows` over the leading dicts |
| `PostgresLoader.Database.StageBidItem` | src/loaders/postgres_loader.py:146-150 | one item is tagged and, when the class accepts it, staged |
| `PostgresLoader.Database.LogExtraction` | src/loaders/postgres_loader.py:166-202 | the logs become `LogOutcome`; the other tables keep their rows |
| `PostgresLoader.LogRow` | src/loaders/postgres_loader.py:176-194 | the log dict has one entry per layout key, in order, each holding the value that `log_extraction` reads for it |
| `PostgresLoader.LogSpecEffect` | src/loaders/postgres_loader.py:166-202 | logging keeps the contracts and makes the log table `LogOutcome`. It leaves nothing pending: its commit also stores the bidder and bid item rows an earlier load left pending, and its rollback drops them |
| `PostgresLoader.ContractSpec` | src/loaders/postgres_loader.py:47-88 | `load_contract` keeps the log table. A contract it returns is stored and nothing stays pending. When it returns None, the contract, bidder and bid item tables are unchanged |
| `PostgresLoader.ListSpecEffect` | src/loaders/postgres_loader.py:90-164 | loading a list keeps the contracts and the logs. It raises exactly when the value is not a list or holds a non-dict, and then stores nothing. A failing commit stores nothing and counts 0; otherwise the tables grow by the pending rows plus the rows it counts |
| `PostgresLoader.ResultSpec` | src/loaders/postgres_loader.py:236-304 | `load_extraction_result` on the store raises exactly when the result is not a dict, because the handler's own `result.get` then raises |
| `PostgresLoader.ResultSpecEffect` | src/loaders/postgres_loader.py:236-304 | a non-dict result rolls the session back, and a dict is logged by `LogOutcome`. A result that is not a success or partial with data gives True once logged. Unreadable metadata, data that is not a dict, or a contract number that raises gives False. Otherwise the contract table is the one `LoadContractSpec` leaves for the contract record, and no contract gives False. Failing commits keep the contract, bidder and bid item tables and make every loadable result False |
| `PostgresLoader.ResultSpecNoNumber` | src/loaders/postgres_loader.py:259-288 | a loadable result whose contract number is neither given nor inferable gives False |
| `PostgresLoader.BatchRun` | src/loaders/postgres_loader.py:319-323 | the batch yields at most one outcome per result |
| `PostgresLoader.BatchRunAppend` | src/loaders/postgres_loader.py:319-323 | a batch that has not stopped takes one more result by one more load from the store it left |
| `PostgresLoader.BatchRunStep` | src/loaders/postgres_loader.py:319-323 | one more load carries the run over a prefix of the batch to the next prefix |
| `PostgresLoader.BatchRunWhole` | src/loaders/postgres_loader.py:319 | the prefix that covers every result is the whole batch |
| `PostgresLoader.BatchRunStopped` | src/loaders/postgres_loader.py:319-320 | once a load raises, later results change neither the store nor the outcomes |
| `PostgresLoader.BatchRunShort` | src/loaders/postgres_loader.py:319-320 | a run with fewer outcomes than results stopped on a raise |
| `PostgresLoader.BatchRunOutcomes` | src/loaders/postgres_loader.py:319-320 | when a load raises exactly on a non-dict, each outcome raises exactly when its result is not a dict, and with only dicts every result has an outcome |
| `PostgresLoader.BatchRunCompletes` | src/loaders/postgres_loader.py:319-320 | when a load raises exactly on a non-dict, a run that gives every result an outcome without stopping saw only dicts |
| `PostgresLoader.ResultStepRaises` | src/loaders/postgres_loader.py:300-304 | a load of the batch raises exactly on a result that is not a dict |
| `PostgresLoader.BatchKeepsRows` | src/loaders/postgres_loader.py:319-323 | when every load keeps the contract, bidder and bid item tables and fails on the chosen results, the batch keeps them too and those outcomes are False |
| `PostgresLoader.BatchCommitFails` | src/loaders/postgres_loader.py:306-333 | with failing commits the batch keeps the contract, bidder and bid item tables, and every loadable result's outcome is False |
| `PostgresLoader.CountOutcome` | src/loaders/postgres_loader.py:316-323 | the count of outcomes equal to a given one is at most the number of outcomes |
| `PostgresLoader.CountOutcomeSplit` | src/loaders/postgres_loader.py:320-323 | every outcome that does not raise is counted once, as a success or as a failure |
| `PostgresLoader.CountOutcomeAppend` | src/loaders/postgres_loader.py:320-323 | one more outcome adds one to its own count and nothing to the other |
| `PostgresLoader.FailuresCountNoSuccess` | src/loaders/postgres_loader.py:320-323 | when every result is `Loadable` (status success or partial and a `data` entry) and each such outcome is False, no success is counted |
| `PostgresLoader.BatchRunSummary` | src/loaders/postgres_loader.py:306-333 | the run stops exactly when some result is not a dict. Otherwise every result has one outcome, successful + failed = total, and with failing commits and only loadable results none succeeds |
| `PostgresLoader.Database.LoadList` | src/loaders/postgres_loader.py:291-296 | the new store and the outcome are `ListSpec` of the old store. A non-list raises with nothing staged, a list of dicts loads without raising, and the contracts and logs stay |
| `PostgresLoader.Database.LoadExtractionResult` | src/loaders/postgres_loader.py:236-304 | the new store and the outcome are `ResultSpec` of the old store, which raises exactly on a non-dict result |
| `PostgresLoader.Database.LoadBatch` | src/loaders/postgres_loader.py:306-333 | the new store is the one the run of `load_extraction_result` over the results leaves. The batch raises exactly when that run stops. Otherwise the summary's total is the number of results, and its successful and failed counts are the True and False outcomes of that run
| `BidTabs.ContractNumber` | src/extractors/bid_tabs_extractor.py:79-90 | no number exactly when the text holds neither `DA` with five digits nor eight digits. A DA match wins over an eight-digit one |
| `BidTabs.ContractNumberShape` | src/extractors/bid_tabs_extractor.py:81-89 | a number found is DA with five digits, or eight digits |
| `BidTabs.EightDigitsInsideWord` | src/extractors/bid_tabs_extractor.py:83 | eight digits are found even inside a longer word, since that pattern has no word boundaries |
| `BidTabs.Hits` | src/extractors/bid_tabs_extractor.py:150-151 | a keyword counts exactly when it occurs in the header |
| `BidTabs.IsBidItemsTable` | src/extractors/bid_tabs_extractor.py:142-153 | a table of fewer than two rows is never a bid-items table, and one that is has at least three keywords in its header text (`HeaderText`: the truthy first-row cells, lowercased and joined by spaces) |
| `BidTabs.HeaderParts` | src/extractors/bid_tabs_extractor.py:148 | a header gives at most one part per cell |
| `BidTabs.CellInHeader` | src/extractors/bid_tabs_extractor.py:148 | every truthy header cell, lowercased, is one of the `HeaderParts` that `HeaderText` joins |
| `BidTabs.KeywordInCell` | src/extractors/bid_tabs_extractor.py:148-151 | a keyword inside a truthy header cell is in the header text |
| `BidTabs.ThreeKeywordCells` | src/extractors/bid_tabs_extractor.py:142-153 | a table of at least two rows whose header has item, description and quantity cells is a bid-items table |
| `BidTabs.FewKeywordsRejected` | src/extractors/bid_tabs_extractor.py:151-153 | fewer than three keywords in the header reject the table |
| `BidTabs.RemoveCommas` | src/extractors/bid_tabs_extractor.py:116 | the result has no comma, is empty exactly when the text was only commas, and is all digits for a digits-and-commas text |
| `BidTabs.FirstDot` | src/extractors/bid_tabs_extractor.py:219 | finds the first decimal point, or reports that there is none |
| `BidTabs.ParseDecimal` | src/extractors/bid_tabs_extractor.py:225 | a parsed numeral is never negative |
| `BidTabs.QuantityParses` | src/extractors/bid_tabs_extractor.py:219-225 | a quantity matched by the item-line pattern parses exactly when it holds a digit |
| `BidTabs.PriceParses` | src/extractors/bid_tabs_extractor.py:229 | every price the pattern finds parses as a number |
| `BidTabs.DigitCommaRun` | src/extractors/bid_tabs_extractor.py:229 | the longest run of digits and commas at the start |
| `BidTabs.PriceEnd` | src/extractors/bid_tabs_extractor.py:229 | a price found at a position is a digits-and-commas run, a point and two digits |
| `BidTabs.FindPrices` | src/extractors/bid_tabs_extractor.py:229 | every text found is a price |
| `BidTabs.ParseAll` | src/extractors/bid_tabs_extractor.py:229 | each price text is parsed, in order |
| `BidTabs.PricesAllParse` | src/extractors/bid_tabs_extractor.py:229-230 | filtering out the None prices drops nothing: each price found keeps its place and value |
| `BidTabs.ParseNumber` | src/extractors/bid_tabs_extractor.py:185-195 | a None cell gives None |
| `BidTabs.TableItems` | src/extractors/bid_tabs_extractor.py:166-181 | no more items than data rows, and none when every row is empty or all falsy |
| `BidTabs.AllRowsKept` | src/extractors/bid_tabs_extractor.py:166-179 | when every row has a truthy cell, row j gives item j (`RowItem`), with cells 0–5 as item number, description, quantity, unit, unit price and total |
| `BidTabs.ShortRowItem` | src/extractors/bid_tabs_extractor.py:172-177 | a row of at most two cells has no quantity, unit or prices. It has a description exactly when it has two cells |
| `BidTabs.ParseBidItemsTable` | src/extractors/bid_tabs_extractor.py:155-183 | a table of fewer than two rows gives no items. Otherwise the header row is skipped and the data rows become items |
| `BidTabs.MatchLine` | src/extractors/bid_tabs_extractor.py:219-226 | a matching line starts with a four-digit item number, then a non-blank code, a quantity numeral and a non-empty remainder |
| `BidTabs.PairEnd` | src/extractors/bid_tabs_extractor.py:239 | the two-token candidate ends one or two tokens after its start |
| `BidTabs.UnitAt` | src/extractors/bid_tabs_extractor.py:239-248 | a unit found is one of the unit tokens, title-cased, covering one or two tokens |
| `BidTabs.LastUnit` | src/extractors/bid_tabs_extractor.py:236-249 | the backwards search stops at the last position where a unit starts, and finds none when no position has one |
| `BidTabs.SplitUnit` | src/extractors/bid_tabs_extractor.py:235-249 | without a unit the tokens stay. With one, one or two tokens are deleted |
| `BidTabs.UnitIsLast` | src/extractors/bid_tabs_extractor.py:235-249 | the unit comes from the last position that holds one, and exactly its tokens are removed. No unit means no position holds one |
| `BidTabs.FindUnit` | src/extractors/bid_tabs_extractor.py:235-249 | the while loop computes `SplitUnit` |
| `BidTabs.NonPrices` | src/extractors/bid_tabs_extractor.py:232-233 | the tokens left are tokens of the remainder that are not prices |
| `BidTabs.DescriptionOfWords` | src/extractors/bid_tabs_extractor.py:251-256 | the description of blank-free words is the words joined by single spaces, and None when there are none |
| `BidTabs.FirstPrice` | src/extractors/bid_tabs_extractor.py:259 | there is a unit price exactly when some price was found |
| `BidTabs.TotalPrice` | src/extractors/bid_tabs_extractor.py:260 | there is a total exactly when some price was found |
| `BidTabs.PriceSelection` | src/extractors/bid_tabs_extractor.py:259-260 | one price is both unit price and total. With two or more, the first is the unit price and the second the total |
| `BidTabs.LineItem` | src/extractors/bid_tabs_extractor.py:219-262 | a line gives an item exactly when it matches the item-line pattern, and the item number is the line's first four digits |
| `BidTabs.CollectItems` | src/extractors/bid_tabs_extractor.py:218-262 | each line gives at most one item |
| `BidTabs.CollectStep` | src/extractors/bid_tabs_extractor.py:218-262 | each line adds its item when it matches |
| `BidTabs.TextItems` | src/extractors/bid_tabs_extractor.py:197-264 | empty text gives no items, and there is at most one item per non-blank line |
| `BidTabs.ItemsComeFromMatchingLines` | src/extractors/bid_tabs_extractor.py:218-262 | no matching line gives no items, and when every line matches, line k gives item k |
| `BidTabs.CollectKeeps` | src/extractors/bid_tabs_extractor.py:218-262 | a property of every parsed line holds of every item collected |
| `BidTabs.TextItemsNumbered` | src/extractors/bid_tabs_extractor.py:219-223 | every item from text has a four-digit item number |
| `BidTabs.ParseItemLine` | src/extractors/bid_tabs_extractor.py:219-262 | one iteration of the line loop computes `LineItem` |
| `BidTabs.ExtractBidItemsFromText` | src/extractors/bid_tabs_extractor.py:197-264 | the loop computes `TextItems` |
| `BidTabs.TotalAfter` | src/extractors/bid_tabs_extractor.py:113-121 | the total is the amount of the first total match starting after the bidder whose amount converts, and None when there is none |
| `BidTabs.FindTotal` | src/extractors/bid_tabs_extractor.py:113-121 | the inner loop with `break` computes `TotalAfter` |
| `BidTabs.BiddersOf` | src/extractors/bid_tabs_extractor.py:92-140 | one bidder per bidder match |
| `BidTabs.RankRule` | src/extractors/bid_tabs_extractor.py:108-138 | bidder i has its match's name and location and the first total after it. Its rank is that of rank line i when that matched, else i + 1 |
| `BidTabs.DefaultRanks` | src/extractors/bid_tabs_extractor.py:127 | without a ranking section the bidders rank 1, 2, 3, … in order |
| `BidTabs.MakeBidder` | src/extractors/bid_tabs_extractor.py:109-128 | one bidder built from its match computes `BidderOf` |
| `BidTabs.Collected` | src/extractors/bid_tabs_extractor.py:108-128 | one bidder per match collected |
| `BidTabs.CollectedAt` | src/extractors/bid_tabs_extractor.py:108-128 | the k-th bidder collected comes from match k, in position k |
| `BidTabs.CollectBidders` | src/extractors/bid_tabs_extractor.py:108-128 | the loop collects every bidder match |
| `BidTabs.ApplyRanks` | src/extractors/bid_tabs_extractor.py:131-138 | each bidder with a matched rank line at its index gets that rank, and all other fields stay |
| `BidTabs.ExtractBiddersFromText` | src/extractors/bid_tabs_extractor.py:92-140 | the two loops compute `BiddersOf` |
| `BidTabs.PageTableItems` | src/extractors/bid_tabs_extractor.py:47-55 | tables that are not bid-items tables contribute no items |
| `BidTabs.ScanPages` | src/extractors/bid_tabs_extractor.py:36-55 | a PDF without pages gives no contract number and no items |
| `BidTabs.WithRegex` | src/extractors/bid_tabs_extractor.py:69-77 | the regex path fails exactly when reading the text fails |
| `BidTabs.WithTables` | src/extractors/bid_tabs_extractor.py:30-67 | a failure to open the PDF or read its text fails the table path |
| `BidTabs.Extract` | src/extractors/bid_tabs_extractor.py:13-28 | extraction fails exactly when the text cannot be read, and a failing table path falls back to the regex path |
| `BidTabs.ExtractBidders` | src/extractors/bid_tabs_extractor.py:13-28 | with readable text the extraction succeeds, and its bidders always come from the text scan |
| `BidTabs.TableItemsWin` | src/extractors/bid_tabs_extractor.py:20-23 | items found in tables are returned, together with the contract number from the page scan and the bidders from the text |
| `BidTabs.NoTableItemsUsesText` | src/extractors/bid_tabs_extractor.py:58-61 | without table items, the bid items come from the text lines |
| `BidsAsRead.PypdfText` | src/extractors/bids_as_read_extractor.py:34-37 | an unreadable document gives the empty text |
| `BidsAsRead.ReaderText` | src/extractors/bids_as_read_extractor.py:42-57 | a reader that raises gives the empty text, and a single page gives its own text |
| `BidsAsRead.TextAny` | src/extractors/bids_as_read_extractor.py:31-59 | the first reader whose text is not blank wins, in the order pypdf, pdfplumber, PyMuPDF. Otherwise PyMuPDF's text is returned |
| `BidsAsRead.BlankOnlyWhenAllBlank` | src/extractors/bids_as_read_extractor.py:31-59 | the text is blank only when all three readers gave blank text |
| `BidsAsRead.AllReadersFail` | src/extractors/bids_as_read_extractor.py:34-59 | when every reader fails the text is empty |
| `BidsAsRead.ExtractTextAny` | src/extractors/bids_as_read_extractor.py:31-59 | the method computes `TextAny` |
| `BidsAsRead.ContractNumber` | src/extractors/bids_as_read_extractor.py:61-78 | a match in the text, in any case, wins and is uppercased. With none there, the uppercased file name is searched. There is no number exactly when neither matches |
| `BidsAsRead.ContractNumberShape` | src/extractors/bids_as_read_extractor.py:63-76 | a number found is DA with five digits, or eight digits |
| `BidsAsRead.TextBeforeFileName` | src/extractors/bids_as_read_extractor.py:67-70 | a number in the text makes the file name irrelevant |
| `BidsAsRead.FileNameFallback` | tests/test_ocr_alerts.py:72-86 | without a number in the text, a file name starting with a DA number gives that number, uppercased |
| `BidsAsRead.CollapseWord` | src/extractors/bids_as_read_extractor.py:141 | a leading word passes unchanged through the whitespace collapse |
| `BidsAsRead.CollapseShape` | src/extractors/bids_as_read_extractor.py:141 | a text not starting with a blank collapses to its words joined by single spaces, plus one trailing space when it ends in blanks |
| `BidsAsRead.CollapseBlankRun` | src/extractors/bids_as_read_extractor.py:141 | a run of blanks becomes one space |
| `BidsAsRead.CollapseLeading` | src/extractors/bids_as_read_extractor.py:141 | leading blanks collapse to at most one space |
| `BidsAsRead.NormalizeIsJoinedWords` | src/extractors/bids_as_read_extractor.py:139-141 | `NormalizeLine` (`_normalize_line`) gives the line's words joined by single spaces |
| `BidsAsRead.NormalizeIdempotent` | src/extractors/bids_as_read_extractor.py:139-141 | normalising twice is normalising once |
| `BidsAsRead.NormalizedLines` | src/extractors/bids_as_read_extractor.py:86 | one normalised line per line of the text |
| `BidsAsRead.ParseAmount` | src/extractors/bids_as_read_extractor.py:156-163 | no text or empty text gives None. Otherwise the amount is `float` of the text without commas |
| `BidsAsRead.ParseRank` | src/extractors/bids_as_read_extractor.py:165-172 | no text or empty text gives None, and a digit string gives its value |
| `BidsAsRead.AcceptChecks` | src/extractors/bids_as_read_extractor.py:112-122 | a match is accepted exactly when the stripped name has an uppercase letter and the amount parses. An accepted bidder has a name, no empty location and the parsed amount. The second pattern gives no rank |
| `BidsAsRead.FirstOfTwo` | src/extractors/bids_as_read_extractor.py:107-131 | the first pattern that matches and passes the tests on its groups wins |
| `BidsAsRead.FirstAcceptedStep` | src/extractors/bids_as_read_extractor.py:107-131 | a pattern that fails its checks moves on to the next one |
| `BidsAsRead.LineBidder` | src/extractors/bids_as_read_extractor.py:101-131 | empty lines and header lines (`IsHeaderLine`) give no bidder, and the first accepted pattern gives it |
| `BidsAsRead.MatchBidder` | src/extractors/bids_as_read_extractor.py:107-131 | the pattern loop with `continue` and `break` finds the first accepted pattern |
| `BidsAsRead.Scan` | src/extractors/bids_as_read_extractor.py:101-131 | at most one bidder per line |
| `BidsAsRead.ScanConcat` | src/extractors/bids_as_read_extractor.py:101-131 | scanning two runs of lines is scanning each, in order |
| `BidsAsRead.ScanNothing` | src/extractors/bids_as_read_extractor.py:101-131 | lines without a bidder give no bidders |
| `BidsAsRead.ScanKeeps` | src/extractors/bids_as_read_extractor.py:101-131 | a property of every parsed line holds of every bidder |
| `BidsAsRead.ScanStep` | src/extractors/bids_as_read_extractor.py:101-131 | each line adds its bidder, if any |
| `BidsAsRead.HeadersYieldNothing` | src/extractors/bids_as_read_extractor.py:143-154 | empty and header lines yield no bidders |
| `BidsAsRead.LineBidderNamed` | src/extractors/bids_as_read_extractor.py:112-120 | every bidder has a name with an uppercase letter and no empty location |
| `BidsAsRead.Backfilled` | src/extractors/bids_as_read_extractor.py:133-135 | every bidder ends with a rank. A rank read from the line is kept, and a missing one becomes the bidder's 1-based position |
| `BidsAsRead.BackfillIdempotent` | src/extractors/bids_as_read_extractor.py:133-135 | backfilling twice is backfilling once |
| `BidsAsRead.BiddersOf` | src/extractors/bids_as_read_extractor.py:80-137 | empty text gives no bidders, and each text line gives at most one |
| `BidsAsRead.BiddersRanked` | src/extractors/bids_as_read_extractor.py:80-137 | every bidder found has a rank and a name with an uppercase letter |
| `BidsAsRead.BackfillRanks` | src/extractors/bids_as_read_extractor.py:133-135 | the in-place loop over the bidders computes `Backfilled` |
| `BidsAsRead.ScanLines` | src/extractors/bids_as_read_extractor.py:101-131 | the line loop skips blank and header lines and keeps the bidder of each other line that yields one, in order, as `Scan` does |
| `BidsAsRead.ExtractBidders` | src/extractors/bids_as_read_extractor.py:80-137 | no bidders for an empty text; otherwise the line loop followed by the rank backfill computes `BiddersOf` |
| `BidsAsRead.Extract` | src/extractors/bids_as_read_extractor.py:14-29 | the contract number and bidders come from the first non-blank text, and there are never bid items |
| `Evaluate.CountFilled` | scripts/evaluate_llm.py:82-85 | no value is filled exactly when the count is 0, and every value is filled exactly when it is the number of values |
| `Evaluate.Completeness` | scripts/evaluate_llm.py:65-87 | falsy data gives 0, and truthy data that is not a dict raises: a number or True at `len()`, a string or a list at `values()`. Otherwise the score lies in [0, 1], is 1 exactly when every value is filled (for a non-empty dict) and 0 exactly when none is. A non-empty dict scores `CountFilled` of its values divided by its length |
| `Evaluate.CountFilledUpdate` | scripts/evaluate_llm.py:82-85 | replacing one value changes the filled count by +1, -1 or 0, as the old and new values are filled or not |
| `Evaluate.CompletenessMonotone` | scripts/evaluate_llm.py:75-87 | replacing an empty value (None, "", [] or {}) of a dict never lowers its completeness, and replacing it with a filled value raises the completeness strictly |
| `Evaluate.FalsyButFilled` | scripts/evaluate_llm.py:84 | 0 and False count as filled: only None, "", [] and {} are empty |
| `Evaluate.Dedup` | scripts/evaluate_llm.py:104 | the union holds each key exactly once |
| `Evaluate.DistinctCard` | scripts/evaluate_llm.py:126 | a sequence without repeats has as many elements as its set |
| `Evaluate.AllKeys` | scripts/evaluate_llm.py:104 | the keys of either dict, each once; its length is the size of the key union |
| `Evaluate.VerdictOf` | scripts/evaluate_llm.py:108-118 | a key counts exactly when both dicts hold a truthy value for it |
| `Evaluate.VerdictSame` | scripts/evaluate_llm.py:108-118 | a counted key matches exactly when the two values' stripped `str()` texts are equal, and differs exactly when they are not |
| `Evaluate.Verdicts` | scripts/evaluate_llm.py:108-118 | one verdict per key |
| `Evaluate.CountStep` | scripts/evaluate_llm.py:108-118 | each key adds one to the count of its verdict |
| `Evaluate.CountsAddUp` | scripts/evaluate_llm.py:108-118 | every key is matching, differing or not counted |
| `Evaluate.DictCompleteness` | scripts/evaluate_llm.py:65-87 | a dict's completeness is `Completeness` of the dict, which never raises, and lies in [0, 1] |
| `Evaluate.ComparisonBounds` | scripts/evaluate_llm.py:89-127 | matching + differing ≤ total keys, and the total is the size of the key union. The improvement is LLM minus traditional completeness and lies in [-1, 1] |
| `Evaluate.OneSidedKeyNeverCounts` | scripts/evaluate_llm.py:112-113 | a key missing from one dict is neither matching nor differing |
| `Evaluate.CountKeys` | scripts/evaluate_llm.py:104-118 | the counting loop finds the matching and differing counts |
| `Evaluate.CompareExtractions` | scripts/evaluate_llm.py:89-127 | the method computes `ComparisonOf` |
| `Evaluate.TraditionalExtractor` | scripts/evaluate_llm.py:45-63 | where there is a traditional extractor, it is the classifier's extractor for the type. Bid summary, bids as read and unknown have none |
| `Evaluate.SideOf` | scripts/evaluate_llm.py:158-209 | a side either ran or errored. A raising run gives the error side with its message. An envelope without "status" gives the KeyError side `'status'`. Otherwise the data is the envelope's "data" (`{}` when absent), and the side is the completeness error, or a run with the envelope's status, the data, the seconds taken, the model and the data's `Completeness`, which lies in [0, 1] |
| `Evaluate.EvaluateFile` | scripts/evaluate_llm.py:129-218 | exactly unknown types are skipped, under the full path. An evaluated file has the base name and the type's value, and is "not supported" exactly when the type has no traditional extractor |
| `Evaluate.ComparisonGate` | scripts/evaluate_llm.py:211-216 | a comparison is made exactly when both sides have truthy data |
| `Evaluate.BothDataGate` | scripts/evaluate_llm.py:212 | with dict-or-falsy data, the comparison exists exactly when both data are truthy |
| `Evaluate.EvaluateFileWellFormed` | scripts/evaluate_llm.py:129-218 | every completeness of an evaluation lies in [0, 1] and every improvement in [-1, 1] |
| `Evaluate.Limited` | scripts/evaluate_llm.py:233-234 | the files kept are a prefix. None or 0 keeps them all, a positive limit keeps at most that many, and a negative one drops that many from the end |
| `Evaluate.EvaluationOf` | scripts/evaluate_llm.py:129-218 | a file is skipped exactly when it classifies as unknown, and every evaluation is well formed |
| `Evaluate.Mapped` | scripts/evaluate_llm.py:242-247 | one result per file |
| `Evaluate.MappedAt` | scripts/evaluate_llm.py:242-247 | result i is the evaluation of file i |
| `Evaluate.EvaluateEach` | scripts/evaluate_llm.py:242-247 | the loop evaluates every file, in order |
| `Evaluate.SidesOf` | scripts/evaluate_llm.py:272-291 | no more sides than results |
| `Evaluate.CountEvaluated` | scripts/evaluate_llm.py:269 | no more evaluated files than files |
| `Evaluate.CountSuccess` | scripts/evaluate_llm.py:272-275 | no more successes than sides |
| `Evaluate.Completenesses` | scripts/evaluate_llm.py:276-280 | no more completenesses than sides |
| `Evaluate.Times` | scripts/evaluate_llm.py:301-310 | no more times than sides |
| `Evaluate.CountSign` | scripts/evaluate_llm.py:330-332 | no more counted improvements than improvements |
| `Evaluate.SummaryOf` | scripts/evaluate_llm.py:259-336 | there is no summary exactly when there are no results. A summary counts every file and no more evaluated files than files |
| `Evaluate.SignsAddUp` | scripts/evaluate_llm.py:330-332 | every improvement counts as improved, degraded or same |
| `Evaluate.SumBounds` | scripts/evaluate_llm.py:318 | a sum of values in [lo, hi] lies between n·lo and n·hi |
| `Evaluate.AverageBounds` | scripts/evaluate_llm.py:318 | the average of scores in [0, 1] lies in [0, 1] |
| `Evaluate.SidesOfInUnit` | scripts/evaluate_llm.py:276-291 | the sides of well-formed results have completenesses in [0, 1] |
| `Evaluate.CompletenessesInUnit` | scripts/evaluate_llm.py:276-291 | so do the completenesses gathered from them |
| `Evaluate.SummaryCounts` | scripts/evaluate_llm.py:268-334 | improved + degraded + same is the number of comparisons. Success counts are at most the file count, and success rates and average completenesses lie in [0, 1] |
| `Evaluate.Evaluator.constructor` | scripts/evaluate_llm.py:36-43 | the model is kept and there are no results yet |
| `Evaluate.Evaluator.EvaluateDirectory` | scripts/evaluate_llm.py:220-257 | the results are the evaluations of the limited files, in order, and they are stored |
| `Evaluate.Evaluator.GenerateSummary` | scripts/evaluate_llm.py:259-336 | no summary exactly when there are no stored results. A summary counts every stored result, and no more evaluated files than results |
| `Schemas.Required` | src/models/schemas.py:31 | a required field validates exactly when it is present, and keeps its value |
| `Schemas.ValidateContractNumber` | src/models/schemas.py:12 | a contract number validates exactly when it is not blank. The empty string fails the length check and a blank one the validator. The result is stripped and uppercased |
| `Schemas.ContractNumberIdempotent` | src/models/schemas.py:33-38 | a stored contract number validates to itself |
| `Schemas.ContractNumberStripsPadding` | src/models/schemas.py:36-38 | blank padding around a stored number is removed |
| `Schemas.ValidateContract` | src/models/schemas.py:9-38 | a contract validates exactly when it has a non-blank contract number and a source file path. The result is normalised and keeps the optional fields; a missing number is reported as required |
| `Schemas.ContractRoundTrip` | src/models/schemas.py:9-38 | a valid contract validates to itself |
| `Schemas.ValidateAmount` | src/models/schemas.py:52-57 | an amount validates exactly when it is None or not negative, and is kept unchanged |
| `Schemas.ValidateBidder` | src/models/schemas.py:41-57 | a bidder validates exactly when it has a contract number, a non-empty name and an amount that is None or not negative. Every field is kept, and `is_winner` defaults to False |
| `Schemas.BidderRoundTrip` | src/models/schemas.py:41-57 | a valid bidder validates to itself |
| `Schemas.WinnerDefaultsFalse` | src/models/schemas.py:50 | a bidder given without `is_winner` is not a winner |
| `Schemas.ValidateBidItem` | src/models/schemas.py:60-71 | a bid item validates exactly when it has a contract number, and keeps its fields |
| `Schemas.ValidateBidders` | src/models/schemas.py:78 | a list validates exactly when every bidder does, each at its own position |
| `Schemas.ValidateBidItems` | src/models/schemas.py:79 | a list validates exactly when every item has a contract number; item k is the k-th input item, with every field kept and its contract number set |
| `Schemas.ValidateExtracted` | src/models/schemas.py:74-80 | the extracted data validates exactly when the contract and every bidder and item do. Missing lists and metadata default to empty. The result holds the validated contract, the validated bidders, the validated bid items and the metadata |
| `Schemas.ExtractedDefaults` | src/models/schemas.py:78-80 | a valid contract alone gives empty bidders, items and metadata |
| `Schemas.OneBadBidderRejects` | src/models/schemas.py:74-80 | one invalid bidder rejects the whole data |
| `Schemas.ValidateConfidence` | src/models/schemas.py:91 | a confidence validates exactly when it is None or lies in [0, 1] |
| `Schemas.ValidateResult` | src/models/schemas.py:83-93 | a result validates exactly when the four required strings are present, the confidence is None or in [0, 1], and any data validates. The file path, document type, extraction method, status, error message, processing time and confidence are kept, and given data becomes the validated bundle |
| `S3.PageKeys` | src/ingestors/s3_ingestor.py:47-48 | one key per listed item, with a page without Contents listing none |
| `S3.PdfKeys` | src/ingestors/s3_ingestor.py:49-50 | exactly the keys ending in `.pdf` in any case, in order |
| `S3.FoldKeysConcat` | src/ingestors/s3_ingestor.py:46-52 | the listing loop over two runs of keys is the loop over each in turn |
| `S3.FoldPagesFlat` | src/ingestors/s3_ingestor.py:46-52 | paging changes nothing: the nested loop is one loop over all keys |
| `S3.DoneStays` | src/ingestors/s3_ingestor.py:51-52 | once returned, further keys change nothing |
| `S3.UncappedFold` | src/ingestors/s3_ingestor.py:51 | with no cap, or a cap of 0, every PDF key is collected |
| `S3.PositiveCapFold` | src/ingestors/s3_ingestor.py:51-52 | with a positive cap the loop returns the first cap PDF keys once there are that many |
| `S3.NegativeCapFold` | src/ingestors/s3_ingestor.py:51-52 | a negative cap returns after the very first item, with that item's key only when it is a PDF |
| `S3.ListedUncapped` | src/ingestors/s3_ingestor.py:42-53 | without a cap the listing (`ListedKeys`) is every PDF key of every page, in order |
| `S3.ListedPositiveCap` | src/ingestors/s3_ingestor.py:42-53 | with a positive cap the listing is the first cap PDF keys, or all of them when there are fewer |
| `S3.ListedNegativeCap` | src/ingestors/s3_ingestor.py:42-53 | with a negative cap the listing holds at most the first key, and only when it is a PDF |
| `S3.ListedKeysArePdf` | src/ingestors/s3_ingestor.py:42-53 | every listed key is a PDF key of the bucket listing, and a positive cap bounds the count |
| `S3.PdfKeysSnoc` | src/ingestors/s3_ingestor.py:49-50 | one more key is kept exactly when it is a PDF key |
| `S3.PdfSuffixAnyCase` | src/ingestors/s3_ingestor.py:49 | `.pdf` in any mix of cases is a PDF suffix |
| `S3.CapOfTwoExample` | tests/test_s3_ingestion.py:75-96 | a page of two PDFs around a text file, capped at two, lists the two PDFs |
| `S3.OnePageKeys` | src/ingestors/s3_ingestor.py:46-48 | a single page's keys are the keys listed |
| `S3.ThreeKeysFiltered` | tests/test_s3_ingestion.py:75-96 | the text file between two PDFs is dropped |
| `S3.StepInPage` | src/ingestors/s3_ingestor.py:47-52 | each item is one step of the inner loop |
| `S3.PageFinished` | src/ingestors/s3_ingestor.py:46-52 | a finished page continues with the next one |
| `S3.EarlyReturn` | src/ingestors/s3_ingestor.py:51-52 | a return inside the loops gives the final listing |
| `S3.DonePagesStay` | src/ingestors/s3_ingestor.py:51-52 | once returned, later pages change nothing |
| `S3.IngestedFiles` | src/ingestors/s3_ingestor.py:59-66 | one ingested file per listed key |
| `S3.IngestedAt` | src/ingestors/s3_ingestor.py:60-65 | key i is saved at `LocalPath`: the local directory joined with its own file name |
| `S3.FindJoin` | src/ingestors/s3_ingestor.py:61 | the first slash of a joined path is in the first part, or is the joining one |
| `S3.SplitSlashJoin` | src/ingestors/s3_ingestor.py:61 | splitting a joined path at slashes splits each part |
| `S3.PathPartsConcat` | src/ingestors/s3_ingestor.py:61 | the path parts of two runs are those of each |
| `S3.BasenameAfterSlash` | src/ingestors/s3_ingestor.py:61 | the file name of a path is what follows its last slash |
| `S3.LocalPathKeepsName` | src/ingestors/s3_ingestor.py:61-62 | the local path of a download has the key's file name |
| `S3.KeyMapPaths` | src/ingestors/s3_ingestor.py:68-71 | the keys of `KeyMap` are exactly the local paths of the files |
| `S3.KeyMapLastWins` | tests/test_s3_ingestion.py:99-107 | a local path maps to the key of its last file |
| `S3.LaterDuplicateWins` | src/ingestors/s3_ingestor.py:71 | of two files with the same local path, the later key is kept |
| `S3.MovedKey` | src/loaders/s3_loader.py:67-69 | the new key lies under the target prefix without its trailing slashes |
| `S3.MovedKeepsName` | src/loaders/s3_loader.py:67-69 | the moved object keeps its file name |
| `S3.MovedKeyIgnoresTrailingSlashes` | src/loaders/s3_loader.py:69 | a trailing slash on the prefix makes no difference |
| `S3.MovedUnderPrefix` | tests/test_s3_ingestion.py:110-128 | moving `dir/name` under `prefix/` gives `prefix/name` |
| `S3.ResultsKey` | src/loaders/s3_loader.py:57 | the results key lies under the processed prefix's `results/` and ends with the file name |
| `S3.Occurrences` | src/loaders/s3_loader.py:52-55 | a character occurs at most as often as the text is long |
| `S3.OccurrencesConcat` | src/loaders/s3_loader.py:52-55 | occurrences in two texts add up |
| `S3.OneLinePerRow` | src/loaders/s3_loader.py:52-55 | the JSON Lines body (`JsonLines`) has one newline per result row when no row's JSON holds a newline |
| `S3.NoOccurrence` | src/loaders/s3_loader.py:52-55 | an absent character occurs zero times |
| `S3.Client.constructor` | src/ingestors/s3_ingestor.py:40 | a client over the given listings that has made no calls |
| `S3.Client.DownloadFile` | src/ingestors/s3_ingestor.py:64 | the download is recorded and the listings are unchanged |
| `S3.Client.UploadFile` | src/loaders/s3_loader.py:59 | the upload is recorded and the listings are unchanged |
| `S3.Client.CopyObject` | src/loaders/s3_loader.py:71-75 | the copy is recorded and the listings are unchanged |
| `S3.Client.DeleteObject` | src/loaders/s3_loader.py:76 | the delete is recorded and the listings are unchanged |
| `S3.Downloads` | src/ingestors/s3_ingestor.py:60-65 | one download call per file |
| `S3.DownloadsSnoc` | src/ingestors/s3_ingestor.py:64 | each file adds its own download of its key to its local path |
| `S3.Ingestor.constructor` | src/ingestors/s3_ingestor.py:26-40 | the ingestor keeps its bucket, prefix, local directory, cap and client |
| `S3.Ingestor.ListPdfKeys` | src/ingestors/s3_ingestor.py:42-53 | the nested loop with its early return computes the capped listing of PDF keys |
| `S3.Ingestor.DownloadAll` | src/ingestors/s3_ingestor.py:55-66 | the files are the listed keys, each saved under its file name. The client records one download per file, in order, and nothing else |
| `S3.Loader.constructor` | src/loaders/s3_loader.py:21-33 | the loader keeps its bucket, prefixes and client |
| `S3.Loader.UploadResults` | src/loaders/s3_loader.py:35-60 | the key is the results key of the run's file name (`OutputName`). Exactly one upload is made, from the local output path, with the body `BodyOf` gives: the Parquet rows or the JSON Lines text |
| `S3.Loader.MoveSource` | src/loaders/s3_loader.py:62-77 | the new key is under the processed prefix on success and the error prefix otherwise. The object is copied there and then deleted, and nothing else is called |

## Left out

- PDF readers (pypdf, pdfplumber, PyMuPDF) are not modelled. A document is its page texts, or an `Unreadable` reason for a reader that raises.
- The `ocrmypdf` subprocess, its temporary files and its timing are not modelled. A run is an outcome: completed with a duration, timed out, or failed with a message.
- The LLM call (`litellm.completion`), `json.loads` and `json.dumps` are parameters. `os.environ` is a map, and its writes are the map returned.
- The clock, `processing_time`, the upload run id and `isoformat` are parameters.
- `round()` is not modelled: completenesses, improvements and averages are exact reals.
- Python's int and float are one kind of number, `Num` of a real. So `100` and `100.0` are the same value in the model, and `str()` of either is the same text, where Python writes "100" and "100.0". The members below inherit this.
- PostgresLoader.BidderKeyEquality: the amount key of `100` and of `100.0` is the same text, so two such bidders are equal here where Python's keys "ACME|100" and "ACME|100.0" differ.
- PostgresLoader.BidderKey: the amount part is `str()` of the number without telling int from float, so `load_bidders` skips a second bidder that differs from the first only by `100` against `100.0`, which Python stages.
- PostgresLoader.NormalizeContractNumber: a numeric contract number such as `12345678` and `12345678.0` normalises to one text, where Python gives "12345678" and "12345678.0".
- Evaluate.VerdictOf: `5` against `5.0` is Same in the model, where Python's `str()` texts differ and the key is Different.
- Floats are exact reals, not IEEE doubles. `float(str)`, `str(float)` and `datetime.fromisoformat` are functions given to the model. The bid-tabs item-line numerals are the exception: they are parsed exactly.
- `int()` is modelled for ASCII digit strings only; underscores and signs in `int()` literals are left out. Case mapping is ASCII only.
- The bidder and total regular expressions of the bid-tabs extractor are not modelled, because they rely on backtracking. Their matches are an input: bidder groups already stripped, totals with the `float` value of their digits.
- The two bidder line patterns of the bids-as-read extractor are not modelled either. Their groups are given per pattern. `_parse_percent` is a parameter.
- The ranking-section regex of the bid-tabs extractor is given as one optional rank per line.
- PostgresLoader.Database.LoadBatch: the summary's `success_rate` entry, the text `f"{successful/total*100:.1f}%"` or "0%" (src/loaders/postgres_loader.py:329), is not modelled; the summary holds total, successful and failed.
- Orchestrator.Pipeline.constructor: the `ValueError` raised when `source_dir` does not exist (src/pipeline/orchestrator.py:35-36) is not modelled; file existence is outside the model, so a pipeline is always constructed. The `source_dir` path and the default state-file path are not modelled either.
- The SQLAlchemy session is the `Database` class: committed rows, pending rows and a flag for failing commits. Queries, the engine, `create_tables` and `close` are left out.
- The first `_parse_datetime` (src/loaders/postgres_loader.py:204-224) is not modelled, because the second definition at line 347 replaces it.
- `compare_extractions` iterates a Python set. The model uses the first-occurrence order of the keys; the counts do not depend on it.
- `evaluate_llm.py`'s `main`, its printing and its glob are left out. The directory's files are an input, in the glob's order.
- Logging (structlog), `print`, and the CLI scripts `run_pipeline.py`, `run_demo.py` and `main.py` are left out.
- Pydantic reports every failing field; the model reports the first one. Optional typed fields such as dates and decimals are kept as given, without coercion.
- S3.Client: client calls never fail in the model. In the source, a boto3 error from `download_file`, `upload_file`, `copy_object` or `delete_object` propagates. So the model does not capture a `download_all` that stops part-way with the earlier files already downloaded, a `move_source` whose failing copy leaves the source undeleted, or a failing delete that leaves the object in both places.
- The boto3 fallback of the S3 classes, and its ImportError, are left out: a client is always given.
- `Path(local_dir)` normalisation is not modelled. The local directory is assumed normalised (`NormalDir`).
- The Parquet body is not modelled: it is the rows themselves.
- `mkdir` is left out, as are file existence beyond the mapping file and the fingerprint of a file (hash, size, mtime). Each discovered file comes with its fingerprint as input.
- The state file is a map. Reading a missing or malformed file gives the empty state.
- The invitation, award-letter and Item C extractors, which are regular expressions only, are left out. Their results enter as given extraction envelopes.
- `bid_summary_extractor` and `validate_bidder_outliers` are not part of this model; their source is not available.
- BidTabs.ScanPages: states only that a PDF without pages gives nothing. What the page scan contributes is stated by `TableItemsWin` and `NoTableItemsUsesText`.
- BidTabs.ParseNumber: states only that a None cell gives None, because `float` of a cell's text is a parameter.
- BidTabs.WithTables: states only that failures propagate. Its results are stated through `Extract` and the lemmas after it.
- Evaluate.SidesOf, `CountEvaluated`, `CountSuccess`, `Completenesses` and `Times`: these state only bounds. What `generate_summary` promises is stated by `SummaryCounts`.
- S3.Ingestor.ListPdfKeys: a negative `max_items` is truthy, so the loop returns after the first item. This is modelled as written (`ListedNegativeCap`).
- FileMapping.LoadMappings and FileMapping.MappingResolver.constructor: a loaded mapping is typed, with `fields` a list of strings and `aliases` and `list_fields` dicts of the right shape. Ill-shaped mapping files are not modelled: an `aliases` that is not a dict (its `.items()` raises), a `fields` string (iterated character by character) and a `list_fields` entry that is not a dict (raises in `_apply_item_mapping`).
- `_default_mapping_path` and its `FILE_MAPPING_PATH` override (src/transformers/file_mapping.py:108-114) are not modelled: the resolver is given its path.
- BusinessRules.DateOrder: dates carry no time zone, so the `TypeError` Python raises when comparing a naive with an aware datetime is not modelled.
- BaseExtractor.ExtractTextFromPage: the text of pypdf's error for a page number below `-len(pages)` is not modelled; the model gives a fixed text.
- An `AttributeError` message is modelled as `object has no attribute '<name>'`, without the type name Python puts in front (`'list' object ...`). This applies to Evaluate.Completeness, BaseExtractor.ConfidenceScore and the loader, orchestrator and business-rule errors.
- The `TypeError` of `len()` on a number, a boolean or None is modelled as `object has no len()`, without the type name Python gives (`object of type 'int' has no len()`). This applies to Evaluate.Completeness, BaseExtractor.ConfidenceScore and the LLM extractor's check of the parsed answer.
- BidTabs.BidItem: a table item has no `item_code` key in the source; the model gives it `itemCode == None`, so an absent key and a None value are not told apart.
- Patterns: `\d` and `\b` are ASCII in the model. Python's `re` on `str` also matches other Unicode digits and word characters.

## Findings

| source | as written | input that shows it | evidently intended | confidence | as-written member | corrected member |
|---|---|---|---|---|---|---|
| src/loaders/postgres_loader.py:263-285 | `load_extraction_result` passes `source_file_hash`, `source_file_mtime` and `extraction_run_id` to `Contract(**data)`, but the `Contract` class (src/models/database_models.py:22-50) does not declare them. A new contract raises TypeError, is rolled back, and the result loads as False | any success result whose contract number is not yet stored | the ORM class declares the lineage columns that the migration `0002_add_ocr_lineage` adds | not executed | `PostgresLoader.DeclaredNewContractFails` | `PostgresLoader.MigratedNewContractLoads` |
| src/loaders/postgres_loader.py:176-196 | `log_extraction` passes `ocr_applied`, `ocr_method`, `ocr_duration_seconds` and `run_id` to `ExtractionLog(**log_data)`, which does not declare them (src/models/database_models.py:97-116). Every log row is rolled back | any extraction result | the log class declares the OCR and run columns that the migration adds | not executed | `PostgresLoader.DeclaredLogRejects` | `PostgresLoader.MigratedLogAccepts` |
