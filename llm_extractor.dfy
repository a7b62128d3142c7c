/**
 * The LLM extractor and the hybrid extractor.
 *
 * The LLM extractor picks the provider's API key from the model name, builds a prompt from the
 * document text and a per-type JSON schema, sends it to the completion service, strips a
 * Markdown code fence from the answer and parses it as JSON. The hybrid extractor keeps a
 * traditional extraction whose confidence reaches the threshold and otherwise falls back to the
 * LLM extractor, returning the traditional result marked as a failed fallback when that cannot
 * run.
 *
 * The completion service, JSON parsing and JSON rendering are parameters; the process
 * environment is a map from variable names to values.
 */
module LlmExtractor {
  import opened Wrappers
  import opened Values
  import Text
  import Classifier
  import BaseExtractor
  import opened Environment

  /** `word in model.lower()`. */
  predicate Mentions(model: string, word: string) {
    Text.Contains(Text.Lower(model), word)
  }

  const GeminiKey := "GEMINI_API_KEY"
  const OpenAiKey := "OPENAI_API_KEY"
  const AnthropicKey := "ANTHROPIC_API_KEY"

  /** The error `_validate_configuration` raises when a provider's key variable is unset. */
  function MissingKeyError(keyVar: string): string {
    keyVar + " not found in environment"
  }

  // ---------------------------------------------------------------------------------------
  // Configuration
  // ---------------------------------------------------------------------------------------

  /**
   * `_set_api_key`: the key goes to the variable of the first provider the model name mentions,
   * in the order gemini, gpt, claude; a model mentioning none leaves the environment alone.
   */
  function SetApiKey(model: string, apiKey: string, env: Env): (r: Env)
    ensures Mentions(model, "gemini") ==> r == env[GeminiKey := apiKey]
    ensures !Mentions(model, "gemini") && Mentions(model, "gpt") ==> r == env[OpenAiKey := apiKey]
    ensures !Mentions(model, "gemini") && !Mentions(model, "gpt") && Mentions(model, "claude") ==>
      r == env[AnthropicKey := apiKey]
    ensures !Mentions(model, "gemini") && !Mentions(model, "gpt") && !Mentions(model, "claude") ==> r == env
  {
    if Mentions(model, "gemini") then env[GeminiKey := apiKey]
    else if Mentions(model, "gpt") then env[OpenAiKey := apiKey]
    else if Mentions(model, "claude") then env[AnthropicKey := apiKey]
    else env
  }

  /**
   * `_validate_configuration`: the ValueError it raises, if any. Each provider the model name
   * mentions needs its key variable set, and the first one missing (gemini, gpt, claude) is
   * reported.
   */
  function ValidateConfiguration(model: string, env: Env): (r: Option<string>)
    ensures r.None? <==>
      (Mentions(model, "gemini") ==> HasVar(env, GeminiKey))
      && (Mentions(model, "gpt") ==> HasVar(env, OpenAiKey))
      && (Mentions(model, "claude") ==> HasVar(env, AnthropicKey))
    ensures r.Some? ==> r.value in {MissingKeyError(GeminiKey), MissingKeyError(OpenAiKey), MissingKeyError(AnthropicKey)}
    ensures Mentions(model, "gemini") && !HasVar(env, GeminiKey) ==> r == Some(MissingKeyError(GeminiKey))
  {
    if Mentions(model, "gemini") && !HasVar(env, GeminiKey) then Some(MissingKeyError(GeminiKey))
    else if Mentions(model, "gpt") && !HasVar(env, OpenAiKey) then Some(MissingKeyError(OpenAiKey))
    else if Mentions(model, "claude") && !HasVar(env, AnthropicKey) then Some(MissingKeyError(AnthropicKey))
    else None
  }

  /** What constructing an `LLMExtractor` does: the environment afterwards and the error raised, if any. */
  datatype Configured = Configured(env: Env, error: Option<string>)

  /** `LLMExtractor.__init__`: a truthy key is installed first, then the configuration is validated. */
  function Configure(model: string, apiKey: Option<string>, env: Env): (r: Configured)
    ensures apiKey.Some? && apiKey.value != "" ==> r.env == SetApiKey(model, apiKey.value, env)
    ensures apiKey.None? || apiKey == Some("") ==> r.env == env
    ensures r.error == ValidateConfiguration(model, r.env)
  {
    var env2 := if apiKey.Some? && apiKey.value != "" then SetApiKey(model, apiKey.value, env) else env;
    Configured(env2, ValidateConfiguration(model, env2))
  }

  /**
   * A key passed to the constructor is enough for a model that names exactly one provider,
   * whatever the environment held before.
   */
  lemma KeyConfiguresSingleProvider(model: string, apiKey: string, env: Env)
    requires apiKey != ""
    requires (if Mentions(model, "gemini") then 1 else 0) + (if Mentions(model, "gpt") then 1 else 0)
             + (if Mentions(model, "claude") then 1 else 0) == 1
    ensures Configure(model, Some(apiKey), env).error.None?
  {
    var env2 := Configure(model, Some(apiKey), env).env;
    assert env2 == SetApiKey(model, apiKey, env);
    if Mentions(model, "gemini") {
      assert HasVar(env2, GeminiKey);
    } else if Mentions(model, "gpt") {
      assert HasVar(env2, OpenAiKey);
    } else {
      assert HasVar(env2, AnthropicKey);
    }
  }

  /**
   * A model naming two providers gets the key for the first only, so the second provider's
   * variable is still required: a "gemini-gpt" model with a key and an empty environment fails.
   */
  lemma KeyCoversFirstProviderOnly()
    ensures Configure("gemini-gpt", Some("k"), map[]) == Configured(map[GeminiKey := "k"], Some(MissingKeyError(OpenAiKey)))
  {
    var m := "gemini-gpt";
    assert Text.Lower(m) == m;
    assert Text.OccursAt(m, "gemini", 0);
    assert Text.OccursAt(m, "gpt", 7);
    assert Mentions(m, "gemini") && Mentions(m, "gpt");
    assert !HasVar(map[GeminiKey := "k"], OpenAiKey);
  }

  // ---------------------------------------------------------------------------------------
  // The model name and the completion call
  // ---------------------------------------------------------------------------------------

  const GeminiPrefix := "gemini/"

  /**
   * The model name given to the completion service for a Gemini model: a bare name gets the
   * "gemini/" prefix, a name under another prefix has that prefix replaced by "gemini/", and a
   * name already under "gemini/" is kept. Other models are passed as they are.
   */
  function NormalizeModelName(model: string): (r: string)
    ensures !Mentions(model, "gemini") ==> r == model
    ensures Mentions(model, "gemini") && '/' !in model ==> r == GeminiPrefix + model
    ensures Mentions(model, "gemini") && '/' in model && !Text.StartsWith(model, GeminiPrefix) ==>
      r == GeminiPrefix + Text.LastSegment(model, '/')
    ensures Text.StartsWith(model, GeminiPrefix) ==> r == model
  {
    Text.PrefixChars(model, GeminiPrefix);
    assert GeminiPrefix[6] == '/';
    if !Mentions(model, "gemini") then model
    else if '/' !in model then GeminiPrefix + model
    else if !Text.StartsWith(model, GeminiPrefix) then GeminiPrefix + Text.LastSegment(model, '/')
    else model
  }

  /** A name under the "gemini/" prefix mentions Gemini. */
  lemma PrefixedMentionsGemini(rest: string)
    ensures Mentions(GeminiPrefix + rest, "gemini")
  {
    Text.LowerConcat(GeminiPrefix, rest);
    assert Text.Lower(GeminiPrefix) == GeminiPrefix;
    assert Text.OccursAt(Text.Lower(GeminiPrefix + rest), "gemini", 0);
  }

  /**
   * Every Gemini model name is sent under the "gemini/" prefix, and what follows the prefix holds
   * no further '/' unless the caller already wrote the prefix.
   */
  lemma GeminiNamesArePrefixed(model: string)
    requires Mentions(model, "gemini")
    ensures Text.StartsWith(NormalizeModelName(model), GeminiPrefix)
    ensures !Text.StartsWith(model, GeminiPrefix) ==> '/' !in NormalizeModelName(model)[|GeminiPrefix|..]
  {
    var r := NormalizeModelName(model);
    if '/' !in model {
      assert r[..|GeminiPrefix|] == GeminiPrefix && r[|GeminiPrefix|..] == model;
    } else if !Text.StartsWith(model, GeminiPrefix) {
      assert r[..|GeminiPrefix|] == GeminiPrefix && r[|GeminiPrefix|..] == Text.LastSegment(model, '/');
    }
  }

  /** Normalising a name twice gives what normalising it once gives. */
  lemma NormalizeIdempotent(model: string)
    ensures NormalizeModelName(NormalizeModelName(model)) == NormalizeModelName(model)
  {
    var r := NormalizeModelName(model);
    if Mentions(model, "gemini") && !Text.StartsWith(model, GeminiPrefix) {
      var rest := if '/' !in model then model else Text.LastSegment(model, '/');
      assert r == GeminiPrefix + rest;
      assert (GeminiPrefix + rest)[..|GeminiPrefix|] == GeminiPrefix;
      assert Text.StartsWith(r, GeminiPrefix);
    }
  }

  /** The model name and API key passed to `completion`: only Gemini models get a key from the environment. */
  datatype CallArgs = CallArgs(modelName: string, apiKey: Option<string>)

  function CallArgsFor(model: string, env: Env): (r: CallArgs)
    ensures r.modelName == NormalizeModelName(model)
    ensures Mentions(model, "gemini") ==> r.apiKey == Getenv(env, GeminiKey)
    ensures !Mentions(model, "gemini") ==> r.apiKey.None? && r.modelName == model
  {
    if Mentions(model, "gemini") then CallArgs(NormalizeModelName(model), Getenv(env, GeminiKey))
    else CallArgs(model, None)
  }

  // ---------------------------------------------------------------------------------------
  // The prompt
  // ---------------------------------------------------------------------------------------

  /** How much of the document text goes into the prompt. */
  const PromptTextLimit := 8000

  /** `text[:8000]`. */
  function Clip(text: string): (r: string)
    ensures |r| <= PromptTextLimit && Text.StartsWith(text, r)
    ensures |text| <= PromptTextLimit ==> r == text
  {
    if |text| <= PromptTextLimit then text else text[..PromptTextLimit]
  }

  function S(s: string): Value { Str(s) }

  /** The schema used for a type without one of its own. */
  const UnknownSchema := Obj([("error", S("Unknown document type"))])

  const KnownTypes := {"invitation_to_bid", "bid_tabs", "award_letter", "item_c_report"}

  /** The expected-output schema shown to the model for each document type. */
  function SchemaFor(docType: string): (r: Value)
    ensures r.Obj? && r.fields != []
    ensures r == UnknownSchema <==> docType !in KnownTypes
    ensures docType in KnownTypes - {"item_c_report"} ==> r.fields[0] == ("contract_number", S("string"))
                                                          || r.fields[0] == ("contract_number", S("string (e.g., DA00565)"))
  {
    if docType == "invitation_to_bid" then
      Obj([("contract_number", S("string (e.g., DA00565)")), ("letting_date", S("string (YYYY-MM-DD)")),
           ("bid_opening_date", S("string (YYYY-MM-DD)")), ("project_description", S("string")),
           ("mbe_goal_percent", S("number (e.g., 10 for 10%)")), ("wbe_goal_percent", S("number")),
           ("location", S("string")), ("county", S("string"))])
    else if docType == "bid_tabs" then
      Obj([("contract_number", S("string")), ("letting_date", S("string (YYYY-MM-DD)")),
           ("bidders", List([Obj([("rank", S("integer")), ("company_name", S("string")),
                                  ("total_bid", S("number (dollars)"))])]))])
    else if docType == "award_letter" then
      Obj([("contract_number", S("string")), ("award_date", S("string (YYYY-MM-DD)")),
           ("winner_name", S("string")), ("award_amount", S("number (dollars)")),
           ("project_description", S("string"))])
    else if docType == "item_c_report" then
      Obj([("letting_date", S("string (YYYY-MM-DD)")), ("engineer_estimate", S("number (dollars)")),
           ("low_bid", S("number (dollars)")),
           ("bidders", List([Obj([("company_name", S("string")), ("total_bid", S("number"))])]))])
    else UnknownSchema
  }

  const PromptIntro := "You are a data extraction expert. Extract structured information from this "
  const PromptContentHeader := " document.\n\nDocument Content:\n"
  /** The f-string's "comment" is part of the literal text and so part of the prompt. */
  const PromptAfterText := "  # Limit text to avoid token limits\n\nIMPORTANT: Return ONLY valid JSON with the extracted fields. No explanations or markdown.\n\n"
  const PromptSchemaHeader := "\nExpected JSON Schema:\n"
  const PromptTrailer := "\n\nExtracted Data (JSON only):"

  /** The part of the prompt after the document text: the closing instructions and the schema. */
  function PromptTail(schema: string): (r: string)
    ensures Text.Contains(r, schema) && Text.EndsWith(r, PromptTrailer)
  {
    var r := (PromptAfterText + PromptSchemaHeader) + schema + PromptTrailer;
    Text.ContainsMiddle(PromptAfterText + PromptSchemaHeader, schema, PromptTrailer);
    Text.ConcatEnds((PromptAfterText + PromptSchemaHeader) + schema, PromptTrailer);
    r
  }

  /** The part of the prompt after the document type. */
  function PromptBody(clipped: string, schema: string): (r: string)
    ensures Text.Contains(r, clipped) && Text.Contains(r, schema) && Text.EndsWith(r, PromptTrailer)
  {
    var tail := PromptTail(schema);
    var r := PromptContentHeader + clipped + tail;
    Text.ContainsMiddle(PromptContentHeader, clipped, tail);
    Text.ContainsInSuffix(PromptContentHeader + clipped, tail, schema);
    Text.EndsWithSuffix(PromptContentHeader + clipped, tail, PromptTrailer);
    r
  }

  /**
   * `_create_extraction_prompt`: the instructions naming the document type, the clipped text and
   * the schema as `json.dumps(schema, indent=2)` renders it (`dumps`).
   */
  function Prompt(text: string, docType: string, dumps: Value -> string): (r: string)
    ensures Text.Contains(r, Clip(text)) && Text.Contains(r, docType)
    ensures Text.Contains(r, dumps(SchemaFor(docType)))
    ensures Text.StartsWith(r, PromptIntro) && Text.EndsWith(r, PromptTrailer)
  {
    var schema := dumps(SchemaFor(docType));
    var body := PromptBody(Clip(text), schema);
    PromptFacts(PromptIntro, docType, body, Clip(text), schema, PromptTrailer);
    PromptIntro + docType + body
  }

  lemma PromptFacts(intro: string, docType: string, body: string, clipped: string, schema: string, trailer: string)
    requires Text.Contains(body, clipped) && Text.Contains(body, schema) && Text.EndsWith(body, trailer)
    ensures var r := intro + docType + body;
      Text.Contains(r, clipped) && Text.Contains(r, docType) && Text.Contains(r, schema)
      && Text.StartsWith(r, intro) && Text.EndsWith(r, trailer)
  {
    var r := intro + docType + body;
    Text.ContainsMiddle(intro, docType, body);
    Text.ContainsInSuffix(intro + docType, body, clipped);
    Text.ContainsInSuffix(intro + docType, body, schema);
    Text.EndsWithSuffix(intro + docType, body, trailer);
    assert r == intro + (docType + body);
    Text.ConcatEnds(intro, docType + body);
  }

  // ---------------------------------------------------------------------------------------
  // The answer
  // ---------------------------------------------------------------------------------------

  const JsonFence := "```json"
  const Fence := "```"

  /**
   * The text parsed as JSON: the part inside the first "```json" fence, else inside the first
   * "```" fence, else the whole answer, then stripped of surrounding whitespace.
   */
  function StripFences(content: string): (r: string)
    ensures !Text.Contains(content, Fence) ==> r == Text.Strip(content)
    ensures Text.Contains(content, Fence) ==> !Text.Contains(r, Fence)
  {
    if Text.Contains(content, JsonFence) then
      var i := Text.Find(content, JsonFence).value;
      assert content[i..i + |Fence|] == content[i..i + |JsonFence|][..|Fence|];
      assert Text.OccursAt(content, Fence, i);
      InsideFence(content, JsonFence)
    else if Text.Contains(content, Fence) then InsideFence(content, Fence)
    else Text.Strip(content)
  }

  /** `content.split(open)[1].split("```")[0].strip()` when `open` occurs in `content`. */
  function InsideFence(content: string, open: string): (r: string)
    requires open != [] && Text.Contains(content, open)
    ensures !Text.Contains(r, Fence)
  {
    var inner := Text.Before(Text.After(content, open), Fence);
    Text.BeforeHasNoSep(Text.After(content, open), Fence);
    Text.StripKeepsAbsence(inner, Fence);
    Text.Strip(inner)
  }

  /** An answer wrapped in a "```json" fence yields the stripped text inside the fence. */
  lemma JsonFenceUnwrapped(pre: string, body: string, post: string)
    requires '`' !in pre && '`' !in body
    ensures StripFences(pre + JsonFence + body + Fence + post) == Text.Strip(body)
  {
    var content := pre + JsonFence + body + Fence + post;
    assert content == pre + JsonFence + (body + Fence + post);
    Text.SplitAtFirst(pre, JsonFence, body + Fence + post);
    Text.SplitAtFirst(body, Fence, post);
  }

  /** An answer wrapped in a plain "```" fence, with no "```json" anywhere, yields the stripped text inside. */
  lemma PlainFenceUnwrapped(pre: string, body: string, post: string)
    requires '`' !in pre && '`' !in body
    requires !Text.Contains(pre + Fence + body + Fence + post, JsonFence)
    ensures StripFences(pre + Fence + body + Fence + post) == Text.Strip(body)
  {
    var content := pre + Fence + body + Fence + post;
    assert content == pre + Fence + (body + Fence + post);
    Text.SplitAtFirst(pre, Fence, body + Fence + post);
    Text.SplitAtFirst(body, Fence, post);
  }

  const JsonErrorPrefix := "Failed to parse LLM response as JSON: "
  const LlmErrorPrefix := "LLM extraction failed: "
  /** The TypeError of `"```json" in None` when the answer has no content. */
  const NoContentError := "argument of type 'NoneType' is not iterable"

  /**
   * `extract_with_llm`: the document text (`text`, as `extract_text` gives it), the completion
   * service (`complete`, given the model name, the prompt and the API key, answering with the
   * message content or None) and the JSON parser (`parse`). A parse error is reported as a JSON
   * failure; every other error, including the completion service's, as an LLM failure.
   */
  function ExtractWithLlm(text: Result<string>, docType: string, model: string, env: Env,
                          dumps: Value -> string,
                          complete: (string, string, Option<string>) -> Result<Option<string>>,
                          parse: string -> Result<Value>): (r: Result<Value>)
    ensures text.Raised? ==> r == Raised(LlmErrorPrefix + text.error)
    ensures r.Ok? ==> Sized(r.value)
    ensures text.Ok? ==>
      var args := CallArgsFor(model, env);
      var answer := complete(args.modelName, Prompt(text.value, docType, dumps), args.apiKey);
      (r.Ok? <==> answer.Ok? && answer.value.Some? && parse(StripFences(answer.value.value)).Ok?
                  && Sized(parse(StripFences(answer.value.value)).value))
      && (r.Ok? ==> r.value == parse(StripFences(answer.value.value)).value)
      && (r.Raised? && Text.StartsWith(r.error, JsonErrorPrefix) ==>
            answer.Ok? && answer.value.Some? && parse(StripFences(answer.value.value)).Raised?)
  {
    match text
    case Raised(e) => Raised(LlmErrorPrefix + e)
    case Ok(t) =>
      var args := CallArgsFor(model, env);
      match complete(args.modelName, Prompt(t, docType, dumps), args.apiKey)
      case Raised(e) => LlmError(e)
      case Ok(None) => LlmError(NoContentError)
      case Ok(Some(content)) =>
        match parse(StripFences(content))
        case Raised(e) => Raised(JsonErrorPrefix + e)
        case Ok(data) => if Sized(data) then Ok(data) else LlmError(NoLenError)
  }

  /** An LLM failure, which never reads as a JSON failure. */
  function LlmError(e: string): (r: Result<Value>)
    ensures r.Raised? && Text.StartsWith(r.error, LlmErrorPrefix) && !Text.StartsWith(r.error, JsonErrorPrefix)
  {
    var m := LlmErrorPrefix + e;
    assert m[..|LlmErrorPrefix|] == LlmErrorPrefix;
    assert m[0] == 'L' != JsonErrorPrefix[0];
    Raised(m)
  }

  /**
   * The document type `LLMExtractor.extract` infers from the file name: the first of
   * invitation, bid tab, award and item C that the lowercased name mentions.
   */
  function InferDocType(path: string): (r: string)
    ensures r in KnownTypes || r == "unknown"
    ensures r == "unknown" <==>
      var f := Classifier.FileName(path);
      !Classifier.Has(f, "invitation") && !Classifier.Has(f, "bid tab") && !Classifier.Has(f, "bidtab")
      && !Classifier.Has(f, "award") && !Classifier.Has(f, "item c") && !Classifier.Has(f, "itemc")
  {
    var f := Classifier.FileName(path);
    if Classifier.Has(f, "invitation") then "invitation_to_bid"
    else if Classifier.Has(f, "bid tab") || Classifier.Has(f, "bidtab") then "bid_tabs"
    else if Classifier.Has(f, "award") then "award_letter"
    else if Classifier.Has(f, "item c") || Classifier.Has(f, "itemc") then "item_c_report"
    else "unknown"
  }

  /**
   * Where the classifier recognises an invitation to bid, or a bid tabulation by one of the
   * spellings both know, the LLM extractor infers the same type.
   */
  lemma InferAgreesWithClassifier(path: string)
    ensures var f := Classifier.FileName(path);
      var c := Classifier.ClassifyByFilename(f);
      (c == Classifier.InvitationToBid ==> InferDocType(path) == c.Name())
      && (c == Classifier.BidTabs && (Classifier.Has(f, "bid tab") || Classifier.Has(f, "bidtab")) ==>
            InferDocType(path) == c.Name())
  {
    var f := Classifier.FileName(path);
    if Classifier.ClassifyByFilename(f) == Classifier.BidTabs {
      Classifier.BidTabsExcludesInvitation(f);
    }
  }

  /** The classifier's "bid_tab" spelling is not one the LLM extractor knows. */
  lemma InferMissesUnderscoreSpelling()
    ensures Classifier.ClassifyByFilename(Classifier.FileName("bid_tabs.pdf")) == Classifier.BidTabs
    ensures InferDocType("bid_tabs.pdf") == "unknown"
  {
    UnderscoreFileName();
    UnderscoreContains();
    UnderscoreAbsences();
  }

  lemma UnderscoreContains()
    ensures Text.Contains("bid_tabs.pdf", "bid_tab")
  {
    Text.PrefixContained("bid_tab", "s.pdf");
    assert "bid_tab" + "s.pdf" == "bid_tabs.pdf";
  }

  lemma UnderscoreFileName()
    ensures Classifier.FileName("bid_tabs.pdf") == "bid_tabs.pdf"
  {
    var f := "bid_tabs.pdf";
    assert forall i :: 0 <= i < |f| ==> f[i] != '/' && !('A' <= f[i] <= 'Z');
    Text.BasenamePlain(f);
    Text.LowerNoUpper(f);
  }

  lemma UnderscoreAbsences()
    ensures !Text.Contains("bid_tabs.pdf", "invitation") && !Text.Contains("bid_tabs.pdf", "bid tab")
    ensures !Text.Contains("bid_tabs.pdf", "bidtab") && !Text.Contains("bid_tabs.pdf", "award")
    ensures !Text.Contains("bid_tabs.pdf", "item c") && !Text.Contains("bid_tabs.pdf", "itemc")
  {
    UnderscoreLacks("invitation", 2);
    UnderscoreLacks("bid tab", 3);
    UnderscoreLacks("award", 1);
    UnderscoreLacks("item c", 2);
    UnderscoreLacks("itemc", 2);
    UnderscoreNoBidtab();
  }

  lemma UnderscoreLacks(sub: string, k: nat)
    requires k < |sub| && sub[k] in "vwe "
    ensures !Text.Contains("bid_tabs.pdf", sub)
  {
    var f := "bid_tabs.pdf";
    assert forall i :: 0 <= i < |f| ==> f[i] !in "vwe ";
    Text.AbsentChar(f, sub, k);
  }

  lemma UnderscoreNoBidtab()
    ensures !Text.Contains("bid_tabs.pdf", "bidtab")
  {
    var f := "bid_tabs.pdf";
    forall j | 0 <= j && j + 6 <= |f| ensures !Text.OccursAt(f, "bidtab", j) {
      assert f[j..j + 6][2] == f[j + 2] && f[j..j + 6][3] == f[j + 3];
    }
  }

  /** `extract_text`: a reader failure is re-raised; otherwise the pages joined. */
  function DocumentText(doc: BaseExtractor.Document): (r: Result<string>)
    ensures doc.Unreadable? ==> r == Raised(doc.reason)
    ensures doc.Pages? ==> r == BaseExtractor.JoinPages(doc.pages)
  {
    match doc
    case Unreadable(reason) => Raised(reason)
    case Pages(pages) => BaseExtractor.JoinPages(pages)
  }

  /** `LLMExtractor.run_extraction`: the envelope around `extract`, for the file at `path`. */
  function LlmRunExtraction(path: string, doc: BaseExtractor.Document, model: string, env: Env,
                            processingTime: real, dumps: Value -> string,
                            complete: (string, string, Option<string>) -> Result<Option<string>>,
                            parse: string -> Result<Value>): (r: Fields)
    ensures Get(r, "metadata").Some? && Get(r, "metadata").value.Obj?
    ensures GetOrNull(r, "status") == Str("success") ==> Sized(GetOrNull(r, "data"))
  {
    var extracted := ExtractWithLlm(DocumentText(doc), InferDocType(path), model, env, dumps, complete, parse);
    BaseExtractor.RunExtraction(path, "LLMExtractor", extracted, doc, processingTime)
  }

  // ---------------------------------------------------------------------------------------
  // The hybrid extractor
  // ---------------------------------------------------------------------------------------

  /** The metadata dict of a result, when it has one. */
  function MetaFields(r: Fields): Option<Fields> {
    match Get(r, "metadata")
    case Some(Obj(m)) => Some(m)
    case _ => None
  }

  /** The error of `result["metadata"][k] = v` when there is no metadata dict. */
  function MetaError(r: Fields): string {
    if HasKey(r, "metadata") then "object does not support item assignment" else "'metadata'"
  }

  /** `result["metadata"][k] = v` for each entry in turn. */
  function SetMeta(r: Fields, entries: Fields): (res: Result<Fields>)
    ensures res.Ok? <==> MetaFields(r).Some?
    ensures res.Ok? ==> MetaFields(res.value) == Some(PutAll(MetaFields(r).value, entries))
    ensures res.Ok? ==> forall k :: k != "metadata" ==> Get(res.value, k) == Get(r, k)
  {
    match MetaFields(r)
    case None => Raised(MetaError(r))
    case Some(m) =>
      var out := Put(r, "metadata", Obj(PutAll(m, entries)));
      PutGet(r, "metadata", Obj(PutAll(m, entries)), "metadata");
      assert forall k :: k != "metadata" ==> Get(out, k) == Get(r, k) by {
        forall k | k != "metadata" ensures Get(out, k) == Get(r, k) {
          PutGet(r, "metadata", Obj(PutAll(m, entries)), k);
        }
      }
      Ok(out)
  }

  /** What `HybridExtractor.extract` returns (or raises), and the environment it leaves. */
  datatype HybridOutcome = HybridOutcome(result: Result<Fields>, env: Env)

  /**
   * The traditional result's confidence: computed only for a success, and possibly raising
   * (KeyError for a missing "data", or the score's own error).
   */
  function TraditionalConfidence(trad: Fields): (r: Option<Result<real>>)
    ensures r.Some? <==> GetOrNull(trad, "status") == Str("success")
    ensures r.Some? && HasKey(trad, "data") ==> r.value == BaseExtractor.ConfidenceScore(GetOrNull(trad, "data"))
  {
    if GetOrNull(trad, "status") != Str("success") then None
    else match Get(trad, "data")
      case None => Some(Raised("'data'"))
      case Some(d) => Some(BaseExtractor.ConfidenceScore(d))
  }

  /**
   * `HybridExtractor.extract`. `trad` is the traditional extractor's `run_extraction` result;
   * `llmRun` is the LLM extractor's `run_extraction` under a given environment. A missing
   * "status" raises KeyError, as does an error computing the confidence; any error while
   * constructing or running the LLM extractor, or while labelling its result, falls back to the
   * traditional result.
   */
  function Hybrid(trad: Fields, threshold: real, model: string, apiKey: Option<string>, env: Env,
                  llmRun: Env -> Fields): (r: HybridOutcome)
    ensures r.env == env || r.env == Configure(model, apiKey, env).env
    ensures !HasKey(trad, "status") ==> r == HybridOutcome(Raised("'status'"), env)
  {
    if !HasKey(trad, "status") then HybridOutcome(Raised("'status'"), env)
    else
      var conf := TraditionalConfidence(trad);
      if conf.Some? && conf.value.Raised? then HybridOutcome(Raised(conf.value.error), env)
      else if conf.Some? && conf.value.value >= threshold then HybridOutcome(LabelTraditional(trad, conf.value.value), env)
      else Fallback(trad, conf, model, apiKey, env, llmRun)
  }

  /**
   * The fallback branch: construct the LLM extractor (which may install the key and may raise),
   * run it and label its result; on any error the traditional result is marked instead.
   */
  function Fallback(trad: Fields, conf: Option<Result<real>>, model: string, apiKey: Option<string>, env: Env,
                    llmRun: Env -> Fields): (r: HybridOutcome)
    requires conf.Some? ==> conf.value.Ok?
    ensures r.env == Configure(model, apiKey, env).env
    ensures MetaFields(trad).Some? ==> r.result.Ok?
  {
    var c := Configure(model, apiKey, env);
    var labelled := if c.error.None? then LabelFallback(llmRun(c.env), conf) else Raised(c.error.value);
    if labelled.Ok? then HybridOutcome(labelled, c.env)
    else HybridOutcome(SetMeta(trad, [("llm_fallback_failed", Bool(true))]), c.env)
  }

  /** The LLM result labelled as a fallback, with the traditional confidence (0.0 when none was computed). */
  function LabelFallback(llm: Fields, conf: Option<Result<real>>): (r: Result<Fields>)
    requires conf.Some? ==> conf.value.Ok?
    ensures r == SetMeta(llm, [("method_used", Str("llm_fallback")),
                               ("traditional_confidence", Num(if conf.Some? then conf.value.value else 0.0))])
  {
    SetMeta(llm, [("method_used", Str("llm_fallback")),
                  ("traditional_confidence", Num(if conf.Some? then conf.value.value else 0.0))])
  }

  /** A metadata entry after `SetMeta` with distinct keys. */
  lemma SetMetaGet(r: Fields, entries: Fields, k: string)
    requires SetMeta(r, entries).Ok? && DistinctKeys(entries) && HasKey(entries, k)
    ensures Get(MetaFields(SetMeta(r, entries).value).value, k) == Get(entries, k)
  {
    PutAllGet(MetaFields(r).value, entries, k);
  }

  /**
   * A successful traditional extraction whose confidence reaches the threshold is returned
   * unchanged apart from its metadata, which records the confidence and the traditional method;
   * the LLM is not consulted and the environment is untouched.
   */
  lemma HybridKeepsConfidentTraditional(trad: Fields, threshold: real, model: string, apiKey: Option<string>,
                                        env: Env, llmRun: Env -> Fields, c: real)
    requires TraditionalConfidence(trad) == Some(Ok(c)) && c >= threshold
    requires MetaFields(trad).Some?
    ensures var r := Hybrid(trad, threshold, model, apiKey, env, llmRun);
      r.env == env && r.result.Ok? && MetaFields(r.result.value).Some?
      && (forall k :: k != "metadata" ==> Get(r.result.value, k) == Get(trad, k))
      && Get(MetaFields(r.result.value).value, "confidence") == Some(Num(c))
      && Get(MetaFields(r.result.value).value, "method_used") == Some(Str("traditional"))
  {
    assert HasKey(trad, "status");
    assert Hybrid(trad, threshold, model, apiKey, env, llmRun) == HybridOutcome(LabelTraditional(trad, c), env);
    LabelTraditionalFacts(trad, c);
  }

  function LabelTraditional(trad: Fields, c: real): Result<Fields> {
    SetMeta(trad, [("confidence", Num(c)), ("method_used", Str("traditional"))])
  }

  lemma LabelTraditionalFacts(trad: Fields, c: real)
    requires MetaFields(trad).Some?
    ensures var r := LabelTraditional(trad, c);
      r.Ok? && MetaFields(r.value).Some?
      && (forall k :: k != "metadata" ==> Get(r.value, k) == Get(trad, k))
      && Get(MetaFields(r.value).value, "confidence") == Some(Num(c))
      && Get(MetaFields(r.value).value, "method_used") == Some(Str("traditional"))
  {
    var entries := [("confidence", Num(c)), ("method_used", Str("traditional"))];
    GetPair(entries);
    SetMetaGet(trad, entries, "confidence");
    SetMetaGet(trad, entries, "method_used");
  }

  /**
   * When the traditional result is not accepted and the LLM extractor can be configured, the
   * result is the LLM extractor's, labelled as a fallback with the traditional confidence (0.0
   * when the traditional extraction did not succeed); the environment is the configured one.
   */
  lemma HybridFallsBackToLlm(trad: Fields, threshold: real, model: string, apiKey: Option<string>,
                             env: Env, llmRun: Env -> Fields)
    requires HasKey(trad, "status")
    requires var conf := TraditionalConfidence(trad); conf.Some? ==> conf.value.Ok? && conf.value.value < threshold
    requires Configure(model, apiKey, env).error.None?
    requires MetaFields(llmRun(Configure(model, apiKey, env).env)).Some?
    ensures var r := Hybrid(trad, threshold, model, apiKey, env, llmRun);
      var llm := llmRun(Configure(model, apiKey, env).env);
      var conf := TraditionalConfidence(trad);
      r.env == Configure(model, apiKey, env).env && r.result.Ok?
      && (forall k :: k != "metadata" ==> Get(r.result.value, k) == Get(llm, k))
      && Get(MetaFields(r.result.value).value, "method_used") == Some(Str("llm_fallback"))
      && Get(MetaFields(r.result.value).value, "traditional_confidence") ==
           Some(Num(if conf.Some? then conf.value.value else 0.0))
  {
    var conf := TraditionalConfidence(trad);
    var entries := [("method_used", Str("llm_fallback")),
                    ("traditional_confidence", Num(if conf.Some? then conf.value.value else 0.0))];
    var llm := llmRun(Configure(model, apiKey, env).env);
    assert Hybrid(trad, threshold, model, apiKey, env, llmRun) == Fallback(trad, conf, model, apiKey, env, llmRun);
    assert Fallback(trad, conf, model, apiKey, env, llmRun).result == SetMeta(llm, entries);
    GetPair(entries);
    SetMetaGet(llm, entries, "method_used");
    SetMetaGet(llm, entries, "traditional_confidence");
  }

  /**
   * When the traditional result is not accepted and the LLM extractor cannot be configured, the
   * traditional result comes back marked as a failed fallback.
   */
  lemma HybridReportsFailedFallback(trad: Fields, threshold: real, model: string, apiKey: Option<string>,
                                    env: Env, llmRun: Env -> Fields)
    requires HasKey(trad, "status")
    requires var conf := TraditionalConfidence(trad); conf.Some? ==> conf.value.Ok? && conf.value.value < threshold
    requires Configure(model, apiKey, env).error.Some?
    requires MetaFields(trad).Some?
    ensures var r := Hybrid(trad, threshold, model, apiKey, env, llmRun);
      r.result.Ok?
      && (forall k :: k != "metadata" ==> Get(r.result.value, k) == Get(trad, k))
      && Get(MetaFields(r.result.value).value, "llm_fallback_failed") == Some(Bool(true))
  {
    var entries := [("llm_fallback_failed", Bool(true))];
    GetAt(entries, 0);
    SetMetaGet(trad, entries, "llm_fallback_failed");
  }

  /** The hybrid extractor raises only for a traditional result without a status, or when its confidence cannot be computed. */
  lemma HybridRaisesOnlyOnTraditionalErrors(trad: Fields, threshold: real, model: string, apiKey: Option<string>,
                                            env: Env, llmRun: Env -> Fields)
    requires MetaFields(trad).Some?
    ensures Hybrid(trad, threshold, model, apiKey, env, llmRun).result.Raised? <==>
      !HasKey(trad, "status") || (TraditionalConfidence(trad).Some? && TraditionalConfidence(trad).value.Raised?)
  {
  }

  /** A result of `run_extraction` carries a status and a metadata dict, as the hybrid extractor expects. */
  lemma RunExtractionIsEnvelope(filePath: string, extractionMethod: string, extracted: Result<Value>,
                                doc: BaseExtractor.Document, processingTime: real)
    ensures var r := BaseExtractor.RunExtraction(filePath, extractionMethod, extracted, doc, processingTime);
      HasKey(r, "status") && MetaFields(r).Some?
      && (GetOrNull(r, "status") == Str("success") ==> HasKey(r, "data"))
  {
    var r := BaseExtractor.RunExtraction(filePath, extractionMethod, extracted, doc, processingTime);
    EnvelopeShape(r);
  }

  lemma EnvelopeShape(r: Fields)
    requires GetOrNull(r, "status").Str?
    requires Get(r, "metadata").Some? && Get(r, "metadata").value.Obj?
    requires GetOrNull(r, "status") == Str("success") ==> Get(r, "data").Some?
    ensures HasKey(r, "status") && MetaFields(r).Some?
    ensures GetOrNull(r, "status") == Str("success") ==> HasKey(r, "data")
  {
  }
}
