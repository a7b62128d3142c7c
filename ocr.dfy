/**
 * The OCR processor: its configuration from constructor arguments and the environment, and the
 * result table of `run`. Whether the `ocrmypdf` tool is on the PATH and what the subprocess does
 * are inputs: the subprocess either completes (after some duration, leaving the output file),
 * times out, or raises.
 */
module Ocr {
  import opened Wrappers
  import opened Values
  import Text
  import opened Environment

  const EnabledVar := "OCR_ENABLED"
  const TimeoutVar := "OCR_TIMEOUT_SECONDS"
  const DefaultTimeout := 300
  const OcrMethod := "ocrmypdf"
  const NotAvailableError := "ocrmypdf_not_available"
  const TimeoutError := "timeout"

  /** The spellings of OCR_ENABLED that switch OCR on, after stripping and lowercasing. */
  const EnabledSpellings := {"1", "true", "yes", "y"}

  /** OCR_ENABLED as the constructor reads it: unset means "true". */
  predicate EnvEnabled(env: Env) {
    Text.Lower(Text.Strip(GetenvOr(env, EnabledVar, "true"))) in EnabledSpellings
  }

  /** An OCR_TIMEOUT_SECONDS value that overrides the argument: non-empty and all digits once stripped. */
  predicate TimeoutOverride(env: Env) {
    TimeoutVar in env && Text.IsDigitString(Text.Strip(env[TimeoutVar]))
  }

  /** The `enabled` field: the explicit argument when given, otherwise the environment's verdict. */
  function ResolveEnabled(enabled: Option<bool>, env: Env): (r: bool)
    ensures enabled.Some? ==> r == enabled.value
    ensures enabled.None? ==> r == EnvEnabled(env)
  {
    match enabled
    case Some(b) => b
    case None => EnvEnabled(env)
  }

  /** The `timeout_seconds` field: a digit-only OCR_TIMEOUT_SECONDS wins over the argument. */
  function ResolveTimeout(timeoutSeconds: int, env: Env): (r: int)
    ensures TimeoutOverride(env) ==> r >= 0 && r == Text.DigitsValue(Text.Strip(env[TimeoutVar]))
    ensures !TimeoutOverride(env) ==> r == timeoutSeconds
  {
    if TimeoutOverride(env) then Text.DigitsValue(Text.Strip(env[TimeoutVar])) else timeoutSeconds
  }

  /** What the OCR subprocess does once started. */
  datatype Outcome =
    | Completed(outputPath: string, duration: real)
    | TimedOut
    | Failed(message: string)

  /** The output PDF, if OCR was applied, and the metadata dict. */
  datatype RunResult = RunResult(path: Option<string>, meta: Fields)

  /** `OCRProcessor`: configured once by the constructor. */
  class OcrProcessor {
    const enabled: bool
    const timeoutSeconds: int
    const toolName: string

    /** `__init__(enabled, timeout_seconds)` in the environment `env`; the default timeout is 300. */
    constructor (enabledArg: Option<bool>, timeoutArg: int, env: Env)
      ensures enabled == ResolveEnabled(enabledArg, env)
      ensures timeoutSeconds == ResolveTimeout(timeoutArg, env)
      ensures toolName == OcrMethod
    {
      enabled := ResolveEnabled(enabledArg, env);
      timeoutSeconds := ResolveTimeout(timeoutArg, env);
      toolName := OcrMethod;
    }

    /** `run`: `available` is whether the tool is on the PATH, `outcome` what the subprocess did. */
    function Run(available: bool, outcome: Outcome): (r: RunResult)
      ensures r.path.Some? <==> enabled && available && outcome.Completed?
      ensures r.path.Some? ==> r.path.value == outcome.outputPath
    {
      RunTable(enabled, toolName, available, outcome)
    }
  }

  /** The result table of `run`, for a processor with the given `enabled` flag and method. */
  function RunTable(enabled: bool, tool: string, available: bool, outcome: Outcome): (r: RunResult)
    ensures r.path.Some? <==> enabled && available && outcome.Completed?
    ensures r.path.Some? ==> r.path.value == outcome.outputPath
  {
    if !enabled then RunResult(None, [("ocr_attempted", Bool(false)), ("ocr_enabled", Bool(false))])
    else if !available then RunResult(None, NotApplied(tool, NotAvailableError))
    else match outcome
      case Completed(path, duration) =>
        RunResult(Some(path), CompletedMeta(tool, duration))
      case TimedOut => RunResult(None, NotApplied(tool, TimeoutError))
      case Failed(message) => RunResult(None, NotApplied(tool, message))
  }

  /** The metadata of a successful run. */
  function CompletedMeta(tool: string, duration: real): Fields {
    [("ocr_attempted", Bool(true)), ("ocr_enabled", Bool(true)), ("ocr_applied", Bool(true)),
     ("ocr_method", Str(tool)), ("ocr_duration_seconds", Num(duration))]
  }

  /** The metadata of an attempt that did not produce a file. */
  function NotApplied(tool: string, error: string): Fields {
    [("ocr_attempted", Bool(true)), ("ocr_enabled", Bool(true)), ("ocr_applied", Bool(false)),
     ("ocr_method", Str(tool)), ("ocr_error", Str(error))]
  }

  /** A disabled processor reports that nothing was attempted, whatever the tool and the subprocess would do. */
  lemma DisabledAttemptsNothing(tool: string, available: bool, outcome: Outcome)
    ensures var r := RunTable(false, tool, available, outcome);
      r.path.None? && GetOrNull(r.meta, "ocr_attempted") == Bool(false)
      && GetOrNull(r.meta, "ocr_enabled") == Bool(false) && !HasKey(r.meta, "ocr_applied")
  {
    var m := RunTable(false, tool, available, outcome).meta;
    GetAt(m, 0);
    GetAt(m, 1);
    NotKey(m, "ocr_applied");
  }

  /**
   * Every enabled run is an attempt; the file is there exactly when `ocr_applied` is true; a
   * success records its duration and a non-success its error: "ocrmypdf_not_available" for a
   * missing tool, "timeout" for a timeout, the exception text otherwise.
   */
  lemma EnabledRunOutcomes(tool: string, available: bool, outcome: Outcome)
    ensures var r := RunTable(true, tool, available, outcome);
      GetOrNull(r.meta, "ocr_attempted") == Bool(true) && GetOrNull(r.meta, "ocr_enabled") == Bool(true)
      && GetOrNull(r.meta, "ocr_method") == Str(tool)
      && (GetOrNull(r.meta, "ocr_applied") == Bool(true) <==> r.path.Some?)
      && (r.path.Some? ==> GetOrNull(r.meta, "ocr_duration_seconds") == Num(outcome.duration) && !HasKey(r.meta, "ocr_error"))
      && (r.path.None? ==>
            GetOrNull(r.meta, "ocr_applied") == Bool(false)
            && GetOrNull(r.meta, "ocr_error") ==
                 Str(if !available then NotAvailableError else if outcome.TimedOut? then TimeoutError else outcome.message))
  {
    if !available {
      NotAppliedFacts(tool, NotAvailableError);
    } else {
      match outcome
      case Completed(path, duration) => CompletedFacts(tool, duration);
      case TimedOut => NotAppliedFacts(tool, TimeoutError);
      case Failed(message) => NotAppliedFacts(tool, message);
    }
  }

  lemma NotAppliedFacts(tool: string, error: string)
    ensures var m := NotApplied(tool, error);
      GetOrNull(m, "ocr_attempted") == Bool(true) && GetOrNull(m, "ocr_enabled") == Bool(true)
      && GetOrNull(m, "ocr_applied") == Bool(false) && GetOrNull(m, "ocr_method") == Str(tool)
      && GetOrNull(m, "ocr_error") == Str(error)
  {
    NotAppliedAt(tool, error, 0);
    NotAppliedAt(tool, error, 1);
    NotAppliedAt(tool, error, 2);
    NotAppliedAt(tool, error, 3);
    NotAppliedAt(tool, error, 4);
  }

  lemma NotAppliedAt(tool: string, error: string, i: nat)
    requires i < 5
    ensures Get(NotApplied(tool, error), NotApplied(tool, error)[i].0) == Some(NotApplied(tool, error)[i].1)
  {
    GetAt(NotApplied(tool, error), i);
  }

  lemma CompletedAt(tool: string, duration: real, i: nat)
    requires i < 5
    ensures var m := CompletedMeta(tool, duration); Get(m, m[i].0) == Some(m[i].1)
  {
    GetAt(CompletedMeta(tool, duration), i);
  }

  lemma CompletedFacts(tool: string, duration: real)
    ensures var m := CompletedMeta(tool, duration);
      GetOrNull(m, "ocr_attempted") == Bool(true) && GetOrNull(m, "ocr_enabled") == Bool(true)
      && GetOrNull(m, "ocr_applied") == Bool(true) && GetOrNull(m, "ocr_method") == Str(tool)
      && GetOrNull(m, "ocr_duration_seconds") == Num(duration) && !HasKey(m, "ocr_error")
  {
    CompletedAt(tool, duration, 0);
    CompletedAt(tool, duration, 1);
    CompletedAt(tool, duration, 2);
    CompletedAt(tool, duration, 3);
    CompletedAt(tool, duration, 4);
    NotKey(CompletedMeta(tool, duration), "ocr_error");
  }

  /** With OCR_ENABLED unset, OCR is on; set to blank, it is off. */
  lemma EnabledDefault(env: Env)
    ensures EnabledVar !in env ==> EnvEnabled(env)
    ensures EnabledVar in env && Text.IsBlank(env[EnabledVar]) ==> !EnvEnabled(env)
  {
    Text.StripNoSpace("true");
    assert Text.Lower("true") == "true";
  }

  /** With no environment overrides, a constructor without arguments gives an enabled processor with a 300 s timeout. */
  lemma DefaultConfiguration()
    ensures ResolveEnabled(None, map[]) && ResolveTimeout(DefaultTimeout, map[]) == 300
  {
    EnabledDefault(map[]);
  }

  /** "Y" switches OCR on from the environment. */
  lemma UpperYEnables()
    ensures ResolveEnabled(None, map[EnabledVar := "Y"])
  {
    SpellingEnables("Y", "y");
  }

  /** "1" switches OCR on from the environment. */
  lemma OneEnables()
    ensures ResolveEnabled(None, map[EnabledVar := "1"])
  {
    SpellingEnables("1", "1");
  }

  /** "no" switches OCR off from the environment. */
  lemma NoDisables()
    ensures !ResolveEnabled(None, map[EnabledVar := "no"])
  {
    SpellingEnables("no", "no");
  }

  lemma SpellingEnables(value: string, lowered: string)
    requires forall i :: 0 <= i < |value| ==> !Text.IsSpace(value[i])
    requires Text.Lower(value) == lowered
    ensures EnvEnabled(map[EnabledVar := value]) <==> lowered in EnabledSpellings
  {
    Text.StripNoSpace(value);
  }

  /** A digit-only timeout overrides the argument; a non-numeric one is ignored. */
  lemma TimeoutExamples(timeoutSeconds: int)
    ensures ResolveTimeout(timeoutSeconds, map[TimeoutVar := "60"]) == 60
    ensures ResolveTimeout(timeoutSeconds, map[TimeoutVar := "1m"]) == timeoutSeconds
    ensures ResolveTimeout(timeoutSeconds, map[TimeoutVar := "-5"]) == timeoutSeconds
  {
    Text.StripNoSpace("60");
    Text.StripNoSpace("1m");
    Text.StripNoSpace("-5");
    assert Text.DigitsValue("60") == 60 by {
      assert "60"[..1] == "6";
      assert Text.DigitsValue("6") == 6 by {
        assert "6"[..0] == "";
      }
    }
    assert !Text.IsDigit("1m"[1]) && !Text.IsDigit("-5"[0]);
  }
}
