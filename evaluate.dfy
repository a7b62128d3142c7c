/**
 * The evaluation script that compares traditional extraction with LLM extraction: the
 * completeness of an extracted dict, the field-by-field comparison of two dicts, the per-file
 * evaluation with its document-type gate, the directory run and the summary statistics.
 *
 * Running an extractor is abstract: it gives the result envelope and the seconds it took, or the
 * exception its construction or run raised. Rounding to three places is not modelled: ratios and
 * times are exact reals.
 */
module Evaluate {
  import opened Wrappers
  import opened Values
  import Text
  import Classifier
  import BaseExtractor

  // ---------------------------------------------------------------------------------------------
  // calculate_completeness

  /** A value `calculate_completeness` counts: not None, "", [] or {} (so 0 and False count). */
  predicate Filled(v: Value) {
    v != Null && v != Str("") && v != List([]) && v != Obj([])
  }

  function CountFilled(vs: seq<Value>): (r: nat)
    ensures r <= |vs|
    ensures r == 0 <==> forall i :: 0 <= i < |vs| ==> !Filled(vs[i])
    ensures r == |vs| <==> forall i :: 0 <= i < |vs| ==> Filled(vs[i])
    decreases |vs|
  {
    if vs == [] then 0
    else
      var rest := CountFilled(vs[1..]);
      assert forall i :: 1 <= i < |vs| ==> vs[1..][i - 1] == vs[i];
      (if Filled(vs[0]) then 1 else 0) + rest
  }

  /** Replacing one value changes the filled count by what the old value took away and the new one adds. */
  lemma {:induction false} CountFilledUpdate(vs: seq<Value>, i: nat, v: Value)
    requires i < |vs|
    ensures CountFilled(vs[i := v]) + (if Filled(vs[i]) then 1 else 0)
         == CountFilled(vs) + (if Filled(v) then 1 else 0)
    decreases |vs|
  {
    if i == 0 {
      assert vs[i := v][1..] == vs[1..];
    } else {
      assert vs[i := v][1..] == vs[1..][i - 1 := v];
      CountFilledUpdate(vs[1..], i - 1, v);
    }
  }

  /**
   * `calculate_completeness`: 0.0 for empty or None data, otherwise the fraction of the dict's
   * values that are filled. Truthy data that is not a dict raises: a number or True at `len()`,
   * a string or a list at `values()`.
   */
  function Completeness(data: Value): (r: Result<real>)
    ensures r.Raised? <==> Truthy(data) && !data.Obj?
    ensures Truthy(data) && !Sized(data) ==> r == Raised(NoLenError)
    ensures Truthy(data) && Sized(data) && !data.Obj? ==> r == Raised(NoValuesError)
    ensures r.Ok? ==> 0.0 <= r.value <= 1.0
    ensures !Truthy(data) ==> r == Ok(0.0)
    ensures data.Obj? && data.fields != [] ==>
      (r == Ok(1.0) <==> forall i :: 0 <= i < |data.fields| ==> Filled(data.fields[i].1))
    ensures data.Obj? ==>
      (r == Ok(0.0) <==> forall i :: 0 <= i < |data.fields| ==> !Filled(data.fields[i].1))
    ensures data.Obj? && data.fields != [] ==>
      r == Ok(CountFilled(ValuesOf(data.fields)) as real / |data.fields| as real)
  {
    if !Truthy(data) then Ok(0.0)
    else if data.Obj? then
      var filled := CountFilled(ValuesOf(data.fields));
      BaseExtractor.RatioBounds(filled, |data.fields|);
      Ok(filled as real / |data.fields| as real)
    else if !Sized(data) then Raised(NoLenError)
    else Raised(NoValuesError)
  }

  /** Zero and False count as filled although they are falsy. */
  lemma FalsyButFilled(k: string, j: string)
    ensures Completeness(Obj([(k, Num(0.0)), (j, Bool(false))])) == Ok(1.0)
  {
    var f := [(k, Num(0.0)), (j, Bool(false))];
    assert ValuesOf(f) == [Num(0.0), Bool(false)];
  }

  // ---------------------------------------------------------------------------------------------
  // compare_extractions

  /** The elements of `s`, each once, in the order of their first occurrence. */
  function Dedup(s: seq<string>): (r: seq<string>)
    ensures forall x :: x in r <==> x in s
    ensures forall i, j :: 0 <= i < j < |r| ==> r[i] != r[j]
    decreases |s|
  {
    if s == [] then []
    else
      var p := Dedup(s[..|s| - 1]);
      assert forall x :: x in s <==> x in s[..|s| - 1] || x == s[|s| - 1];
      if s[|s| - 1] in p then p else p + [s[|s| - 1]]
  }

  /** A sequence without repeats has as many elements as its set. */
  lemma {:induction false} DistinctCard(s: seq<string>)
    requires forall i, j :: 0 <= i < j < |s| ==> s[i] != s[j]
    ensures |set x | x in s| == |s|
    decreases |s|
  {
    if s != [] {
      var p := s[..|s| - 1];
      DistinctCard(p);
      assert (set x | x in s) == (set x | x in p) + {s[|s| - 1]};
      assert s[|s| - 1] !in p;
    }
  }

  /** The keys of a dict, as a set. */
  function KeySet(f: Fields): set<string> {
    set k | k in Keys(f)
  }

  /** `set(trad_data.keys()) | set(llm_data.keys())`, as a sequence without repeats; the counts do not depend on its order. */
  function AllKeys(a: Fields, b: Fields): (r: seq<string>)
    ensures forall k :: k in r <==> HasKey(a, k) || HasKey(b, k)
    ensures |r| == |KeySet(a) + KeySet(b)|
  {
    var r := Dedup(Keys(a) + Keys(b));
    DistinctCard(r);
    assert (set x | x in r) == KeySet(a) + KeySet(b);
    r
  }

  datatype Verdict = NotBoth | Same | Different

  /** `str(trad_val).strip() == str(llm_val).strip()` */
  predicate SameText(x: Value, y: Value, numText: real -> string) {
    Text.Strip(ToStr(x, numText)) == Text.Strip(ToStr(y, numText))
  }

  /** A key counts only when both values are truthy; then it matches when their stripped `str()` texts are equal. */
  function VerdictOf(a: Fields, b: Fields, k: string, numText: real -> string): (r: Verdict)
    ensures r != NotBoth <==> Truthy(GetOrNull(a, k)) && Truthy(GetOrNull(b, k))
  {
    var x, y := GetOrNull(a, k), GetOrNull(b, k);
    if !(Truthy(x) && Truthy(y)) then NotBoth
    else if SameText(x, y, numText) then Same
    else Different
  }

  /** A counted key matches exactly when the stripped `str()` texts of its two values are equal. */
  lemma VerdictSame(a: Fields, b: Fields, k: string, numText: real -> string)
    ensures var x, y := GetOrNull(a, k), GetOrNull(b, k);
      && (VerdictOf(a, b, k, numText) == Same <==> Truthy(x) && Truthy(y) && SameText(x, y, numText))
      && (VerdictOf(a, b, k, numText) == Different <==> Truthy(x) && Truthy(y) && !SameText(x, y, numText))
  {
  }

  function Verdicts(a: Fields, b: Fields, keys: seq<string>, numText: real -> string): (r: seq<Verdict>)
    ensures |r| == |keys|
  {
    seq(|keys|, i requires 0 <= i < |keys| => VerdictOf(a, b, keys[i], numText))
  }

  /** How many of the verdicts are `v`. */
  function Count(vs: seq<Verdict>, v: Verdict): (r: nat)
    ensures r <= |vs|
    decreases |vs|
  {
    if vs == [] then 0 else Count(vs[..|vs| - 1], v) + (if vs[|vs| - 1] == v then 1 else 0)
  }

  lemma CountStep(vs: seq<Verdict>, i: nat)
    requires i < |vs|
    ensures forall v :: Count(vs[..i + 1], v) == Count(vs[..i], v) + (if vs[i] == v then 1 else 0)
  {
    assert vs[..i + 1][..i] == vs[..i];
  }

  /** Every verdict is one of the three. */
  lemma {:induction false} CountsAddUp(vs: seq<Verdict>)
    ensures Count(vs, Same) + Count(vs, Different) + Count(vs, NotBoth) == |vs|
    decreases |vs|
  {
    if vs != [] {
      CountsAddUp(vs[..|vs| - 1]);
    }
  }

  datatype Comparison = Comparison(
    traditionalCompleteness: real, llmCompleteness: real, completenessImprovement: real,
    matchingFields: nat, differingFields: nat, totalFields: nat)

  /**
   * Replacing an empty value (None, "", [] or {}) of a dict never lowers its completeness, and
   * filling it raises the completeness strictly.
   */
  lemma CompletenessMonotone(f: Fields, i: nat, v: Value)
    requires i < |f| && !Filled(f[i].1)
    ensures Completeness(Obj(f)).Ok? && Completeness(Obj(f[i := (f[i].0, v)])).Ok?
    ensures Completeness(Obj(f)).value <= Completeness(Obj(f[i := (f[i].0, v)])).value
    ensures Filled(v) ==> Completeness(Obj(f)).value < Completeness(Obj(f[i := (f[i].0, v)])).value
  {
    var g := f[i := (f[i].0, v)];
    assert ValuesOf(g) == ValuesOf(f)[i := v];
    CountFilledUpdate(ValuesOf(f), i, v);
    BaseExtractor.RatioStep(CountFilled(ValuesOf(f)), CountFilled(ValuesOf(g)), |f|);
  }

  /** The dict's completeness; a dict never raises. */
  function DictCompleteness(f: Fields): (r: real)
    ensures Completeness(Obj(f)) == Ok(r)
    ensures 0.0 <= r <= 1.0
  {
    var c := Completeness(Obj(f));
    c.value
  }

  /** `compare_extractions`, as the function its loop computes. */
  function ComparisonOf(a: Fields, b: Fields, numText: real -> string): Comparison {
    var vs := Verdicts(a, b, AllKeys(a, b), numText);
    Comparison(DictCompleteness(a), DictCompleteness(b), DictCompleteness(b) - DictCompleteness(a),
      Count(vs, Same), Count(vs, Different), |AllKeys(a, b)|)
  }

  /**
   * The counts of a comparison: matching and differing keys together are the keys both dicts
   * fill truthily, never more than the keys of either dict; the improvement is the difference of
   * the two completenesses, in [-1, 1].
   */
  lemma ComparisonBounds(a: Fields, b: Fields, numText: real -> string)
    ensures var c := ComparisonOf(a, b, numText);
      && c.matchingFields + c.differingFields <= c.totalFields
      && c.totalFields == |KeySet(a) + KeySet(b)|
      && c.completenessImprovement == c.llmCompleteness - c.traditionalCompleteness
      && -1.0 <= c.completenessImprovement <= 1.0
  {
    CountsAddUp(Verdicts(a, b, AllKeys(a, b), numText));
  }

  /** A key only one of the dicts has, or fills, never counts. */
  lemma OneSidedKeyNeverCounts(a: Fields, b: Fields, k: string, numText: real -> string)
    requires !HasKey(b, k)
    ensures VerdictOf(a, b, k, numText) == NotBoth
  {
  }

  /** The `for key in all_keys` loop: how many keys match and how many differ. */
  method CountKeys(a: Fields, b: Fields, keys: seq<string>, numText: real -> string) returns (matching: nat, differing: nat)
    ensures matching == Count(Verdicts(a, b, keys, numText), Same)
    ensures differing == Count(Verdicts(a, b, keys, numText), Different)
  {
    ghost var vs := Verdicts(a, b, keys, numText);
    matching, differing := 0, 0;
    for i := 0 to |keys|
      invariant matching == Count(vs[..i], Same) && differing == Count(vs[..i], Different)
    {
      CountStep(vs, i);
      var x, y := GetOrNull(a, keys[i]), GetOrNull(b, keys[i]);
      assert vs[i] == VerdictOf(a, b, keys[i], numText);
      if Truthy(x) && Truthy(y) {
        if SameText(x, y, numText) {
          matching := matching + 1;
        } else {
          differing := differing + 1;
        }
      }
    }
    assert vs[..|keys|] == vs;
  }

  /** `compare_extractions`. */
  method CompareExtractions(a: Fields, b: Fields, numText: real -> string) returns (r: Comparison)
    ensures r == ComparisonOf(a, b, numText)
  {
    var keys := AllKeys(a, b);
    var matching, differing := CountKeys(a, b, keys, numText);
    r := Comparison(DictCompleteness(a), DictCompleteness(b), DictCompleteness(b) - DictCompleteness(a),
      matching, differing, |keys|);
  }

  // ---------------------------------------------------------------------------------------------
  // get_traditional_extractor and evaluate_file

  /** `get_traditional_extractor`: four document types have a traditional extractor here. */
  function TraditionalExtractor(t: Classifier.DocumentType): (r: Option<Classifier.Extractor>)
    ensures r.Some? ==> r == Classifier.GetExtractorClass(t)
    ensures r.None? <==> t.BidSummary? || t.BidsAsRead? || t.Unknown?
  {
    match t
    case InvitationToBid => Some(Classifier.InvitationToBidExtractor)
    case BidTabs => Some(Classifier.BidTabsExtractor)
    case AwardLetter => Some(Classifier.AwardLetterExtractor)
    case ItemCReport => Some(Classifier.ItemCExtractor)
    case _ => None
  }

  /** What constructing and running an extractor gives: its envelope and seconds taken, or the exception raised. */
  type Run = Result<(Fields, real)>

  /** One side of a file's evaluation. Only a run has a processing time and a completeness. */
  datatype Side =
    | NotSupported
    | Errored(error: string)
    | Ran(status: Value, data: Value, processingTime: real, completeness: real, model: Option<string>)
  {
    /** The side's `data`: `{}` unless it ran. */
    function Data(): Value {
      if Ran? then data else Obj([])
    }
  }

  /**
   * The `try` block of one side: `result["status"]` (a KeyError when absent), the data (`{}`
   * when absent) and its completeness; any exception gives the error side.
   */
  function SideOf(run: Run, model: Option<string>): (r: Side)
    ensures r.Errored? || r.Ran?
    ensures r.Ran? ==> 0.0 <= r.completeness <= 1.0 && (Truthy(r.data) ==> r.data.Obj?)
    ensures run.Raised? ==> r == Errored(run.error)
    ensures run.Ok? && Get(run.value.0, "status").None? ==> r == Errored("'status'")
    ensures run.Ok? && Get(run.value.0, "status").Some? ==>
      var data := Get(run.value.0, "data").GetOr(Obj([]));
      && (Completeness(data).Raised? ==> r == Errored(Completeness(data).error))
      && (Completeness(data).Ok? ==>
            r == Ran(Get(run.value.0, "status").value, data, run.value.1, Completeness(data).value, model))
    ensures r.Ran? ==> Completeness(r.data) == Ok(r.completeness)
  {
    match run
    case Raised(e) => Errored(e)
    case Ok((envelope, seconds)) =>
      match Get(envelope, "status")
      case None => Errored("'status'")
      case Some(status) =>
        var data := Get(envelope, "data").GetOr(Obj([]));
        match Completeness(data)
        case Raised(e) => Errored(e)
        case Ok(c) => Ran(status, data, seconds, c, model)
  }

  datatype EvalResult =
    | Skipped(file: string)
    | Evaluated(file: string, documentType: string, traditional: Side, llm: Side, comparison: Option<Comparison>)

  /** The comparison is made only when both sides have non-empty data, which are then dicts. */
  function ComparisonIfBoth(trad: Side, llm: Side, numText: real -> string): Option<Comparison> {
    match (trad.Data(), llm.Data())
    case (Obj(a), Obj(b)) => if a != [] && b != [] then Some(ComparisonOf(a, b, numText)) else None
    case _ => None
  }

  /**
   * `evaluate_file`: an UNKNOWN document is skipped under its full path; otherwise both sides
   * are run (the traditional one only when the type has an extractor) and compared.
   */
  function EvaluateFile(path: string, docType: Classifier.DocumentType, trad: Run, llm: Run,
                        llmModel: string, numText: real -> string): (r: EvalResult)
    ensures docType.Unknown? <==> r.Skipped?
    ensures r.Skipped? ==> r.file == path
    ensures r.Evaluated? ==> r.file == Text.Basename(path) && r.documentType == docType.Name()
    ensures r.Evaluated? ==> (r.traditional.NotSupported? <==> TraditionalExtractor(docType).None?)
  {
    if docType.Unknown? then Skipped(path)
    else
      var t := if TraditionalExtractor(docType).None? then NotSupported else SideOf(trad, None);
      var l := SideOf(llm, Some(llmModel));
      Evaluated(Text.Basename(path), docType.Name(), t, l, ComparisonIfBoth(t, l, numText))
  }

  /** A comparison is attached exactly when both sides' data are truthy. */
  lemma ComparisonGate(path: string, docType: Classifier.DocumentType, trad: Run, llm: Run,
                       llmModel: string, numText: real -> string)
    requires !docType.Unknown?
    ensures var r := EvaluateFile(path, docType, trad, llm, llmModel, numText);
      r.comparison.Some? <==> Truthy(r.traditional.Data()) && Truthy(r.llm.Data())
  {
    var r := EvaluateFile(path, docType, trad, llm, llmModel, numText);
    BothDataGate(r.traditional, r.llm, numText);
  }

  /** For sides whose truthy data are dicts, a comparison is made exactly when both data are truthy. */
  lemma BothDataGate(t: Side, l: Side, numText: real -> string)
    requires Truthy(t.Data()) ==> t.Data().Obj?
    requires Truthy(l.Data()) ==> l.Data().Obj?
    ensures ComparisonIfBoth(t, l, numText).Some? <==> Truthy(t.Data()) && Truthy(l.Data())
  {
  }

  /** The completeness of every run side lies in [0, 1]. */
  predicate WellFormed(r: EvalResult) {
    r.Evaluated? ==>
      (r.traditional.Ran? ==> 0.0 <= r.traditional.completeness <= 1.0)
      && (r.llm.Ran? ==> 0.0 <= r.llm.completeness <= 1.0)
      && (r.comparison.Some? ==> -1.0 <= r.comparison.value.completenessImprovement <= 1.0)
  }

  /** Every evaluation is well formed. */
  lemma EvaluateFileWellFormed(path: string, docType: Classifier.DocumentType, trad: Run, llm: Run,
                               llmModel: string, numText: real -> string)
    ensures WellFormed(EvaluateFile(path, docType, trad, llm, llmModel, numText))
  {
    var r := EvaluateFile(path, docType, trad, llm, llmModel, numText);
    if r.Evaluated? && r.comparison.Some? {
      var a, b := r.traditional.Data().fields, r.llm.Data().fields;
      ComparisonBounds(a, b, numText);
    }
  }

  // ---------------------------------------------------------------------------------------------
  // evaluate_directory and generate_summary

  /** `pdf_files[:limit]` when `limit` is truthy: a negative limit drops files from the end. */
  function Limited(files: seq<string>, limit: Option<int>): (r: seq<string>)
    ensures |r| <= |files| && r == files[..|r|]
    ensures limit.None? || limit.value == 0 ==> r == files
    ensures limit.Some? && limit.value > 0 ==> |r| == if limit.value < |files| then limit.value else |files|
    ensures limit.Some? && limit.value < 0 ==> |r| == if -limit.value < |files| then |files| + limit.value else 0
  {
    if limit.None? || limit.value == 0 then files
    else if limit.value > 0 then files[..if limit.value < |files| then limit.value else |files|]
    else files[..if -limit.value < |files| then |files| + limit.value else 0]
  }

  /** What the evaluation of one file is given: the content the classifier reads, and the two runs. */
  datatype FileInputs = FileInputs(content: Classifier.Content, trad: Run, llm: Run)

  /** The evaluation of one file, classified from its path and content. */
  function EvaluationOf(llmModel: string, path: string, input: FileInputs, numText: real -> string): (r: EvalResult)
    ensures r.Skipped? <==> Classifier.Classify(path, input.content).Unknown?
    ensures WellFormed(r)
  {
    var t := Classifier.Classify(path, input.content);
    EvaluateFileWellFormed(path, t, input.trad, input.llm, llmModel, numText);
    EvaluateFile(path, t, input.trad, input.llm, llmModel, numText)
  }

  /** `f` applied to each file, in order. */
  function Mapped<T>(f: string -> T, files: seq<string>): (r: seq<T>)
    ensures |r| == |files|
    decreases |files|
  {
    if files == [] then [] else Mapped(f, files[..|files| - 1]) + [f(files[|files| - 1])]
  }

  /** The `i`-th element is `f` of the `i`-th file. */
  lemma {:induction false} MappedAt<T>(f: string -> T, files: seq<string>, i: nat)
    requires i < |files|
    ensures Mapped(f, files)[i] == f(files[i])
    decreases |files|
  {
    if i < |files| - 1 {
      MappedAt(f, files[..|files| - 1], i);
    }
  }

  /** The `for pdf_file in pdf_files` loop, appending each file's result. */
  method EvaluateEach(files: seq<string>, evaluate: string -> EvalResult) returns (r: seq<EvalResult>)
    ensures r == Mapped(evaluate, files)
  {
    r := [];
    for i := 0 to |files|
      invariant r == Mapped(evaluate, files[..i])
    {
      var result := evaluate(files[i]);
      assert files[..i + 1][..i] == files[..i];
      r := r + [result];
    }
    assert files[..|files|] == files;
  }

  datatype SideSummary = SideSummary(successCount: nat, successRate: real, avgCompleteness: real, avgProcessingTime: real)

  datatype Summary = Summary(
    totalFiles: nat, evaluatedFiles: nat, traditional: SideSummary, llm: SideSummary, llmModel: string,
    avgImprovement: real, filesImproved: nat, filesDegraded: nat, filesSame: nat)

  /** The sides of the evaluated results, in order (`r.get("traditional", {})` is `{}` for a skipped file). */
  function SidesOf(rs: seq<EvalResult>, llmSide: bool): (r: seq<Side>)
    ensures |r| <= |rs|
    decreases |rs|
  {
    if rs == [] then []
    else
      var last := rs[|rs| - 1];
      SidesOf(rs[..|rs| - 1], llmSide)
      + (if last.Evaluated? then [if llmSide then last.llm else last.traditional] else [])
  }

  function CountEvaluated(rs: seq<EvalResult>): (r: nat)
    ensures r <= |rs|
    decreases |rs|
  {
    if rs == [] then 0 else CountEvaluated(rs[..|rs| - 1]) + (if rs[|rs| - 1].Evaluated? then 1 else 0)
  }

  function CountSuccess(ss: seq<Side>): (r: nat)
    ensures r <= |ss|
    decreases |ss|
  {
    if ss == [] then 0
    else CountSuccess(ss[..|ss| - 1]) + (if ss[|ss| - 1].Ran? && ss[|ss| - 1].status == Str("success") then 1 else 0)
  }

  /** The completenesses of the sides that ran. */
  function Completenesses(ss: seq<Side>): (r: seq<real>)
    ensures |r| <= |ss|
    decreases |ss|
  {
    if ss == [] then [] else Completenesses(ss[..|ss| - 1]) + (if ss[|ss| - 1].Ran? then [ss[|ss| - 1].completeness] else [])
  }

  /** The processing times of the sides that ran. */
  function Times(ss: seq<Side>): (r: seq<real>)
    ensures |r| <= |ss|
    decreases |ss|
  {
    if ss == [] then [] else Times(ss[..|ss| - 1]) + (if ss[|ss| - 1].Ran? then [ss[|ss| - 1].processingTime] else [])
  }

  /** The completeness improvements of the results that have a comparison. */
  function Improvements(rs: seq<EvalResult>): (r: seq<real>)
    decreases |rs|
  {
    if rs == [] then []
    else
      var last := rs[|rs| - 1];
      Improvements(rs[..|rs| - 1])
      + (if last.Evaluated? && last.comparison.Some? then [last.comparison.value.completenessImprovement] else [])
  }

  function Sum(xs: seq<real>): real
    decreases |xs|
  {
    if xs == [] then 0.0 else Sum(xs[..|xs| - 1]) + xs[|xs| - 1]
  }

  /** `round(sum(xs) / len(xs), 3) if xs else 0`, without the rounding. */
  function Average(xs: seq<real>): real {
    if xs == [] then 0.0 else Sum(xs) / |xs| as real
  }

  /** How many of the numbers are above, below or equal to zero (`sign` 1, -1 or 0). */
  function CountSign(xs: seq<real>, sign: int): (r: nat)
    ensures r <= |xs|
    decreases |xs|
  {
    if xs == [] then 0
    else
      var x := xs[|xs| - 1];
      CountSign(xs[..|xs| - 1], sign) + (if (sign > 0 && x > 0.0) || (sign < 0 && x < 0.0) || (sign == 0 && x == 0.0) then 1 else 0)
  }

  function SideSummaryOf(ss: seq<Side>, total: nat): SideSummary
    requires total > 0
  {
    SideSummary(CountSuccess(ss), CountSuccess(ss) as real / total as real, Average(Completenesses(ss)), Average(Times(ss)))
  }

  /** `generate_summary`: `{}` (None) for no results, else the counts and averages. */
  function SummaryOf(rs: seq<EvalResult>, llmModel: string): (r: Option<Summary>)
    ensures r.None? <==> rs == []
    ensures r.Some? ==> r.value.totalFiles == |rs| && r.value.evaluatedFiles <= r.value.totalFiles
  {
    if rs == [] then None
    else
      var imps := Improvements(rs);
      Some(Summary(|rs|, CountEvaluated(rs), SideSummaryOf(SidesOf(rs, false), |rs|), SideSummaryOf(SidesOf(rs, true), |rs|),
        llmModel, Average(imps), CountSign(imps, 1), CountSign(imps, -1), CountSign(imps, 0)))
  }

  /** Every improvement is above, below or equal to zero. */
  lemma {:induction false} SignsAddUp(xs: seq<real>)
    ensures CountSign(xs, 1) + CountSign(xs, -1) + CountSign(xs, 0) == |xs|
    decreases |xs|
  {
    if xs != [] {
      SignsAddUp(xs[..|xs| - 1]);
    }
  }

  /** The numbers all in [lo, hi] sum to between `lo` and `hi` times their count. */
  lemma {:induction false} SumBounds(xs: seq<real>, lo: real, hi: real)
    requires forall i :: 0 <= i < |xs| ==> lo <= xs[i] <= hi
    ensures lo * |xs| as real <= Sum(xs) <= hi * |xs| as real
    decreases |xs|
  {
    if xs != [] {
      SumBounds(xs[..|xs| - 1], lo, hi);
    }
  }

  /** The average of numbers in [0, 1] lies in [0, 1]. */
  lemma AverageBounds(xs: seq<real>)
    requires xs != [] && InUnit(xs)
    ensures 0.0 <= Average(xs) <= 1.0
  {
    SumBounds(xs, 0.0, 1.0);
    var n := |xs| as real;
    assert Average(xs) * n == Sum(xs);
  }

  /** Every number lies in [0, 1]. */
  predicate InUnit(xs: seq<real>) {
    forall i :: 0 <= i < |xs| ==> 0.0 <= xs[i] <= 1.0
  }

  /** Every side that ran has a completeness in [0, 1]. */
  predicate SidesInUnit(ss: seq<Side>) {
    forall i :: 0 <= i < |ss| ==> ss[i].Ran? ==> 0.0 <= ss[i].completeness <= 1.0
  }

  /** The sides of well-formed results have completenesses in [0, 1]. */
  lemma {:induction false} SidesOfInUnit(rs: seq<EvalResult>, llmSide: bool)
    requires forall i :: 0 <= i < |rs| ==> WellFormed(rs[i])
    ensures SidesInUnit(SidesOf(rs, llmSide))
    decreases |rs|
  {
    if rs != [] {
      var p := rs[..|rs| - 1];
      SidesOfInUnit(p, llmSide);
      assert WellFormed(rs[|rs| - 1]);
    }
  }

  /** The completenesses collected from such sides lie in [0, 1]. */
  lemma {:induction false} CompletenessesInUnit(ss: seq<Side>)
    requires SidesInUnit(ss)
    ensures InUnit(Completenesses(ss))
    decreases |ss|
  {
    if ss != [] {
      CompletenessesInUnit(ss[..|ss| - 1]);
    }
  }

  /**
   * The summary's counts: improved, degraded and unchanged files add up to the compared files;
   * success counts and rates are bounded by the file count; average completeness lies in [0, 1].
   */
  lemma SummaryCounts(rs: seq<EvalResult>, llmModel: string)
    requires rs != [] && forall i :: 0 <= i < |rs| ==> WellFormed(rs[i])
    ensures var s := SummaryOf(rs, llmModel).value;
      && s.filesImproved + s.filesDegraded + s.filesSame == |Improvements(rs)|
      && s.traditional.successCount <= s.totalFiles && s.llm.successCount <= s.totalFiles
      && 0.0 <= s.traditional.successRate <= 1.0 && 0.0 <= s.llm.successRate <= 1.0
      && 0.0 <= s.traditional.avgCompleteness <= 1.0 && 0.0 <= s.llm.avgCompleteness <= 1.0
  {
    SignsAddUp(Improvements(rs));
    BaseExtractor.RatioBounds(CountSuccess(SidesOf(rs, false)), |rs|);
    BaseExtractor.RatioBounds(CountSuccess(SidesOf(rs, true)), |rs|);
    SidesOfInUnit(rs, false);
    SidesOfInUnit(rs, true);
    CompletenessesInUnit(SidesOf(rs, false));
    CompletenessesInUnit(SidesOf(rs, true));
    if Completenesses(SidesOf(rs, false)) != [] {
      AverageBounds(Completenesses(SidesOf(rs, false)));
    }
    if Completenesses(SidesOf(rs, true)) != [] {
      AverageBounds(Completenesses(SidesOf(rs, true)));
    }
  }

  /** The evaluator object: the LLM model it compares against and the results of its last directory run. */
  class Evaluator {
    var llmModel: string
    var results: seq<EvalResult>

    constructor(model: string)
      ensures llmModel == model && results == []
    {
      llmModel := model;
      results := [];
    }

    /**
     * `evaluate_directory`: the files the glob found (in its order), cut to `limit`, evaluated
     * one by one; the results are kept for the summary.
     */
    method EvaluateDirectory(files: seq<string>, limit: Option<int>, inputs: string -> FileInputs, numText: real -> string)
      returns (r: seq<EvalResult>)
      modifies this
      ensures llmModel == old(llmModel)
      ensures |r| == |Limited(files, limit)|
      ensures forall i :: 0 <= i < |r| ==>
        r[i] == EvaluationOf(llmModel, Limited(files, limit)[i], inputs(Limited(files, limit)[i]), numText)
      ensures results == r
    {
      var pdfFiles := Limited(files, limit);
      var model := llmModel;
      var evaluate := (path: string) => EvaluationOf(model, path, inputs(path), numText);
      r := EvaluateEach(pdfFiles, evaluate);
      forall i | 0 <= i < |r|
        ensures r[i] == EvaluationOf(model, pdfFiles[i], inputs(pdfFiles[i]), numText)
      {
        MappedAt(evaluate, pdfFiles, i);
      }
      results := r;
    }

    /** `generate_summary` over the kept results. */
    function GenerateSummary(): (s: Option<Summary>)
      reads this
      ensures s.None? <==> results == []
      ensures s.Some? ==> s.value.totalFiles == |results| && s.value.evaluatedFiles <= |results|
    {
      SummaryOf(results, llmModel)
    }
  }
}
