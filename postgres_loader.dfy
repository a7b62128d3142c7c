/**
 * The PostgreSQL loader: contract numbers (normalised, or inferred from the file name), the
 * bidder de-duplication key, the OCR-reason text of the extraction log, and the loads of a
 * contract, its bidders and bid items, an extraction log row, a whole extraction result and a
 * batch of them.
 *
 * The database is a `Database` object holding the rows of the four tables. A load either
 * commits all of its rows or, when the commit fails, adds none of them (the rollback). An ORM
 * class takes as keyword arguments exactly the names it declares; any other name raises
 * TypeError, which the loader catches. Python's `str` of a float and `datetime.fromisoformat`
 * are given as a `LoaderRuntime`.
 */
module PostgresLoader {
  import opened Wrappers
  import opened Values
  import Text
  import Patterns

  /**
   * `str(x)` for a number, the same text for an int and a float of equal value; `str(x)` for an
   * amount as the database hands it back; and
   * `datetime.fromisoformat(s)` as the value stored for it, or None when it raises.
   */
  datatype LoaderRuntime = LoaderRuntime(numText: real -> string, storedText: real -> string,
                                         parseDate: string -> Option<Value>)

  /** The attribute names of the ORM classes: their columns and relationships. */
  datatype Columns = Columns(contract: set<string>, bidder: set<string>, item: set<string>, log: set<string>)

  const ContractAttributes: set<string> := {
    "id", "contract_number", "wbs_element", "tip_number", "federal_aid_number", "counties",
    "description", "date_available", "completion_date", "mbe_goal", "wbe_goal", "combined_goal",
    "bid_opening_date", "proposal_length", "type_of_work", "location", "estimated_cost",
    "awarded_amount", "awarded_to", "award_date", "source_file_path", "extraction_date",
    "created_at", "updated_at", "bidders", "bid_items"}
  const BidderAttributes: set<string> := {
    "id", "contract_id", "bidder_name", "bidder_location", "total_bid_amount", "bid_rank",
    "percentage_diff", "is_winner", "created_at", "contract"}
  const BidItemAttributes: set<string> := {
    "id", "contract_id", "item_number", "item_code", "description", "quantity", "unit",
    "unit_price", "total_price", "bidder_name", "created_at", "contract"}
  const LogAttributes: set<string> := {
    "id", "file_path", "document_type", "extraction_method", "status", "error_message",
    "confidence_score", "processing_time_seconds", "records_extracted", "needs_ocr",
    "needs_ocr_reasons", "file_hash", "file_size_bytes", "file_mtime", "extraction_timestamp"}

  /** The lineage columns the migrations add to `contracts` and `extraction_logs`. */
  const ContractLineage: set<string> := {"source_file_hash", "source_file_mtime", "extraction_run_id"}
  const LogLineage: set<string> := {"ocr_applied", "ocr_method", "ocr_duration_seconds", "run_id"}

  /** The ORM classes as declared. */
  const DeclaredColumns := Columns(ContractAttributes, BidderAttributes, BidItemAttributes, LogAttributes)

  /** The ORM classes with the columns the migrations create. */
  const MigratedColumns := Columns(ContractAttributes + ContractLineage, BidderAttributes, BidItemAttributes,
                                   LogAttributes + LogLineage)

  /**
   * `Model(**row)` does not raise: every key is a declared attribute of the class. SQLAlchemy's
   * constructor tests each key with `hasattr`, which also accepts other class attributes (relationships,
   * methods); this predicate accepts declared columns and relationships only.
   */
  predicate Accepts(attributes: set<string>, row: Fields) {
    forall i :: 0 <= i < |row| ==> row[i].0 in attributes
  }

  const NoStripError := "object has no attribute 'strip'"
  const NoGetError := "object has no attribute 'get'"
  const PathTypeError := "expected str, bytes or os.PathLike object"

  // ---------------------------------------------------------------------------------------
  // Contract numbers
  // ---------------------------------------------------------------------------------------

  /** `_normalize_contract_number`: None for a falsy value, else its text stripped and uppercased. */
  function NormalizeContractNumber(v: Value, numText: real -> string): (r: Option<string>)
    ensures r.None? <==> !Truthy(v)
    ensures v.Str? && Truthy(v) ==> r == Some(Text.Upper(Text.Strip(v.s)))
  {
    if !Truthy(v) then None else Some(Text.Upper(Text.Strip(ToStr(v, numText))))
  }

  /** The stored form of an optional string: the string, or None. */
  function OptStr(o: Option<string>): Value {
    match o
    case Some(s) => Str(s)
    case None => Null
  }

  /** A normalised contract number is its own normalisation, unless it is empty. */
  lemma NormalizeIdempotent(v: Value, numText: real -> string, n: string)
    requires NormalizeContractNumber(v, numText) == Some(n) && n != ""
    ensures NormalizeContractNumber(Str(n), numText) == Some(n)
  {
    var x := ToStr(v, numText);
    assert n == Text.Upper(Text.Strip(x));
    Text.UpperStripFixed(x);
    NormalizeString(n, numText);
  }

  /** A non-empty string is stripped and uppercased. */
  lemma NormalizeString(s: string, numText: real -> string)
    requires s != ""
    ensures NormalizeContractNumber(Str(s), numText) == Some(Text.Upper(Text.Strip(s)))
  {
  }

  /** A contract number padded with one space on each side, as " da123 " is, is stored stripped and uppercased. */
  lemma NormalizeStripsPadding(p: string, numText: real -> string)
    requires |p| >= 3 && p[0] == ' ' && p[|p| - 1] == ' ' && !Text.IsSpace(p[1]) && !Text.IsSpace(p[|p| - 2])
    ensures NormalizeContractNumber(Str(p), numText) == Some(Text.Upper(p[1..|p| - 1]))
  {
    Text.StripPadded(p);
  }

  /**
   * `_infer_contract_number_from_file_path`: the first `DA\d{5}` (any case) in the file name,
   * else the first `\b\d{8}\b`, uppercased; None for no path or no match. A path that is not a
   * string raises in `Path()`.
   */
  function InferContractNumber(filePath: Value): (r: Result<Option<string>>)
    ensures !Truthy(filePath) ==> r == Ok(None)
    ensures r.Raised? <==> Truthy(filePath) && !filePath.Str?
    ensures Truthy(filePath) && filePath.Str? ==>
      r == Ok(FileNameNumber(Text.Basename(filePath.s)))
  {
    if !Truthy(filePath) then Ok(None)
    else if !filePath.Str? then Raised(PathTypeError)
    else Ok(FileNameNumber(Text.Basename(filePath.s)))
  }

  /** The contract number found in a file name, uppercased. */
  function FileNameNumber(name: string): (r: Option<string>)
    ensures r.None? <==> (Patterns.Search(Patterns.Da(true), name).None?
                          && Patterns.Search(Patterns.BoundedEight, name).None?)
    ensures Patterns.Search(Patterns.Da(true), name).Some? ==>
      r == Some(Text.Upper(Patterns.Search(Patterns.Da(true), name).value))
  {
    match Patterns.SearchEither(Patterns.Da(true), Patterns.BoundedEight, name)
    case None => None
    case Some(m) => Some(Text.Upper(m))
  }

  /** Only the last path component is searched: the directories never contribute a number. */
  lemma InferUsesBasename(p: string)
    requires p != ""
    ensures InferContractNumber(Str(p)) == InferContractNumber(Str(Text.Basename(p)))
  {
    var b := Text.Basename(p);
    if b != "" {
      Text.BasenamePlain(b);
    } else {
      assert Patterns.Search(Patterns.Da(true), b).None?;
      assert Patterns.Search(Patterns.BoundedEight, b).None?;
    }
  }

  /** A file name that starts with "DA" and five digits, in any case, gives them uppercased. */
  lemma InferDaAtStart(name: string)
    requires '/' !in name && Patterns.MatchesAt(Patterns.Da(true), name, 0)
    ensures InferContractNumber(Str(name)) == Ok(Some(Text.Upper(name[..7])))
  {
    assert name[0] != '.';
    Text.BasenamePlain(name);
    Patterns.SearchAtStart(Patterns.Da(true), name);
  }

  // ---------------------------------------------------------------------------------------
  // The bidder key and the OCR reasons
  // ---------------------------------------------------------------------------------------

  /** `(name or "").strip().upper()`: a truthy non-string has no `strip`. */
  function NameKey(name: Value): (r: Result<string>)
    ensures r.Raised? <==> Truthy(name) && !name.Str?
    ensures !Truthy(name) ==> r == Ok("")
  {
    if !Truthy(name) then Ok("")
    else if name.Str? then Ok(Text.Upper(Text.Strip(name.s)))
    else Raised(NoStripError)
  }

  /** `str(total_amount) if total_amount is not None else ""`. */
  function AmountKey(amount: Value, numText: real -> string): string {
    if amount.Null? then "" else ToStr(amount, numText)
  }

  /** `_bidder_key`: the name key and the amount text, separated by "|". */
  function BidderKey(name: Value, amount: Value, numText: real -> string): (r: Result<string>)
    ensures r.Raised? <==> NameKey(name).Raised?
    ensures r.Ok? ==> Text.StartsWith(r.value, NameKey(name).value + "|")
  {
    match NameKey(name)
    case Raised(e) => Raised(e)
    case Ok(n) =>
      Text.ConcatEnds(n + "|", AmountKey(amount, numText));
      Ok(n + "|" + AmountKey(amount, numText))
  }

  /**
   * Two bidders whose names hold no "|" share a key exactly when their normalised names and
   * their amount texts are equal.
   */
  lemma BidderKeyEquality(n1: Value, a1: Value, n2: Value, a2: Value, numText: real -> string)
    requires NameKey(n1).Ok? && NameKey(n2).Ok?
    requires '|' !in NameKey(n1).value && '|' !in NameKey(n2).value
    ensures BidderKey(n1, a1, numText) == BidderKey(n2, a2, numText) <==>
      NameKey(n1) == NameKey(n2) && AmountKey(a1, numText) == AmountKey(a2, numText)
  {
    var k1, k2 := NameKey(n1).value, NameKey(n2).value;
    var t1, t2 := AmountKey(a1, numText), AmountKey(a2, numText);
    assert BidderKey(n1, a1, numText) == Ok(k1 + "|" + t1);
    assert BidderKey(n2, a2, numText) == Ok(k2 + "|" + t2);
    if k1 + "|" + t1 == k2 + "|" + t2 {
      Text.SplitAtFirst(k1, "|", t1);
      Text.SplitAtFirst(k2, "|", t2);
    }
  }

  /** `_format_ocr_reasons`: None for a falsy value, a string as it is, a list comma-joined, else `str`. */
  function FormatOcrReasons(reasons: Value, numText: real -> string): (r: Option<string>)
    ensures r.None? <==> !Truthy(reasons)
    ensures reasons.Str? && Truthy(reasons) ==> r == Some(reasons.s)
    ensures Truthy(reasons) && !reasons.Str? && !reasons.List? ==> r == Some(ToStr(reasons, numText))
  {
    if !Truthy(reasons) then None
    else match reasons
      case Str(s) => Some(s)
      case List(items) => Some(Text.Join(",", StrAll(items, numText)))
      case _ => Some(ToStr(reasons, numText))
  }

  /** `str` of each element of a list. */
  function StrAll(items: seq<Value>, numText: real -> string): (r: seq<string>)
    ensures |r| == |items| && forall i :: 0 <= i < |items| ==> r[i] == ToStr(items[i], numText)
  {
    seq(|items|, i requires 0 <= i < |items| => ToStr(items[i], numText))
  }

  /** The stored reason text of a non-empty list of reasons without commas splits back into the reasons. */
  lemma ReasonsRoundTrip(reasons: seq<string>, numText: real -> string)
    requires reasons != [] && forall k :: 0 <= k < |reasons| ==> ',' !in reasons[k]
    ensures var r := FormatOcrReasons(List(seq(|reasons|, i requires 0 <= i < |reasons| => Str(reasons[i]))), numText);
      r.Some? && Text.SplitChar(r.value, ',') == reasons
  {
    var items := seq(|reasons|, i requires 0 <= i < |reasons| => Str(reasons[i]));
    assert StrAll(items, numText) == reasons;
    Text.SplitJoin(reasons, ',');
  }

  // ---------------------------------------------------------------------------------------
  // Bidders and bid items
  // ---------------------------------------------------------------------------------------

  /** `bidder_data['contract_id'] = contract_id` on a dict. */
  function WithContractId(v: Value, contractId: int): Value {
    if v.Obj? then Obj(Put(v.fields, "contract_id", Num(contractId as real))) else v
  }

  /** The list once the loop has set `contract_id` on its first `n` elements. */
  function TagLeading(s: seq<Value>, n: nat, contractId: int): (r: seq<Value>)
    requires n <= |s|
    ensures |r| == |s|
  {
    if n == 0 then s else TagLeading(s, n - 1, contractId)[n - 1 := WithContractId(s[n - 1], contractId)]
  }

  /** The first `n` elements carry the contract id; the others are as they were. */
  lemma {:induction false} TagLeadingAt(s: seq<Value>, n: nat, contractId: int, j: nat)
    requires n <= |s| && j < |s|
    ensures TagLeading(s, n, contractId)[j] == if j < n then WithContractId(s[j], contractId) else s[j]
  {
    if n > 0 {
      TagLeadingAt(s, n - 1, contractId, j);
    }
  }

  /** The key `_bidder_key` gives a row, with `text` as the `str` of its amount. */
  function RowKey(row: Fields, text: real -> string): Result<string> {
    BidderKey(GetOrNull(row, "bidder_name"), GetOrNull(row, "total_bid_amount"), text)
  }

  /** `RowKey` with the given number text, as a function of the row. */
  function KeyWith(text: real -> string): Fields -> Result<string> {
    row => RowKey(row, text)
  }

  /** The keys of the rows of one contract: the `existing_keys` set. */
  function ExistingKeys(rows: seq<Fields>, contractId: int, keyOf: Fields -> Result<string>): set<string>
    decreases |rows|
  {
    if rows == [] then {}
    else
      var last := rows[|rows| - 1];
      var earlier := ExistingKeys(rows[..|rows| - 1], contractId, keyOf);
      match keyOf(last)
      case Ok(k) => if Keyed(last, contractId, keyOf, k) then earlier + {k} else earlier
      case Raised(_) => earlier
  }

  /** A row of the contract whose key is `k`. */
  predicate Keyed(row: Fields, contractId: int, keyOf: Fields -> Result<string>, k: string) {
    GetOrNull(row, "contract_id") == Num(contractId as real) && keyOf(row) == Ok(k)
  }

  /** The existing keys are exactly the keys of the contract's rows. */
  lemma {:induction false} ExistingKeysOf(rows: seq<Fields>, contractId: int, keyOf: Fields -> Result<string>, k: string)
    ensures k in ExistingKeys(rows, contractId, keyOf) <==>
      exists i :: 0 <= i < |rows| && Keyed(rows[i], contractId, keyOf, k)
    decreases |rows|
  {
    if rows != [] {
      var prefix := rows[..|rows| - 1];
      var last := rows[|rows| - 1];
      ExistingKeysOf(prefix, contractId, keyOf, k);
      assert forall i :: 0 <= i < |prefix| ==> rows[i] == prefix[i];
      assert k in ExistingKeys(rows, contractId, keyOf) <==>
        k in ExistingKeys(prefix, contractId, keyOf) || Keyed(last, contractId, keyOf, k);
      if Keyed(last, contractId, keyOf, k) {
        assert Keyed(rows[|rows| - 1], contractId, keyOf, k);
      }
    }
  }

  /**
   * The `existing_keys` of `load_bidders`: the query sees the committed rows, read back from the
   * database (their amounts as `storedText` prints them), and the rows still pending in the
   * session, which keep the values they were given.
   */
  function KnownKeys(committed: seq<Fields>, pending: seq<Fields>, contractId: int, rt: LoaderRuntime): set<string> {
    ExistingKeys(committed, contractId, KeyWith(rt.storedText)) + ExistingKeys(pending, contractId, KeyWith(rt.numText))
  }

  /** The rows `load_bidders` adds for the bidders seen so far, and its `pending_keys`. */
  datatype Plan = Plan(rows: seq<Fields>, keys: set<string>)

  /** The effect of one bidder dict on the plan: skipped on a failing key, a known key or a rejected row. */
  function PlanStep(p: Plan, b: Value, contractId: int, existing: set<string>, attributes: set<string>,
                    keyOf: Fields -> Result<string>): Plan
  {
    if !b.Obj? then p
    else
      var row := Put(b.fields, "contract_id", Num(contractId as real));
      match keyOf(row)
      case Raised(_) => p
      case Ok(k) =>
        if k in existing || k in p.keys || !Accepts(attributes, row) then p
        else Plan(p.rows + [row], p.keys + {k})
  }

  /** The de-duplication loop of `load_bidders` over the bidder dicts, in order. */
  function BidderPlan(bs: seq<Value>, contractId: int, existing: set<string>, attributes: set<string>,
                      keyOf: Fields -> Result<string>): Plan
    decreases |bs|
  {
    if bs == [] then Plan([], {})
    else PlanStep(BidderPlan(bs[..|bs| - 1], contractId, existing, attributes, keyOf),
                  bs[|bs| - 1], contractId, existing, attributes, keyOf)
  }

  /** Plans whose rows carry pairwise distinct keys, all pending and none already known. */
  predicate FreshPlan(p: Plan, existing: set<string>, keyOf: Fields -> Result<string>) {
    (forall k :: k in p.keys ==> k !in existing)
    && (forall i :: 0 <= i < |p.rows| ==> keyOf(p.rows[i]).Ok? && keyOf(p.rows[i]).value in p.keys)
    && (forall i, j :: 0 <= i < j < |p.rows| ==> keyOf(p.rows[i]) != keyOf(p.rows[j]))
  }

  /** `load_bidders` adds each key at most once and never a key already known for the contract. */
  lemma {:induction false} BidderPlanFresh(bs: seq<Value>, contractId: int, existing: set<string>,
                                           attributes: set<string>, keyOf: Fields -> Result<string>)
    ensures FreshPlan(BidderPlan(bs, contractId, existing, attributes, keyOf), existing, keyOf)
    decreases |bs|
  {
    if bs != [] {
      var p := BidderPlan(bs[..|bs| - 1], contractId, existing, attributes, keyOf);
      BidderPlanFresh(bs[..|bs| - 1], contractId, existing, attributes, keyOf);
      var q := BidderPlan(bs, contractId, existing, attributes, keyOf);
      if q != p {
        var row := q.rows[|q.rows| - 1];
        assert q.rows == p.rows + [row];
        forall i, j | 0 <= i < j < |q.rows| ensures keyOf(q.rows[i]) != keyOf(q.rows[j]) {
          assert q.rows[i] == p.rows[i];
          if j < |p.rows| {
            assert q.rows[j] == p.rows[j];
          }
        }
      }
    }
  }

  /** Every pending key is the key of one of the planned rows. */
  lemma {:induction false} PlanKeysFromRows(bs: seq<Value>, contractId: int, existing: set<string>,
                                            attributes: set<string>, keyOf: Fields -> Result<string>)
    ensures var p := BidderPlan(bs, contractId, existing, attributes, keyOf);
      forall k :: k in p.keys ==> exists i :: 0 <= i < |p.rows| && keyOf(p.rows[i]) == Ok(k)
    decreases |bs|
  {
    if bs != [] {
      var p := BidderPlan(bs[..|bs| - 1], contractId, existing, attributes, keyOf);
      PlanKeysFromRows(bs[..|bs| - 1], contractId, existing, attributes, keyOf);
      var q := BidderPlan(bs, contractId, existing, attributes, keyOf);
      if q != p {
        forall k | k in q.keys ensures exists i :: 0 <= i < |q.rows| && keyOf(q.rows[i]) == Ok(k) {
          if k in p.keys {
            var i :| 0 <= i < |p.rows| && keyOf(p.rows[i]) == Ok(k);
            assert q.rows[i] == p.rows[i];
          } else {
            assert keyOf(q.rows[|q.rows| - 1]) == Ok(k);
          }
        }
      }
    }
  }

  /** The pending keys only grow along the list. */
  lemma PlanKeysGrow(bs: seq<Value>, contractId: int, existing: set<string>, attributes: set<string>,
                     keyOf: Fields -> Result<string>)
    requires bs != []
    ensures BidderPlan(bs[..|bs| - 1], contractId, existing, attributes, keyOf).keys
         <= BidderPlan(bs, contractId, existing, attributes, keyOf).keys
  {
  }

  /**
   * Loading the same bidders again once the first load's keys are known adds nothing: every
   * bidder is then a duplicate, or fails as it failed before.
   */
  lemma {:induction false} ReloadAddsNothing(bs: seq<Value>, contractId: int, existing: set<string>, more: set<string>,
                                             attributes: set<string>, keyOf: Fields -> Result<string>)
    requires existing + BidderPlan(bs, contractId, existing, attributes, keyOf).keys <= more
    ensures BidderPlan(bs, contractId, more, attributes, keyOf) == Plan([], {})
    decreases |bs|
  {
    if bs != [] {
      PlanKeysGrow(bs, contractId, existing, attributes, keyOf);
      ReloadAddsNothing(bs[..|bs| - 1], contractId, existing, more, attributes, keyOf);
    }
  }

  /** One more bidder of the loop. */
  lemma BidderPlanStep(bs: seq<Value>, i: nat, contractId: int, existing: set<string>, attributes: set<string>,
                       keyOf: Fields -> Result<string>, row: Fields)
    requires i < |bs| && bs[i].Obj? && row == Put(bs[i].fields, "contract_id", Num(contractId as real))
    ensures var p := BidderPlan(bs[..i], contractId, existing, attributes, keyOf);
      var key := keyOf(row);
      BidderPlan(bs[..i + 1], contractId, existing, attributes, keyOf)
        == if key.Ok? && key.value !in existing && key.value !in p.keys && Accepts(attributes, row)
           then Plan(p.rows + [row], p.keys + {key.value}) else p
  {
    assert bs[..i + 1][..i] == bs[..i];
  }

  /**
   * A bidder whose key is already stored is skipped, however often it repeats, and a bidder with a
   * new key is added: a stored ACME bid of 100.0, then two more of 100.0 and one of 200.0, add
   * only the bid of 200.0.
   */
  lemma SkipsKnownBidder(b1: Value, b2: Value, contractId: int, existing: set<string>, attributes: set<string>,
                     keyOf: Fields -> Result<string>)
    requires b1.Obj? && b2.Obj?
    requires var k1 := keyOf(WithContractId(b1, contractId).fields); k1.Ok? && k1.value in existing
    requires var k2 := keyOf(WithContractId(b2, contractId).fields); k2.Ok? && k2.value !in existing
    requires Accepts(attributes, WithContractId(b2, contractId).fields)
    ensures BidderPlan([b1, b1, b2], contractId, existing, attributes, keyOf).rows == [WithContractId(b2, contractId).fields]
  {
    var bs := [b1, b1, b2];
    assert bs[..2] == [b1, b1] && bs[..2][..1] == [b1] && [b1][..0] == [];
    assert BidderPlan([b1], contractId, existing, attributes, keyOf) == Plan([], {});
    assert BidderPlan([b1, b1], contractId, existing, attributes, keyOf) == Plan([], {});
  }

  /** The number of leading dicts: the bidders `load_bidders` handles before a non-dict raises. */
  function LeadingDicts(s: seq<Value>): (r: nat)
    ensures r <= |s| && (forall i :: 0 <= i < r ==> s[i].Obj?) && (r < |s| ==> !s[r].Obj?)
  {
    if s == [] || !s[0].Obj? then 0 else 1 + LeadingDicts(s[1..])
  }

  /** The rows `load_bid_items` adds: every dict whose keys the BidItem class accepts. */
  function ItemRows(items: seq<Value>, contractId: int, attributes: set<string>): (r: seq<Fields>)
    ensures |r| <= |items|
    decreases |items|
  {
    if items == [] then []
    else
      var last := items[|items| - 1];
      var rest := ItemRows(items[..|items| - 1], contractId, attributes);
      if last.Obj? && Accepts(attributes, Put(last.fields, "contract_id", Num(contractId as real))) then
        rest + [Put(last.fields, "contract_id", Num(contractId as real))]
      else rest
  }

  lemma ItemRowsStep(items: seq<Value>, i: nat, contractId: int, attributes: set<string>, row: Fields)
    requires i < |items| && items[i].Obj? && row == Put(items[i].fields, "contract_id", Num(contractId as real))
    ensures ItemRows(items[..i + 1], contractId, attributes)
         == if Accepts(attributes, row) then ItemRows(items[..i], contractId, attributes) + [row]
            else ItemRows(items[..i], contractId, attributes)
  {
    assert items[..i + 1][..i] == items[..i];
  }

  // ---------------------------------------------------------------------------------------
  // Contracts
  // ---------------------------------------------------------------------------------------

  datatype ContractRow = ContractRow(id: nat, fields: Fields)

  /** `setattr(existing, key, value)` for every attribute key of `data` whose value is not None, in order. */
  function ApplyUpdate(f: Fields, data: Fields, attributes: set<string>): Fields
    decreases |data|
  {
    if data == [] then f
    else
      var (k, v) := data[|data| - 1];
      var g := ApplyUpdate(f, data[..|data| - 1], attributes);
      if k in attributes && v != Null then Put(g, k, v) else g
  }

  /**
   * The update overwrites exactly the attributes `data` gives a value other than None, with that
   * value; every other field keeps its value.
   */
  lemma {:induction false} ApplyUpdateGet(f: Fields, data: Fields, attributes: set<string>, k: string)
    requires DistinctKeys(data)
    ensures Get(ApplyUpdate(f, data, attributes), k) ==
      if k in attributes && Get(data, k).Some? && Get(data, k).value != Null then Get(data, k) else Get(f, k)
    decreases |data|
  {
    if data != [] {
      var prefix := data[..|data| - 1];
      var (k2, v) := data[|data| - 1];
      assert DistinctKeys(prefix);
      ApplyUpdateGet(f, prefix, attributes, k);
      PutGet(ApplyUpdate(f, prefix, attributes), k2, v, k);
      GetLast(data, k);
    }
  }

  /** In a dict with distinct keys, the last entry's key maps to its value and the others as before. */
  lemma GetLast(data: Fields, k: string)
    requires data != [] && DistinctKeys(data)
    ensures Get(data, k) == if k == data[|data| - 1].0 then Some(data[|data| - 1].1) else Get(data[..|data| - 1], k)
  {
    var p := data[..|data| - 1];
    assert data == p + [data[|data| - 1]];
    GetAppend(p, data[|data| - 1], k);
  }

  /** What `filter_by(contract_number=...).first()` finds: the position of the first row with the number. */
  function FindContract(rows: seq<ContractRow>, number: Value): (r: Option<nat>)
    ensures r.Some? ==> r.value < |rows| && GetOrNull(rows[r.value].fields, "contract_number") == number
    ensures r.None? ==> forall j :: 0 <= j < |rows| ==> GetOrNull(rows[j].fields, "contract_number") != number
    decreases |rows|
  {
    if rows == [] then None
    else if GetOrNull(rows[0].fields, "contract_number") == number then Some(0)
    else match FindContract(rows[1..], number)
      case None => None
      case Some(j) => Some(j + 1)
  }

  /** What a load does with the session: nothing, a rollback, or a commit. */
  datatype Txn = Untouched | RolledBack | Committed

  /** What `load_contract` returns, the contracts it leaves, the next id and what it did with the session. */
  datatype ContractLoad = ContractLoad(contract: Option<ContractRow>, rows: seq<ContractRow>, nextId: nat, txn: Txn)

  /**
   * `load_contract`: no number, no contract; an existing contract with the number is updated,
   * otherwise a new one is created when the class takes every key of `data`. A failed commit
   * or a rejected key rolls back and gives None.
   */
  function LoadContractSpec(rows: seq<ContractRow>, nextId: nat, data: Fields, attributes: set<string>,
                            commitFails: bool): (r: ContractLoad)
    ensures r.contract.None? <==> r.txn != Committed
    ensures r.contract.None? ==> r.rows == rows && r.nextId == nextId
    ensures r.contract.Some? ==> r.contract.value in r.rows
    ensures r.txn == Untouched <==> !Truthy(GetOrNull(data, "contract_number"))
    ensures commitFails ==> r.contract.None?
  {
    var number := GetOrNull(data, "contract_number");
    if !Truthy(number) then ContractLoad(None, rows, nextId, Untouched)
    else match FindContract(rows, number)
      case Some(j) =>
        var row := ContractRow(rows[j].id, ApplyUpdate(rows[j].fields, data, attributes));
        if commitFails then ContractLoad(None, rows, nextId, RolledBack)
        else
          var updated := rows[j := row];
          assert updated[j] == row;
          ContractLoad(Some(row), updated, nextId, Committed)
      case None =>
        if !Accepts(attributes, data) || commitFails then ContractLoad(None, rows, nextId, RolledBack)
        else
          var row := ContractRow(nextId, data);
          ContractLoad(Some(row), rows + [row], nextId + 1, Committed)
  }

  /** No two contracts share a number (the unique column). */
  predicate UniqueNumbers(rows: seq<ContractRow>) {
    forall i, j :: 0 <= i < j < |rows| ==>
      GetOrNull(rows[i].fields, "contract_number") != GetOrNull(rows[j].fields, "contract_number")
  }

  /** Loading a contract dict with distinct keys keeps the contract numbers unique. */
  lemma LoadKeepsNumbersUnique(rows: seq<ContractRow>, nextId: nat, data: Fields, attributes: set<string>,
                               commitFails: bool)
    requires UniqueNumbers(rows) && DistinctKeys(data)
    ensures UniqueNumbers(LoadContractSpec(rows, nextId, data, attributes, commitFails).rows)
  {
    var number := GetOrNull(data, "contract_number");
    var r := LoadContractSpec(rows, nextId, data, attributes, commitFails).rows;
    if Truthy(number) && !commitFails {
      match FindContract(rows, number)
      case Some(j) =>
        ApplyUpdateGet(rows[j].fields, data, attributes, "contract_number");
        assert r == rows[j := r[j]];
        ReplaceKeepsUnique(rows, j, r[j]);
      case None =>
        if Accepts(attributes, data) {
          assert r == rows + [ContractRow(nextId, data)];
          AppendKeepsUnique(rows, ContractRow(nextId, data));
        }
    }
  }

  /** Replacing a row by one with the same number keeps the numbers unique. */
  lemma ReplaceKeepsUnique(rows: seq<ContractRow>, j: nat, row: ContractRow)
    requires UniqueNumbers(rows) && j < |rows|
    requires GetOrNull(row.fields, "contract_number") == GetOrNull(rows[j].fields, "contract_number")
    ensures UniqueNumbers(rows[j := row])
  {
    var r := rows[j := row];
    forall i | 0 <= i < |r| ensures GetOrNull(r[i].fields, "contract_number") == GetOrNull(rows[i].fields, "contract_number") {
    }
  }

  /** Appending a row whose number no row has keeps the numbers unique. */
  lemma AppendKeepsUnique(rows: seq<ContractRow>, row: ContractRow)
    requires UniqueNumbers(rows)
    requires forall j :: 0 <= j < |rows| ==> GetOrNull(rows[j].fields, "contract_number") != GetOrNull(row.fields, "contract_number")
    ensures UniqueNumbers(rows + [row])
  {
    var r := rows + [row];
    forall i | 0 <= i < |rows| ensures r[i] == rows[i] {
    }
  }

  /**
   * An update keeps the row's id and writes exactly the non-None attribute values of `data`,
   * leaving the other fields; a new contract takes the next id and `data` as it is.
   */
  lemma {:induction false} LoadContractEffect(rows: seq<ContractRow>, nextId: nat, data: Fields, attributes: set<string>,
                                              k: string)
    requires DistinctKeys(data) && Truthy(GetOrNull(data, "contract_number"))
    ensures var r := LoadContractSpec(rows, nextId, data, attributes, false);
      match FindContract(rows, GetOrNull(data, "contract_number"))
      case Some(j) =>
        r.contract.Some? && r.contract.value.id == rows[j].id && r.rows == rows[j := r.contract.value]
        && Get(r.contract.value.fields, k) ==
           if k in attributes && Get(data, k).Some? && Get(data, k).value != Null then Get(data, k)
           else Get(rows[j].fields, k)
      case None =>
        r.contract.Some? <==> Accepts(attributes, data)
  {
    match FindContract(rows, GetOrNull(data, "contract_number"))
    case Some(j) =>
      ApplyUpdateGet(rows[j].fields, data, attributes, k);
    case None =>
  }

  // ---------------------------------------------------------------------------------------
  // The records of an extraction result
  // ---------------------------------------------------------------------------------------

  /** Where a key of the `log_data` dict of `log_extraction` takes its value from. */
  datatype LogSource =
    | FromResult(key: string)  // `extraction_result.get(key)`
    | FromMeta(key: string)    // `extraction_result.get('metadata', {}).get(key)`
    | OcrReasons               // the formatted `needs_ocr_reasons` of the metadata
    | Mtime                    // the parsed `file_mtime` of the metadata, when truthy

  /** The keys of the `log_data` dict, in order, each with where its value comes from. */
  const LogLayout: seq<(string, LogSource)> :=
    [("file_path", FromResult("file_path")),
     ("document_type", FromResult("document_type")),
     ("extraction_method", FromMeta("extraction_method")),
     ("status", FromResult("status")),
     ("error_message", FromResult("error")),
     ("processing_time_seconds", FromMeta("processing_time")),
     ("needs_ocr", FromMeta("needs_ocr")),
     ("needs_ocr_reasons", OcrReasons),
     ("ocr_applied", FromMeta("ocr_applied")),
     ("ocr_method", FromMeta("ocr_method")),
     ("ocr_duration_seconds", FromMeta("ocr_duration_seconds")),
     ("file_hash", FromMeta("file_hash")),
     ("file_size_bytes", FromMeta("file_size_bytes")),
     ("file_mtime", Mtime),
     ("run_id", FromMeta("run_id"))]

  /** The keys of the dict `load_extraction_result` hands to `load_contract`, in order. */
  const ContractRecordKeys: seq<string> :=
    ["contract_number", "wbs_element", "counties", "description", "date_available",
     "completion_date", "mbe_goal", "wbe_goal", "combined_goal", "bid_opening_date",
     "proposal_length", "type_of_work", "location", "estimated_cost", "awarded_amount",
     "awarded_to", "award_date", "source_file_path", "source_file_hash", "source_file_mtime",
     "extraction_run_id"]

  /** The Contract class as declared lacks the lineage key the contract dict sets. */
  lemma ContractKeysUndeclared()
    ensures ContractRecordKeys[18] == "source_file_hash" && ContractRecordKeys[18] !in ContractAttributes
  {
  }

  /** ExtractionLog as declared lacks the OCR key the log dict sets. */
  lemma LogKeysUndeclared()
    ensures LogLayout[8].0 == "ocr_applied" && LogLayout[8].0 !in LogAttributes
  {
  }

  /** The migrated classes have every key of the two dicts. */
  lemma RecordKeysMigrated()
    ensures forall k :: k in ContractRecordKeys ==> k in MigratedColumns.contract
    ensures forall i :: 0 <= i < |LogLayout| ==> LogLayout[i].0 in MigratedColumns.log
  {
  }

  /** A dict literal: the keys paired with the values. */
  function Entries(keys: seq<string>, vals: seq<Value>): (r: Fields)
    requires |keys| == |vals|
    ensures |r| == |keys| && forall i :: 0 <= i < |r| ==> r[i] == (keys[i], vals[i])
  {
    seq(|keys|, i requires 0 <= i < |keys| => (keys[i], vals[i]))
  }

  /** A class takes a dict literal exactly when it has all of its keys. */
  lemma AcceptsEntries(attributes: set<string>, keys: seq<string>, vals: seq<Value>)
    requires |keys| == |vals|
    ensures Accepts(attributes, Entries(keys, vals)) <==> forall k :: k in keys ==> k in attributes
  {
    if !Accepts(attributes, Entries(keys, vals)) {
      var i :| 0 <= i < |keys| && Entries(keys, vals)[i].0 !in attributes;
      assert keys[i] in keys;
    }
  }

  /** `result.get('metadata', {})` as a dict; anything else has no `get`. */
  function Metadata(result: Fields): (r: Result<Fields>)
    ensures !HasKey(result, "metadata") ==> r == Ok([])
    ensures r.Raised? <==> HasKey(result, "metadata") && !GetOrNull(result, "metadata").Obj?
  {
    match Get(result, "metadata")
    case None => Ok([])
    case Some(Obj(m)) => Ok(m)
    case Some(_) => Raised(NoGetError)
  }

  /**
   * `_parse_date` (which `_parse_datetime` calls): None for a falsy value; a string goes through
   * `fromisoformat`, and None where that raises, as for a value that is not a string.
   */
  function ParseDate(v: Value, rt: LoaderRuntime): (r: Value)
    ensures !v.Str? ==> r == Null
  {
    if !Truthy(v) then Null
    else match v
      case Str(s) => rt.parseDate(s).GetOr(Null)
      case _ => Null
  }

  /** The value of one key of the `log_data` dict. */
  function LogValue(src: LogSource, result: Fields, meta: Fields, rt: LoaderRuntime): Value {
    match src
    case FromResult(k) => GetOrNull(result, k)
    case FromMeta(k) => GetOrNull(meta, k)
    case OcrReasons => OptStr(FormatOcrReasons(GetOrNull(meta, "needs_ocr_reasons"), rt.numText))
    case Mtime =>
      var mtime := GetOrNull(meta, "file_mtime");
      if Truthy(mtime) then ParseDate(mtime, rt) else Null
  }

  /** The entries of `layout`, in order, with their values for the result and its metadata. */
  function LogRow(layout: seq<(string, LogSource)>, result: Fields, meta: Fields, rt: LoaderRuntime): (r: Fields)
    ensures |r| == |layout|
    ensures forall i :: 0 <= i < |r| ==> r[i] == (layout[i].0, LogValue(layout[i].1, result, meta, rt))
    decreases |layout|
  {
    if layout == [] then []
    else
      var last := layout[|layout| - 1];
      LogRow(layout[..|layout| - 1], result, meta, rt) + [(last.0, LogValue(last.1, result, meta, rt))]
  }

  /** The `log_data` dict of `log_extraction`. */
  function LogRecord(result: Fields, meta: Fields, rt: LoaderRuntime): Fields {
    LogRow(LogLayout, result, meta, rt)
  }

  /** The contract number `load_extraction_result` uses: the data's own, else the one inferred from the path. */
  function ContractNumberOf(result: Fields, data: Fields, rt: LoaderRuntime): (r: Result<Option<string>>)
    ensures Truthy(GetOrNull(data, "contract_number")) ==>
      r == Ok(NormalizeContractNumber(GetOrNull(data, "contract_number"), rt.numText))
    ensures !Truthy(GetOrNull(data, "contract_number")) ==>
      r == match InferContractNumber(GetOrNull(result, "file_path"))
           case Raised(e) => Raised(e)
           case Ok(n) => Ok(NormalizeContractNumber(OptStr(n), rt.numText))
  {
    var given := GetOrNull(data, "contract_number");
    if Truthy(given) then Ok(NormalizeContractNumber(given, rt.numText))
    else match InferContractNumber(GetOrNull(result, "file_path"))
      case Raised(e) => Raised(e)
      case Ok(n) => Ok(NormalizeContractNumber(OptStr(n), rt.numText))
  }

  /** The dict `load_extraction_result` hands to `load_contract`. */
  function ContractRecord(result: Fields, data: Fields, meta: Fields, number: Option<string>,
                          rt: LoaderRuntime): Fields
  {
    var mtime := GetOrNull(meta, "file_mtime");
    Entries(ContractRecordKeys,
      [OptStr(number),
       GetOrNull(data, "wbs_element"),
       GetOrNull(data, "counties"),
       GetOrNull(data, "description"),
       ParseDate(GetOrNull(data, "date_available"), rt),
       ParseDate(GetOrNull(data, "completion_date"), rt),
       GetOrNull(data, "mbe_goal"),
       GetOrNull(data, "wbe_goal"),
       GetOrNull(data, "combined_goal"),
       ParseDate(GetOrNull(data, "bid_opening_date"), rt),
       GetOrNull(data, "proposal_length"),
       GetOrNull(data, "type_of_work"),
       GetOrNull(data, "location"),
       GetOrNull(data, "estimated_cost"),
       GetOrNull(data, "awarded_amount"),
       GetOrNull(data, "awarded_to"),
       ParseDate(GetOrNull(data, "award_date"), rt),
       GetOrNull(result, "file_path"),
       GetOrNull(meta, "file_hash"),
       if Truthy(mtime) then ParseDate(mtime, rt) else Null,
       GetOrNull(meta, "run_id")])
  }

  /** The contract dict carries the number it was given under `contract_number`. */
  lemma ContractRecordNumber(result: Fields, data: Fields, meta: Fields, number: Option<string>, rt: LoaderRuntime)
    ensures GetOrNull(ContractRecord(result, data, meta, number, rt), "contract_number") == OptStr(number)
  {
    var r := ContractRecord(result, data, meta, number, rt);
    assert r[0] == ("contract_number", OptStr(number));
  }

  /** As declared, the Contract class has no `source_file_hash`, so a new contract is never created. */
  lemma DeclaredContractRejects(result: Fields, data: Fields, meta: Fields, number: Option<string>, rt: LoaderRuntime)
    ensures !Accepts(DeclaredColumns.contract, ContractRecord(result, data, meta, number, rt))
  {
    var r := ContractRecord(result, data, meta, number, rt);
    assert r[18].0 == ContractRecordKeys[18];
    ContractKeysUndeclared();
  }

  /** With the columns the migrations create, the Contract class takes every key of the contract dict. */
  lemma MigratedContractAccepts(result: Fields, data: Fields, meta: Fields, number: Option<string>, rt: LoaderRuntime)
    ensures Accepts(MigratedColumns.contract, ContractRecord(result, data, meta, number, rt))
  {
    var r := ContractRecord(result, data, meta, number, rt);
    AcceptsEntries(MigratedColumns.contract, ContractRecordKeys, ValuesOf(r));
    RecordKeysMigrated();
    assert Entries(ContractRecordKeys, ValuesOf(r)) == r;
  }

  /** As declared, `load_contract` rolls back every contract record whose number is not stored yet. */
  lemma DeclaredNewContractFails(rows: seq<ContractRow>, nextId: nat, result: Fields, data: Fields, meta: Fields,
                                 number: string, rt: LoaderRuntime)
    requires number != "" && FindContract(rows, Str(number)).None?
    ensures var r := LoadContractSpec(rows, nextId, ContractRecord(result, data, meta, Some(number), rt),
                                      DeclaredColumns.contract, false);
      r.contract.None? && r.txn == RolledBack && r.rows == rows
  {
    ContractRecordNumber(result, data, meta, Some(number), rt);
    DeclaredContractRejects(result, data, meta, Some(number), rt);
  }

  /** With the migrated columns, the same record becomes a new contract under the next id. */
  lemma MigratedNewContractLoads(rows: seq<ContractRow>, nextId: nat, result: Fields, data: Fields, meta: Fields,
                                 number: string, rt: LoaderRuntime)
    requires number != "" && FindContract(rows, Str(number)).None?
    ensures var rec := ContractRecord(result, data, meta, Some(number), rt);
      var r := LoadContractSpec(rows, nextId, rec, MigratedColumns.contract, false);
      r.contract == Some(ContractRow(nextId, rec)) && r.rows == rows + [ContractRow(nextId, rec)] && r.txn == Committed
  {
    ContractRecordNumber(result, data, meta, Some(number), rt);
    MigratedContractAccepts(result, data, meta, Some(number), rt);
  }

  /** As declared, ExtractionLog has no `ocr_applied`, so no log row is ever written. */
  lemma DeclaredLogRejects(result: Fields, meta: Fields, rt: LoaderRuntime)
    ensures !Accepts(DeclaredColumns.log, LogRecord(result, meta, rt))
  {
    var r := LogRecord(result, meta, rt);
    assert r[8].0 == LogLayout[8].0;
    LogKeysUndeclared();
  }

  /** With the columns the migrations create, ExtractionLog takes every key of the log dict. */
  lemma MigratedLogAccepts(result: Fields, meta: Fields, rt: LoaderRuntime)
    ensures Accepts(MigratedColumns.log, LogRecord(result, meta, rt))
  {
    var r := LogRecord(result, meta, rt);
    RecordKeysMigrated();
    assert forall i :: 0 <= i < |r| ==> r[i].0 == LogLayout[i].0;
  }

  /** `load_extraction_result` goes past the log only for a success or partial result that has data. */
  predicate Loadable(result: Fields) {
    (GetOrNull(result, "status") == Str("success") || GetOrNull(result, "status") == Str("partial"))
    && HasKey(result, "data")
  }

  /** What `log_extraction` leaves in the log table, and what it did with the session. */
  function LogOutcome(logs: seq<Fields>, result: Fields, attributes: set<string>, commitFails: bool,
                      rt: LoaderRuntime): (r: (seq<Fields>, Txn))
    ensures r.1 != Untouched
    ensures r.1 == Committed <==> !commitFails && Metadata(result).Ok? && Accepts(attributes, LogRecord(result, Metadata(result).value, rt))
    ensures r.0 == if r.1 == Committed then logs + [LogRecord(result, Metadata(result).value, rt)] else logs
  {
    match Metadata(result)
    case Raised(_) => (logs, RolledBack)
    case Ok(meta) =>
      var row := LogRecord(result, meta, rt);
      if Accepts(attributes, row) && !commitFails then (logs + [row], Committed) else (logs, RolledBack)
  }

  /** The loader's counts of `load_batch`. */
  datatype BatchSummary = BatchSummary(total: nat, successful: nat, failed: nat)

  /** The state of the database: its committed rows, the rows pending in the session and the next contract id. */
  datatype Store = Store(contracts: seq<ContractRow>, bidders: seq<Fields>, bidItems: seq<Fields>, logs: seq<Fields>,
                         pendingBidders: seq<Fields>, pendingItems: seq<Fields>, nextId: nat)

  /** The store after the session did `t`: a rollback drops the pending rows, a commit stores them. */
  function Settle(s: Store, t: Txn): Store {
    match t
    case Untouched => s
    case RolledBack => s.(pendingBidders := [], pendingItems := [])
    case Committed =>
      s.(bidders := s.bidders + s.pendingBidders, bidItems := s.bidItems + s.pendingItems,
         pendingBidders := [], pendingItems := [])
  }

  /** `log_extraction` on the store: the log row and what became of the session. */
  function LogSpec(s: Store, result: Fields, cols: Columns, commitFails: bool, rt: LoaderRuntime): Store
  {
    var o := LogOutcome(s.logs, result, cols.log, commitFails, rt);
    Settle(s.(logs := o.0), o.1)
  }

  /**
   * What logging does to the store: the contracts stay; its commit also stores the bidder and bid
   * item rows an earlier load left pending, and its rollback drops them.
   */
  lemma LogSpecEffect(s: Store, result: Fields, cols: Columns, commitFails: bool, rt: LoaderRuntime)
    ensures var r := LogSpec(s, result, cols, commitFails, rt);
      && r.contracts == s.contracts && r.nextId == s.nextId
      && r.logs == LogOutcome(s.logs, result, cols.log, commitFails, rt).0
      && r.pendingBidders == [] && r.pendingItems == []
      && r.bidders == s.bidders + (if |r.logs| > |s.logs| then s.pendingBidders else [])
      && r.bidItems == s.bidItems + (if |r.logs| > |s.logs| then s.pendingItems else [])
  {
  }

  /** `load_contract` on the store: the contract it returns is the one it stored. */
  function ContractSpec(s: Store, data: Fields, cols: Columns, commitFails: bool): (r: (Store, Option<ContractRow>))
    ensures r.0.logs == s.logs
    ensures r.1.Some? ==> r.1.value in r.0.contracts && r.0.pendingBidders == [] && r.0.pendingItems == []
    ensures r.1.None? ==> r.0.contracts == s.contracts && r.0.nextId == s.nextId
                          && r.0.bidders == s.bidders && r.0.bidItems == s.bidItems
  {
    var c := LoadContractSpec(s.contracts, s.nextId, data, cols.contract, commitFails);
    (Settle(s.(contracts := c.rows, nextId := c.nextId), c.txn), c.contract)
  }

  /**
   * `load_bidders` (`asBidders`) or `load_bid_items` on `data[key]`, which may be any value: a
   * non-list raises before anything is staged; otherwise the rows of the leading dicts are staged,
   * and go to the table with one commit unless a later element is not a dict.
   */
  function ListSpec(s: Store, contractId: int, v: Value, asBidders: bool, cols: Columns, commitFails: bool,
                    rt: LoaderRuntime): (Store, Result<nat>)
  {
    if !v.List? then (s, Raised(NoGetError))
    else
      var n := LeadingDicts(v.items);
      var added := if asBidders
        then BidderPlan(v.items[..n], contractId, KnownKeys(s.bidders, s.pendingBidders, contractId, rt),
                        cols.bidder, KeyWith(rt.numText)).rows
        else ItemRows(v.items[..n], contractId, cols.item);
      var staged := if asBidders then s.(pendingBidders := s.pendingBidders + added)
                    else s.(pendingItems := s.pendingItems + added);
      if n < |v.items| then (staged, Raised(NoGetError))
      else if commitFails then (Settle(staged, RolledBack), Ok(0))
      else (Settle(staged, Committed), Ok(|added|))
  }

  /**
   * What loading a list does to the store: the contracts and the log stay; a raise or a failed
   * commit stores no row; a commit stores the pending rows and the ones the load counts.
   */
  lemma ListSpecEffect(s: Store, contractId: int, v: Value, asBidders: bool, cols: Columns, commitFails: bool,
                       rt: LoaderRuntime)
    ensures var r := ListSpec(s, contractId, v, asBidders, cols, commitFails, rt);
      && r.0.contracts == s.contracts && r.0.nextId == s.nextId && r.0.logs == s.logs
      && (r.1.Raised? <==> !v.List? || LeadingDicts(v.items) < |v.items|)
      && (r.1.Raised? ==> r.0.bidders == s.bidders && r.0.bidItems == s.bidItems)
      && (commitFails ==> r.0.bidders == s.bidders && r.0.bidItems == s.bidItems)
      && (commitFails && r.1.Ok? ==> r.1.value == 0)
      && (r.1.Ok? && !commitFails ==>
            |r.0.bidders| + |r.0.bidItems| == |s.bidders| + |s.pendingBidders| + |s.bidItems| + |s.pendingItems| + r.1.value)
  {
  }

  /**
   * `load_extraction_result` on the store. A result that is not a success or partial with data is
   * only logged; one that is loads its contract and, when that gives a contract, its bidders and
   * bid items.
   */
  function ResultSpec(s: Store, result: Value, cols: Columns, commitFails: bool, rt: LoaderRuntime)
    : (r: (Store, Result<bool>))
    ensures r.1.Raised? <==> !result.Obj?
  {
    if !result.Obj? then (Settle(s, RolledBack), Raised(NoGetError))
    else
      var logged := LogSpec(s, result.fields, cols, commitFails, rt);
      var data := GetOrNull(result.fields, "data");
      var meta := Metadata(result.fields);
      if !Loadable(result.fields) then (logged, Ok(true))
      else if meta.Raised? || !data.Obj? then (logged, Ok(false))
      else
        var number := ContractNumberOf(result.fields, data.fields, rt);
        if number.Raised? then (logged, Ok(false))
        else
          var (s2, contract) := ContractSpec(logged, ContractRecord(result.fields, data.fields, meta.value, number.value, rt),
                                             cols, commitFails);
          if contract.None? then (s2, Ok(false))
          else
            var bs := GetOrNull(data.fields, "bidders");
            var (s3, b) := if Truthy(bs) then ListSpec(s2, contract.value.id, bs, true, cols, commitFails, rt) else (s2, Ok(0));
            if b.Raised? then (s3, Ok(false))
            else
              var items := GetOrNull(data.fields, "bid_items");
              var (s4, t) := if Truthy(items) then ListSpec(s3, contract.value.id, items, false, cols, commitFails, rt)
                             else (s3, Ok(0));
              (s4, Ok(t.Ok?))
  }

  /**
   * What loading one result does to the store: a result that is not a success or partial with
   * data, or whose data is no dict, is only logged; otherwise the contracts are those
   * `load_contract` leaves; a failed commit stores nothing but the failure.
   */
  lemma ResultSpecEffect(s: Store, result: Value, cols: Columns, commitFails: bool, rt: LoaderRuntime)
    ensures var r := ResultSpec(s, result, cols, commitFails, rt);
      && (!result.Obj? ==> r.0 == Settle(s, RolledBack))
      && (result.Obj? ==> r.0.logs == LogOutcome(s.logs, result.fields, cols.log, commitFails, rt).0)
      && (result.Obj? && !Loadable(result.fields) ==>
         r == (LogSpec(s, result.fields, cols, commitFails, rt), Ok(true)))
      && (result.Obj? && Loadable(result.fields) && !(Metadata(result.fields).Ok? && GetOrNull(result.fields, "data").Obj?)
         ==> r == (LogSpec(s, result.fields, cols, commitFails, rt), Ok(false)))
      && (result.Obj? && Loadable(result.fields) && Metadata(result.fields).Ok? && GetOrNull(result.fields, "data").Obj? ==>
         var data := GetOrNull(result.fields, "data").fields;
         var number := ContractNumberOf(result.fields, data, rt);
         (number.Raised? ==> r == (LogSpec(s, result.fields, cols, commitFails, rt), Ok(false)))
         && (number.Ok? ==>
               var c := LoadContractSpec(s.contracts, s.nextId,
                                         ContractRecord(result.fields, data, Metadata(result.fields).value, number.value, rt),
                                         cols.contract, commitFails);
               r.0.contracts == c.rows && r.0.nextId == c.nextId && (c.contract.None? ==> r.1 == Ok(false))))
      && (commitFails ==>
         r.0.contracts == s.contracts && r.0.nextId == s.nextId && r.0.bidders == s.bidders && r.0.bidItems == s.bidItems
         && (result.Obj? && Loadable(result.fields) ==> r.1 == Ok(false)))
  {
    if result.Obj? {
      LogSpecEffect(s, result.fields, cols, commitFails, rt);
    }
    if result.Obj? && Loadable(result.fields) && Metadata(result.fields).Ok? && GetOrNull(result.fields, "data").Obj? {
      var data := GetOrNull(result.fields, "data").fields;
      var number := ContractNumberOf(result.fields, data, rt);
      if number.Ok? {
        var logged := LogSpec(s, result.fields, cols, commitFails, rt);
        var (s2, contract) := ContractSpec(logged, ContractRecord(result.fields, data, Metadata(result.fields).value, number.value, rt),
                                           cols, commitFails);
        if contract.Some? {
          var bs := GetOrNull(data, "bidders");
          if Truthy(bs) {
            ListSpecEffect(s2, contract.value.id, bs, true, cols, commitFails, rt);
          }
          var s3 := if Truthy(bs) then ListSpec(s2, contract.value.id, bs, true, cols, commitFails, rt).0 else s2;
          var items := GetOrNull(data, "bid_items");
          if Truthy(items) {
            ListSpecEffect(s3, contract.value.id, items, false, cols, commitFails, rt);
          }
        }
      }
    }
  }

  /** The batch has stopped: its last outcome is raised. */
  predicate Stopped(outs: seq<Result<bool>>) {
    outs != [] && outs[|outs| - 1].Raised?
  }

  /** A success or partial result with data whose contract number is none is a failure. */
  lemma ResultSpecNoNumber(s: Store, result: Value, cols: Columns, commitFails: bool, rt: LoaderRuntime)
    requires result.Obj? && Loadable(result.fields) && Metadata(result.fields).Ok? && GetOrNull(result.fields, "data").Obj?
    requires ContractNumberOf(result.fields, GetOrNull(result.fields, "data").fields, rt) == Ok(None)
    ensures ResultSpec(s, result, cols, commitFails, rt).1 == Ok(false)
  {
    var data := GetOrNull(result.fields, "data").fields;
    ContractRecordNumber(result.fields, data, Metadata(result.fields).value, None, rt);
  }

  /** One load of a batch: the store it leaves and its outcome. */
  type Step = (Store, Value) -> (Store, Result<bool>)

  /** The step of `load_batch`: `load_extraction_result` on the store. */
  function ResultStep(cols: Columns, commitFails: bool, rt: LoaderRuntime): Step {
    (s: Store, v: Value) => ResultSpec(s, v, cols, commitFails, rt)
  }

  /**
   * A batch of `step`: the outcome of each result in turn, each load seeing the store the previous
   * one left; the first raised outcome ends the batch.
   */
  function BatchRun(step: Step, s: Store, results: seq<Value>): (r: (Store, seq<Result<bool>>))
    ensures |r.1| <= |results|
    decreases |results|
  {
    if results == [] then (s, [])
    else
      var before := BatchRun(step, s, results[..|results| - 1]);
      if Stopped(before.1) then before
      else
        var next := step(before.0, results[|results| - 1]);
        (next.0, before.1 + [next.1])
  }

  /** A batch that has not stopped goes on with the step on its last store. */
  lemma BatchRunAppend(step: Step, s: Store, results: seq<Value>, v: Value)
    ensures var b := BatchRun(step, s, results);
      !Stopped(b.1) ==> BatchRun(step, s, results + [v]) == (step(b.0, v).0, b.1 + [step(b.0, v).1])
  {
    assert (results + [v])[..|results|] == results;
  }

  /** Once a batch has stopped, the results after it change nothing. */
  lemma {:induction false} BatchRunStopped(step: Step, s: Store, results: seq<Value>, k: nat)
    requires k <= |results|
    ensures Stopped(BatchRun(step, s, results[..k]).1) ==> BatchRun(step, s, results) == BatchRun(step, s, results[..k])
    decreases |results|
  {
    if k < |results| {
      var init := results[..|results| - 1];
      assert init[..k] == results[..k];
      BatchRunStopped(step, s, init, k);
    } else {
      assert results[..k] == results;
    }
  }

  /** A batch that gives fewer outcomes than it has results stopped on a raise. */
  lemma {:induction false} BatchRunShort(step: Step, s: Store, results: seq<Value>)
    ensures var r := BatchRun(step, s, results); |r.1| < |results| ==> Stopped(r.1)
    decreases |results|
  {
    if results != [] {
      BatchRunShort(step, s, results[..|results| - 1]);
    }
  }

  /** One more load carries a prefix of the batch forward. */
  lemma BatchRunStep(step: Step, s0: Store, results: seq<Value>, i: nat, outs: seq<Result<bool>>, before: Store,
                     after: Store, ok: Result<bool>)
    requires i < |results| && BatchRun(step, s0, results[..i]) == (before, outs) && !Stopped(outs)
    requires step(before, results[i]) == (after, ok)
    ensures BatchRun(step, s0, results[..i + 1]) == (after, outs + [ok])
  {
    BatchRunAppend(step, s0, results[..i], results[i]);
    assert results[..i] + [results[i]] == results[..i + 1];
  }

  /** A prefix that covers the whole batch is the batch. */
  lemma BatchRunWhole(step: Step, s0: Store, results: seq<Value>, s: Store, outs: seq<Result<bool>>)
    requires BatchRun(step, s0, results[..|results|]) == (s, outs)
    ensures BatchRun(step, s0, results) == (s, outs)
  {
    assert results[..|results|] == results;
  }

  /**
   * When a step raises exactly on a result that is not a dict, the batch has one outcome per
   * result up to the first that is not a dict, which raises and is the last; when every result is
   * a dict, every result has its outcome.
   */
  lemma {:induction false} BatchRunOutcomes(step: Step, s: Store, results: seq<Value>)
    requires forall t: Store, v: Value :: step(t, v).1.Raised? <==> !v.Obj?
    ensures var r := BatchRun(step, s, results);
      (forall i :: 0 <= i < |r.1| ==> (r.1[i].Raised? <==> !results[i].Obj?))
      && (|r.1| < |results| ==> Stopped(r.1))
      && ((forall i :: 0 <= i < |results| ==> results[i].Obj?) ==> |r.1| == |results|)
    decreases |results|
  {
    if results != [] {
      var init := results[..|results| - 1];
      BatchRunOutcomes(step, s, init);
      var before := BatchRun(step, s, init);
      assert forall i :: 0 <= i < |init| ==> init[i] == results[i];
      if !Stopped(before.1) {
        assert |before.1| == |init|;
      }
    }
  }

  /**
   * When a step raises exactly on a result that is not a dict, a batch that gives every result
   * its outcome without stopping saw only dicts.
   */
  lemma {:induction false} BatchRunCompletes(step: Step, s: Store, results: seq<Value>)
    requires forall t: Store, v: Value :: step(t, v).1.Raised? <==> !v.Obj?
    ensures var r := BatchRun(step, s, results);
      |r.1| == |results| && !Stopped(r.1) ==> forall i :: 0 <= i < |results| ==> results[i].Obj?
    decreases |results|
  {
    if results != [] {
      var init := results[..|results| - 1];
      BatchRunCompletes(step, s, init);
      var before := BatchRun(step, s, init);
      var r := BatchRun(step, s, results);
      if |r.1| == |results| && !Stopped(r.1) {
        assert !Stopped(before.1);
        assert forall i :: 0 <= i < |init| ==> init[i] == results[i];
      }
    }
  }

  /** Each load of `load_batch` raises exactly on a result that is not a dict. */
  lemma ResultStepRaises(cols: Columns, commitFails: bool, rt: LoaderRuntime)
    ensures forall t: Store, v: Value :: ResultStep(cols, commitFails, rt)(t, v).1.Raised? <==> !v.Obj?
  {
  }

  /**
   * When every step keeps the contracts, bidders and bid items and fails on every success or
   * partial result, so does the batch.
   */
  lemma {:induction false} BatchKeepsRows(step: Step, fails: Value -> bool, s: Store, results: seq<Value>)
    requires forall t: Store, v: Value ::
      var n := step(t, v);
      n.0.contracts == t.contracts && n.0.bidders == t.bidders && n.0.bidItems == t.bidItems
      && (fails(v) ==> n.1 == Ok(false))
    ensures var r := BatchRun(step, s, results);
      r.0.contracts == s.contracts && r.0.bidders == s.bidders && r.0.bidItems == s.bidItems
      && forall i :: 0 <= i < |r.1| && fails(results[i]) ==> r.1[i] == Ok(false)
    decreases |results|
  {
    if results != [] {
      var init := results[..|results| - 1];
      BatchKeepsRows(step, fails, s, init);
      var before := BatchRun(step, s, init);
      BatchRunShort(step, s, init);
      if !Stopped(before.1) {
        var v := results[|results| - 1];
        var next := step(before.0, v);
        var outs := before.1 + [next.1];
        assert BatchRun(step, s, results) == (next.0, outs);
        forall i | 0 <= i < |outs| && fails(results[i])
          ensures outs[i] == Ok(false)
        {
          if i < |before.1| {
            assert outs[i] == before.1[i] && init[i] == results[i];
          } else {
            assert outs[i] == next.1 && results[i] == v;
          }
        }
      }
    }
  }

  /**
   * When every commit fails, a batch of `load_batch` stores no contract, bidder or bid item, and
   * every success or partial result counts as a failure.
   */
  lemma BatchCommitFails(s: Store, results: seq<Value>, cols: Columns, rt: LoaderRuntime)
    ensures var r := BatchRun(ResultStep(cols, true, rt), s, results);
      r.0.contracts == s.contracts && r.0.bidders == s.bidders && r.0.bidItems == s.bidItems
      && forall i :: 0 <= i < |r.1| && results[i].Obj? && Loadable(results[i].fields) ==> r.1[i] == Ok(false)
  {
    var step := ResultStep(cols, true, rt);
    var fails := (v: Value) => v.Obj? && Loadable(v.fields);
    forall t: Store, v: Value
      ensures var n := step(t, v);
        n.0.contracts == t.contracts && n.0.bidders == t.bidders && n.0.bidItems == t.bidItems
        && (fails(v) ==> n.1 == Ok(false))
    {
      ResultSpecEffect(t, v, cols, true, rt);
    }
    BatchKeepsRows(step, fails, s, results);
  }

  /** How many of the outcomes are `Ok(b)`. */
  function CountOutcome(outs: seq<Result<bool>>, b: bool): (r: nat)
    ensures r <= |outs|
  {
    if outs == [] then 0
    else CountOutcome(outs[..|outs| - 1], b) + (if outs[|outs| - 1] == Ok(b) then 1 else 0)
  }

  /** Every outcome that is not raised is counted once, as a success or as a failure. */
  lemma {:induction false} CountOutcomeSplit(outs: seq<Result<bool>>)
    requires forall i :: 0 <= i < |outs| ==> outs[i].Ok?
    ensures CountOutcome(outs, true) + CountOutcome(outs, false) == |outs|
  {
    if outs != [] {
      var prefix := outs[..|outs| - 1];
      assert forall i :: 0 <= i < |prefix| ==> prefix[i] == outs[i];
      CountOutcomeSplit(prefix);
      var last := outs[|outs| - 1];
      if last.value {
        assert last == Ok(true) && last != Ok(false);
      } else {
        assert last == Ok(false) && last != Ok(true);
      }
    }
  }

  /** Outcomes that are all failures wherever the result is loadable count no success when every result is. */
  lemma {:induction false} FailuresCountNoSuccess(outs: seq<Result<bool>>, results: seq<Value>)
    requires |outs| <= |results|
    requires forall i :: 0 <= i < |outs| && results[i].Obj? && Loadable(results[i].fields) ==> outs[i] == Ok(false)
    ensures (forall i :: 0 <= i < |results| ==> results[i].Obj? && Loadable(results[i].fields)) ==> CountOutcome(outs, true) == 0
  {
    if outs != [] && forall i :: 0 <= i < |results| ==> results[i].Obj? && Loadable(results[i].fields) {
      var prefix := outs[..|outs| - 1];
      assert forall i :: 0 <= i < |prefix| ==> prefix[i] == outs[i];
      FailuresCountNoSuccess(prefix, results);
      assert outs[|outs| - 1] == Ok(false);
    }
  }

  /**
   * What `load_batch` promises of its run: it stops exactly when some result is not a dict;
   * otherwise every result has one outcome, counted once as a success or a failure, and with
   * failing commits no success or partial result counts as a success.
   */
  lemma BatchRunSummary(s: Store, results: seq<Value>, cols: Columns, commitFails: bool, rt: LoaderRuntime)
    ensures var run := BatchRun(ResultStep(cols, commitFails, rt), s, results);
      && (!Stopped(run.1) <==> forall i :: 0 <= i < |results| ==> results[i].Obj?)
      && (!Stopped(run.1) ==> |run.1| == |results| && CountOutcome(run.1, true) + CountOutcome(run.1, false) == |results|)
      && (!Stopped(run.1) && commitFails && (forall i :: 0 <= i < |results| ==> Loadable(results[i].fields))
          ==> CountOutcome(run.1, true) == 0)
  {
    var step := ResultStep(cols, commitFails, rt);
    var run := BatchRun(step, s, results);
    ResultStepRaises(cols, commitFails, rt);
    BatchRunOutcomes(step, s, results);
    BatchRunCompletes(step, s, results);
    if forall i :: 0 <= i < |results| ==> results[i].Obj? {
      assert |run.1| == |results|;
      assert forall i :: 0 <= i < |run.1| ==> run.1[i].Ok?;
      if run.1 != [] {
        assert !run.1[|run.1| - 1].Raised?;
      }
      CountOutcomeSplit(run.1);
      if commitFails {
        BatchCommitFails(s, results, cols, rt);
        FailuresCountNoSuccess(run.1, results);
      }
    }
  }

  /** Counting one more outcome. */
  lemma CountOutcomeAppend(outs: seq<Result<bool>>, o: Result<bool>, b: bool)
    ensures CountOutcome(outs + [o], b) == CountOutcome(outs, b) + (if o == Ok(b) then 1 else 0)
  {
    assert (outs + [o])[..|outs|] == outs;
  }

  /**
   * The database behind the loader's session: the committed rows of the four tables, the bidder
   * and bid item rows added to the session and not yet committed, and whether commits fail.
   */
  class Database {
    var contracts: seq<ContractRow>
    var bidders: seq<Fields>
    var bidItems: seq<Fields>
    var logs: seq<Fields>
    var pendingBidders: seq<Fields>
    var pendingItems: seq<Fields>
    var nextId: nat
    const commitFails: bool
    const columns: Columns
    const rt: LoaderRuntime

    /** An empty database whose ORM classes have the given attributes. */
    constructor (columns: Columns, commitFails: bool, rt: LoaderRuntime)
      ensures this.columns == columns && this.commitFails == commitFails && this.rt == rt
      ensures contracts == [] && bidders == [] && bidItems == [] && logs == [] && nextId == 1
      ensures pendingBidders == [] && pendingItems == []
    {
      this.columns := columns;
      this.commitFails := commitFails;
      this.rt := rt;
      contracts := [];
      bidders := [];
      bidItems := [];
      logs := [];
      pendingBidders := [];
      pendingItems := [];
      nextId := 1;
    }

    /** The store this database holds. */
    function State(): Store
      reads this
    {
      Store(contracts, bidders, bidItems, logs, pendingBidders, pendingItems, nextId)
    }

    /**
     * The bidder and bid item tables after the session did `t`: a rollback drops the pending
     * rows, a commit stores them.
     */
    ghost predicate Settled(t: Txn, b0: seq<Fields>, pb0: seq<Fields>, i0: seq<Fields>, pi0: seq<Fields>)
      reads this
    {
      match t
      case Untouched => bidders == b0 && bidItems == i0 && pendingBidders == pb0 && pendingItems == pi0
      case RolledBack => bidders == b0 && bidItems == i0 && pendingBidders == [] && pendingItems == []
      case Committed => bidders == b0 + pb0 && bidItems == i0 + pi0 && pendingBidders == [] && pendingItems == []
    }

    /** `session.commit()`, or the rollback of the handler around it when it fails. */
    method Commit() returns (ok: bool)
      modifies this
      ensures ok == !commitFails
      ensures Settled(if ok then Committed else RolledBack, old(bidders), old(pendingBidders), old(bidItems), old(pendingItems))
      ensures contracts == old(contracts) && nextId == old(nextId) && logs == old(logs)
      ensures State() == Settle(old(State()), if ok then Committed else RolledBack)
    {
      if commitFails {
        Rollback();
        return false;
      }
      bidders := bidders + pendingBidders;
      bidItems := bidItems + pendingItems;
      pendingBidders := [];
      pendingItems := [];
      return true;
    }

    /** `session.rollback()`: the pending rows are dropped. */
    method Rollback()
      modifies this
      ensures Settled(RolledBack, old(bidders), old(pendingBidders), old(bidItems), old(pendingItems))
      ensures contracts == old(contracts) && nextId == old(nextId) && logs == old(logs)
      ensures State() == Settle(old(State()), RolledBack)
    {
      pendingBidders := [];
      pendingItems := [];
    }

    /** `load_contract`, on the table of contracts. */
    method LoadContract(data: Fields) returns (contract: Option<ContractRow>)
      modifies this
      ensures var r := LoadContractSpec(old(contracts), old(nextId), data, columns.contract, commitFails);
        contract == r.contract && contracts == r.rows && nextId == r.nextId
        && Settled(r.txn, old(bidders), old(pendingBidders), old(bidItems), old(pendingItems))
      ensures logs == old(logs)
      ensures var x := ContractSpec(old(State()), data, columns, commitFails); State() == x.0 && contract == x.1
    {
      var number := GetOrNull(data, "contract_number");
      if !Truthy(number) {
        return None;
      }
      var found := FindContract(contracts, number);
      var row: ContractRow;
      if found.Some? {
        var fields := UpdateFields(contracts[found.value].fields, data, columns.contract);
        row := ContractRow(contracts[found.value].id, fields);
      } else {
        if !Accepts(columns.contract, data) {
          Rollback();
          return None;
        }
        row := ContractRow(nextId, data);
      }
      var ok := Commit();
      if !ok {
        return None;
      }
      if found.Some? {
        contracts := contracts[found.value := row];
      } else {
        contracts := contracts + [row];
        nextId := nextId + 1;
      }
      return Some(row);
    }

    /**
     * `load_bidders`: each dict gets `contract_id` and, unless its key is known or pending or the
     * class refuses it, goes into the session; then one commit. A bidder that is not a dict makes
     * the error handler itself raise, which leaves the rows added so far pending.
     */
    method LoadBidders(contractId: int, bs: array<Value>) returns (r: Result<nat>)
      modifies this, bs
      ensures bs[..] == TagLeading(old(bs[..]), LeadingDicts(old(bs[..])), contractId)
      ensures var p := BidderPlan(old(bs[..])[..LeadingDicts(old(bs[..]))], contractId,
                                  KnownKeys(old(bidders), old(pendingBidders), contractId, rt), columns.bidder, KeyWith(rt.numText));
        if LeadingDicts(old(bs[..])) < bs.Length then
          r.Raised? && Settled(Untouched, old(bidders), old(pendingBidders) + p.rows, old(bidItems), old(pendingItems))
        else if commitFails then
          r == Ok(0) && Settled(RolledBack, old(bidders), old(pendingBidders), old(bidItems), old(pendingItems))
        else
          r == Ok(|p.rows|) && Settled(Committed, old(bidders), old(pendingBidders) + p.rows, old(bidItems), old(pendingItems))
      ensures contracts == old(contracts) && nextId == old(nextId) && logs == old(logs)
      ensures var x := ListSpec(old(State()), contractId, List(old(bs[..])), true, columns, commitFails, rt);
        State() == x.0 && r == x.1
    {
      var existing := KnownKeys(bidders, pendingBidders, contractId, rt);
      var plan, complete := StageBidders(contractId, bs, existing, KeyWith(rt.numText));
      if !complete {
        return Raised(NoGetError);
      }
      var ok := Commit();
      return if ok then Ok(|plan.rows|) else Ok(0);
    }

    /**
     * The loop of `load_bidders`, for the known keys `existing` and the key function `keyOf`: it
     * stops at the first bidder that is not a dict, and stages the rows of the dicts before it.
     */
    method StageBidders(contractId: int, bs: array<Value>, existing: set<string>, keyOf: Fields -> Result<string>)
      returns (plan: Plan, complete: bool)
      modifies this, bs
      ensures bs[..] == TagLeading(old(bs[..]), LeadingDicts(old(bs[..])), contractId)
      ensures complete <==> LeadingDicts(old(bs[..])) == bs.Length
      ensures plan == BidderPlan(old(bs[..])[..LeadingDicts(old(bs[..]))], contractId, existing, columns.bidder, keyOf)
      ensures Settled(Untouched, old(bidders), old(pendingBidders) + plan.rows, old(bidItems), old(pendingItems))
      ensures contracts == old(contracts) && nextId == old(nextId) && logs == old(logs)
      ensures State() == old(State()).(pendingBidders := old(pendingBidders) + plan.rows)
    {
      ghost var input := bs[..];
      plan := Plan([], {});
      var i := 0;
      while i < bs.Length
        invariant 0 <= i <= bs.Length
        invariant i <= LeadingDicts(input)
        invariant bs[..] == TagLeading(input, i, contractId)
        invariant plan == BidderPlan(input[..i], contractId, existing, columns.bidder, keyOf)
        invariant bidders == old(bidders) && pendingBidders == old(pendingBidders) + plan.rows
        invariant bidItems == old(bidItems) && pendingItems == old(pendingItems)
        invariant contracts == old(contracts) && nextId == old(nextId) && logs == old(logs)
      {
        var v := bs[i];
        TagLeadingAt(input, i, contractId, i);
        if !v.Obj? {
          return plan, false;
        }
        assert i < LeadingDicts(input);
        var row, key, staged := StageBidder(contractId, v, bs, i, existing, plan.keys, keyOf);
        BidderPlanStep(input, i, contractId, existing, columns.bidder, keyOf, row);
        if staged {
          plan := Plan(plan.rows + [row], plan.keys + {key.value});
        }
        i := i + 1;
      }
      assert input[..i] == input;
      return plan, true;
    }

    /**
     * One bidder dict of `load_bidders`: it gets `contract_id`, and goes into the session unless
     * its key fails, is known or is pending (`keys`), or the class refuses the row.
     */
    method StageBidder(contractId: int, v: Value, bs: array<Value>, i: nat, existing: set<string>, keys: set<string>,
                       keyOf: Fields -> Result<string>) returns (row: Fields, key: Result<string>, staged: bool)
      modifies this, bs
      requires v.Obj? && i < bs.Length
      ensures row == Put(v.fields, "contract_id", Num(contractId as real)) && key == keyOf(row)
      ensures staged == (key.Ok? && key.value !in existing && key.value !in keys && Accepts(columns.bidder, row))
      ensures bs[..] == old(bs[..])[i := Obj(row)]
      ensures pendingBidders == old(pendingBidders) + (if staged then [row] else [])
      ensures bidders == old(bidders) && bidItems == old(bidItems) && pendingItems == old(pendingItems)
      ensures contracts == old(contracts) && nextId == old(nextId) && logs == old(logs)
    {
      row := Put(v.fields, "contract_id", Num(contractId as real));
      key := keyOf(row);
      staged := key.Ok? && key.value !in existing && key.value !in keys && Accepts(columns.bidder, row);
      if staged {
        pendingBidders := pendingBidders + [row];
      }
      bs[i] := Obj(row);
    }

    /**
     * `load_bid_items`: each dict gets `contract_id` and goes into the session when the class
     * takes its keys; then one commit. A non-dict raises in the error handler, as for bidders.
     */
    method LoadBidItems(contractId: int, items: array<Value>) returns (r: Result<nat>)
      modifies this, items
      ensures items[..] == TagLeading(old(items[..]), LeadingDicts(old(items[..])), contractId)
      ensures var rows := ItemRows(old(items[..])[..LeadingDicts(old(items[..]))], contractId, columns.item);
        if LeadingDicts(old(items[..])) < items.Length then
          r.Raised? && Settled(Untouched, old(bidders), old(pendingBidders), old(bidItems), old(pendingItems) + rows)
        else if commitFails then
          r == Ok(0) && Settled(RolledBack, old(bidders), old(pendingBidders), old(bidItems), old(pendingItems))
        else
          r == Ok(|rows|) && Settled(Committed, old(bidders), old(pendingBidders), old(bidItems), old(pendingItems) + rows)
      ensures contracts == old(contracts) && nextId == old(nextId) && logs == old(logs)
      ensures var x := ListSpec(old(State()), contractId, List(old(items[..])), false, columns, commitFails, rt);
        State() == x.0 && r == x.1
    {
      var rows, complete := StageBidItems(contractId, items);
      if !complete {
        return Raised(NoGetError);
      }
      var ok := Commit();
      return if ok then Ok(|rows|) else Ok(0);
    }

    /** The loop of `load_bid_items`: it stops at the first item that is not a dict, and stages the rows of the dicts before it. */
    method StageBidItems(contractId: int, items: array<Value>) returns (rows: seq<Fields>, complete: bool)
      modifies this, items
      ensures items[..] == TagLeading(old(items[..]), LeadingDicts(old(items[..])), contractId)
      ensures complete <==> LeadingDicts(old(items[..])) == items.Length
      ensures rows == ItemRows(old(items[..])[..LeadingDicts(old(items[..]))], contractId, columns.item)
      ensures Settled(Untouched, old(bidders), old(pendingBidders), old(bidItems), old(pendingItems) + rows)
      ensures contracts == old(contracts) && nextId == old(nextId) && logs == old(logs)
      ensures State() == old(State()).(pendingItems := old(pendingItems) + rows)
    {
      ghost var input := items[..];
      rows := [];
      var i := 0;
      while i < items.Length
        invariant 0 <= i <= items.Length
        invariant i <= LeadingDicts(input)
        invariant items[..] == TagLeading(input, i, contractId)
        invariant rows == ItemRows(input[..i], contractId, columns.item)
        invariant bidders == old(bidders) && pendingBidders == old(pendingBidders)
        invariant bidItems == old(bidItems) && pendingItems == old(pendingItems) + rows
        invariant contracts == old(contracts) && nextId == old(nextId) && logs == old(logs)
      {
        var v := items[i];
        TagLeadingAt(input, i, contractId, i);
        if !v.Obj? {
          return rows, false;
        }
        assert i < LeadingDicts(input);
        var row, staged := StageBidItem(contractId, v, items, i);
        ItemRowsStep(input, i, contractId, columns.item, row);
        if staged {
          rows := rows + [row];
        }
        i := i + 1;
      }
      assert input[..i] == input;
      return rows, true;
    }

    /** One bid item dict of `load_bid_items`: it gets `contract_id` and goes into the session when the class takes its keys. */
    method StageBidItem(contractId: int, v: Value, items: array<Value>, i: nat) returns (row: Fields, staged: bool)
      modifies this, items
      requires v.Obj? && i < items.Length
      ensures row == Put(v.fields, "contract_id", Num(contractId as real)) && staged == Accepts(columns.item, row)
      ensures items[..] == old(items[..])[i := Obj(row)]
      ensures bidders == old(bidders) && pendingBidders == old(pendingBidders) && bidItems == old(bidItems)
      ensures pendingItems == old(pendingItems) + (if staged then [row] else [])
      ensures contracts == old(contracts) && nextId == old(nextId) && logs == old(logs)
    {
      row := Put(v.fields, "contract_id", Num(contractId as real));
      staged := Accepts(columns.item, row);
      if staged {
        pendingItems := pendingItems + [row];
      }
      items[i] := Obj(row);
    }

    /** `log_extraction`: one log row and a commit; a missing `get`, a refused key or a failed commit rolls back. */
    method LogExtraction(result: Fields)
      modifies this
      ensures var r := LogOutcome(old(logs), result, columns.log, commitFails, rt);
        logs == r.0 && Settled(r.1, old(bidders), old(pendingBidders), old(bidItems), old(pendingItems))
      ensures contracts == old(contracts) && nextId == old(nextId)
      ensures State() == LogSpec(old(State()), result, columns, commitFails, rt)
    {
      var meta := Metadata(result);
      if meta.Raised? {
        Rollback();
        return;
      }
      var row := LogRecord(result, meta.value, rt);
      if !Accepts(columns.log, row) {
        Rollback();
        return;
      }
      var ok := Commit();
      if ok {
        logs := logs + [row];
      }
    }

    /** `load_bidders` or `load_bid_items` on `data[key]`, which may be any value. */
    method LoadList(contractId: int, v: Value, asBidders: bool) returns (r: Result<nat>)
      modifies this
      ensures !v.List? ==> r.Raised? && Settled(Untouched, old(bidders), old(pendingBidders), old(bidItems), old(pendingItems))
      ensures v.List? && (forall i :: 0 <= i < |v.items| ==> v.items[i].Obj?) ==> r.Ok?
      ensures contracts == old(contracts) && nextId == old(nextId) && logs == old(logs)
      ensures var x := ListSpec(old(State()), contractId, v, asBidders, columns, commitFails, rt); State() == x.0 && r == x.1
    {
      if !v.List? {
        // a number is not iterable; the characters of a string and the keys of a dict are not dicts
        return Raised(NoGetError);
      }
      var a := new Value[|v.items|](i requires 0 <= i < |v.items| => v.items[i]);
      assert a[..] == v.items;
      if asBidders {
        r := LoadBidders(contractId, a);
      } else {
        r := LoadBidItems(contractId, a);
      }
    }

    /**
     * `load_extraction_result`: log the result; a result that is not a success or partial with
     * data is done; otherwise load its contract, then its bidders and bid items. An exception
     * gives False, except for a result that is not a dict: the handler's own `get` then raises.
     */
    method LoadExtractionResult(result: Value) returns (r: Result<bool>)
      modifies this
      ensures r.Raised? <==> !result.Obj?
      ensures var x := ResultSpec(old(State()), result, columns, commitFails, rt); State() == x.0 && r == x.1
    {
      if !result.Obj? {
        Rollback();
        return Raised(NoGetError);
      }
      LogExtraction(result.fields);
      if !Loadable(result.fields) {
        return Ok(true);
      }
      var data := GetOrNull(result.fields, "data");
      var meta := Metadata(result.fields);
      if meta.Raised? || !data.Obj? {
        return Ok(false);
      }
      var number := ContractNumberOf(result.fields, data.fields, rt);
      if number.Raised? {
        return Ok(false);
      }
      var contract := LoadContract(ContractRecord(result.fields, data.fields, meta.value, number.value, rt));
      if contract.None? {
        return Ok(false);
      }
      var bs := GetOrNull(data.fields, "bidders");
      if Truthy(bs) {
        var loaded := LoadList(contract.value.id, bs, true);
        if loaded.Raised? {
          return Ok(false);
        }
      }
      var items := GetOrNull(data.fields, "bid_items");
      if Truthy(items) {
        var loaded := LoadList(contract.value.id, items, false);
        if loaded.Raised? {
          return Ok(false);
        }
      }
      return Ok(true);
    }

    /** `load_batch`: every result is a success or a failure; a result that is not a dict stops the batch. */
    method LoadBatch(results: seq<Value>) returns (r: Result<BatchSummary>)
      modifies this
      ensures var run := BatchRun(ResultStep(columns, commitFails, rt), old(State()), results);
        State() == run.0 && (r.Raised? <==> Stopped(run.1))
        && (r.Ok? ==> r.value == BatchSummary(|results|, CountOutcome(run.1, true), CountOutcome(run.1, false)))
    {
      ghost var step := ResultStep(columns, commitFails, rt);
      ghost var outs: seq<Result<bool>> := [];
      var successful := 0;
      var failed := 0;
      var i := 0;
      while i < |results|
        invariant 0 <= i <= |results|
        invariant successful == CountOutcome(outs, true) && failed == CountOutcome(outs, false)
        invariant BatchRun(step, old(State()), results[..i]) == (State(), outs) && !Stopped(outs)
      {
        ghost var before := State();
        var ok := LoadExtractionResult(results[i]);
        BatchRunStep(step, old(State()), results, i, outs, before, State(), ok);
        if ok.Raised? {
          BatchRunStopped(step, old(State()), results, i + 1);
          return Raised(ok.error);
        }
        CountOutcomeAppend(outs, ok, true);
        CountOutcomeAppend(outs, ok, false);
        outs := outs + [ok];
        if ok.value {
          successful := successful + 1;
        } else {
          failed := failed + 1;
        }
        i := i + 1;
      }
      BatchRunWhole(step, old(State()), results, State(), outs);
      return Ok(BatchSummary(|results|, successful, failed));
    }
  }

  /** The `for key, value in data.items(): setattr(...)` loop of an update. */
  method UpdateFields(f: Fields, data: Fields, attributes: set<string>) returns (r: Fields)
    ensures r == ApplyUpdate(f, data, attributes)
  {
    r := f;
    var i := 0;
    while i < |data|
      invariant 0 <= i <= |data|
      invariant r == ApplyUpdate(f, data[..i], attributes)
    {
      assert data[..i + 1][..i] == data[..i];
      var (k, v) := data[i];
      if k in attributes && v != Null {
        r := Put(r, k, v);
      }
      i := i + 1;
    }
    assert data[..i] == data;
  }
}
