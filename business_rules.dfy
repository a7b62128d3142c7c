/**
 * The business-rule validator: award amount against the winning bid, bid items against bidder
 * totals, the order of the contract dates, MBE/WBE goal consistency, and the report combining
 * the four.
 *
 * Values are the JSON-like values of the extraction result. The Python primitives the rules
 * lean on are given as a `Runtime`: `str` of a float, `float` of a string, and
 * `datetime.fromisoformat`, which gives a point on a time line or None for text it rejects.
 * An exception the validator does not catch is a `Raised` result.
 */
module BusinessRules {
  import opened Wrappers
  import opened Values
  import Text

  /** Python's `str(x)` for a float, `float(s)` for a string, `datetime.fromisoformat(s)`. */
  datatype Runtime = Runtime(numText: real -> string, parseFloat: string -> Option<real>, parseDate: string -> Option<int>)

  /** The (is_valid, message) pair every rule returns. */
  datatype Check = Check(valid: bool, message: string)

  const NotIterableError := "object is not iterable"
  const NoGetError := "object has no attribute 'get'"
  const NoItemsError := "object has no attribute 'items'"
  const UnhashableError := "unhashable type"
  const FloatError := "could not convert to float"

  /** What `for x in v` visits: a list's items, a dict's keys, a string's characters. */
  function Iter(v: Value): (r: Result<seq<Value>>)
    ensures v.List? ==> r == Ok(v.items)
    ensures r.Ok? && v.Obj? ==> |r.value| == |v.fields| && forall i :: 0 <= i < |v.fields| ==> r.value[i] == Str(v.fields[i].0)
    ensures r.Ok? && v.Str? ==> |r.value| == |v.s| && forall i :: 0 <= i < |v.s| ==> r.value[i] == Str([v.s[i]])
    ensures r.Raised? <==> !(v.List? || v.Obj? || v.Str?)
  {
    match v
    case List(items) => Ok(items)
    case Obj(fields) => Ok(seq(|fields|, i requires 0 <= i < |fields| => Str(fields[i].0)))
    case Str(s) => Ok(seq(|s|, i requires 0 <= i < |s| => Str([s[i]])))
    case _ => Raised(NotIterableError)
  }

  /** A value whose `.get` is called: only a dict has one. */
  function AsDict(v: Value): (r: Result<Fields>)
    ensures r.Ok? <==> v.Obj?
    ensures r.Ok? ==> r.value == v.fields
  {
    if v.Obj? then Ok(v.fields) else Raised(NoGetError)
  }

  /** Python's `float(v)`, raising for a value it rejects. */
  function Float(v: Value, rt: Runtime): (r: Result<real>)
    ensures r.Ok? <==> PyFloat(v, rt.parseFloat).Some?
    ensures r.Ok? ==> r.value == PyFloat(v, rt.parseFloat).value
  {
    match PyFloat(v, rt.parseFloat)
    case Some(x) => Ok(x)
    case None => Raised(FloatError)
  }

  function Abs(x: real): real {
    if x < 0.0 then -x else x
  }

  // ---------------------------------------------------------------------------------------
  // validate_contract_totals
  // ---------------------------------------------------------------------------------------

  const NoAwardMessage := "No award data to validate"
  const NoWinnerMessage := "Winner marked in contract but no winner found in bidders"
  const TotalsValidMessage := "Contract totals validated"

  /** A bidder the winner search stops at: `is_winner` is truthy or `bid_rank == 1`. */
  predicate IsWinner(b: Fields) {
    Truthy(GetOrNull(b, "is_winner")) || PyEq(GetOrNull(b, "bid_rank"), Num(1.0))
  }

  /**
   * The winner search from position `i`: the index of the first winner, None when there is none,
   * or the AttributeError of the first element that is not a dict.
   */
  function FirstWinnerFrom(items: seq<Value>, i: nat): (r: Result<Option<nat>>)
    requires i <= |items|
    ensures r.Ok? ==> forall j :: i <= j < |items| && (r.value.None? || j < r.value.value) ==>
      items[j].Obj? && !IsWinner(items[j].fields)
    ensures r.Ok? && r.value.Some? ==>
      i <= r.value.value < |items| && items[r.value.value].Obj? && IsWinner(items[r.value.value].fields)
    ensures r.Raised? ==> r.error == NoGetError && exists j :: i <= j < |items| && !items[j].Obj?
    decreases |items| - i
  {
    if i == |items| then Ok(None)
    else match AsDict(items[i])
      case Raised(e) => Raised(e)
      case Ok(b) => if IsWinner(b) then Ok(Some(i)) else FirstWinnerFrom(items, i + 1)
  }

  /** The `for bidder in bidders ... break` loop. */
  method FindWinner(items: seq<Value>) returns (r: Result<Option<nat>>)
    ensures r == FirstWinnerFrom(items, 0)
  {
    var i := 0;
    while i < |items|
      invariant i <= |items|
      invariant FirstWinnerFrom(items, i) == FirstWinnerFrom(items, 0)
    {
      var b := AsDict(items[i]);
      if b.Raised? {
        return Raised(b.error);
      }
      if IsWinner(b.value) {
        return Ok(Some(i));
      }
      i := i + 1;
    }
    return Ok(None);
  }

  /**
   * The comparison of the award with the winner's total: a falsy total passes; otherwise both
   * amounts go through `float` and must agree to within 0.01.
   */
  function CompareAward(awarded: Value, winner: Fields, rt: Runtime): (r: Result<Check>)
    ensures !Truthy(GetOrNull(winner, "total_bid_amount")) ==> r == Ok(Check(true, TotalsValidMessage))
    ensures Truthy(GetOrNull(winner, "total_bid_amount")) ==>
      (r.Ok? <==> PyFloat(awarded, rt.parseFloat).Some? && PyFloat(GetOrNull(winner, "total_bid_amount"), rt.parseFloat).Some?)
    ensures r.Ok? && Truthy(GetOrNull(winner, "total_bid_amount")) ==>
      (!r.value.valid <==>
         Abs(PyFloat(awarded, rt.parseFloat).value - PyFloat(GetOrNull(winner, "total_bid_amount"), rt.parseFloat).value) > 0.01)
  {
    var amount := GetOrNull(winner, "total_bid_amount");
    if !Truthy(amount) then Ok(Check(true, TotalsValidMessage))
    else match Float(awarded, rt)
      case Raised(e) => Raised(e)
      case Ok(a) =>
        match Float(amount, rt)
        case Raised(e) => Raised(e)
        case Ok(b) =>
          if Abs(a - b) > 0.01 then
            Ok(Check(false, "Award amount mismatch: " + ToStr(awarded, rt.numText) + " != " + ToStr(amount, rt.numText)))
          else Ok(Check(true, TotalsValidMessage))
  }

  /** Whether the contract carries award data: a truthy `awarded_amount` and `awarded_to`. */
  predicate HasAward(contract: Fields) {
    Truthy(GetOrNull(contract, "awarded_amount")) && Truthy(GetOrNull(contract, "awarded_to"))
  }

  /** What `validate_contract_totals` returns or raises. */
  function ContractTotals(contract: Fields, bidders: Value, rt: Runtime): (r: Result<Check>)
    ensures !HasAward(contract) ==> r == Ok(Check(true, NoAwardMessage))
  {
    if !HasAward(contract) then Ok(Check(true, NoAwardMessage))
    else match Iter(bidders)
      case Raised(e) => Raised(e)
      case Ok(items) =>
        match FirstWinnerFrom(items, 0)
        case Raised(e) => Raised(e)
        case Ok(None) => Ok(Check(false, NoWinnerMessage))
        case Ok(Some(w)) => CompareAward(GetOrNull(contract, "awarded_amount"), items[w].fields, rt)
  }

  /** `validate_contract_totals`. */
  method ValidateContractTotals(contract: Fields, bidders: Value, rt: Runtime) returns (r: Result<Check>)
    ensures r == ContractTotals(contract, bidders, rt)
  {
    var awarded := GetOrNull(contract, "awarded_amount");
    if !Truthy(awarded) || !Truthy(GetOrNull(contract, "awarded_to")) {
      return Ok(Check(true, NoAwardMessage));
    }
    var items := Iter(bidders);
    if items.Raised? {
      return Raised(items.error);
    }
    var w := FindWinner(items.value);
    if w.Raised? {
      return Raised(w.error);
    }
    if w.value.None? {
      return Ok(Check(false, NoWinnerMessage));
    }
    r := CompareAward(awarded, items.value[w.value.value].fields, rt);
  }

  /** A list value holding the given dicts. */
  function ObjList(ds: seq<Fields>): (r: Value)
    ensures r.List? && |r.items| == |ds| && forall j :: 0 <= j < |ds| ==> r.items[j] == Obj(ds[j])
    ensures ds != [] <==> Truthy(r)
  {
    List(seq(|ds|, j requires 0 <= j < |ds| => Obj(ds[j])))
  }

  /**
   * With award data and a list of bidder dicts: no winner among them makes the totals invalid
   * with the "no winner" message, and otherwise the first winner's total is what the award is
   * compared with.
   */
  lemma ContractTotalsVerdict(contract: Fields, bidders: seq<Fields>, rt: Runtime)
    requires HasAward(contract)
    ensures (forall i :: 0 <= i < |bidders| ==> !IsWinner(bidders[i])) ==>
      ContractTotals(contract, ObjList(bidders), rt) == Ok(Check(false, NoWinnerMessage))
    ensures forall w :: 0 <= w < |bidders| && IsWinner(bidders[w]) && (forall j :: 0 <= j < w ==> !IsWinner(bidders[j])) ==>
      ContractTotals(contract, ObjList(bidders), rt) == CompareAward(GetOrNull(contract, "awarded_amount"), bidders[w], rt)
  {
    var items := ObjList(bidders).items;
    if forall i :: 0 <= i < |bidders| ==> !IsWinner(bidders[i]) {
      NoWinnerFrom(items, 0);
    }
    forall w | 0 <= w < |bidders| && IsWinner(bidders[w]) && (forall j :: 0 <= j < w ==> !IsWinner(bidders[j]))
      ensures ContractTotals(contract, ObjList(bidders), rt) == CompareAward(GetOrNull(contract, "awarded_amount"), bidders[w], rt)
    {
      FirstWinnerAt(items, 0, w);
    }
  }

  /** Dicts none of which is a winner leave the search without a winner. */
  lemma {:induction false} NoWinnerFrom(items: seq<Value>, i: nat)
    requires i <= |items|
    requires forall j :: i <= j < |items| ==> items[j].Obj? && !IsWinner(items[j].fields)
    ensures FirstWinnerFrom(items, i) == Ok(None)
    decreases |items| - i
  {
    if i < |items| {
      NoWinnerFrom(items, i + 1);
    }
  }

  /** The search stops at the first winner, when every dict before it is a non-winner. */
  lemma {:induction false} FirstWinnerAt(items: seq<Value>, i: nat, w: nat)
    requires i <= w < |items| && items[w].Obj? && IsWinner(items[w].fields)
    requires forall j :: i <= j < w ==> items[j].Obj? && !IsWinner(items[j].fields)
    ensures FirstWinnerFrom(items, i) == Ok(Some(w))
    decreases w - i
  {
    if i < w {
      FirstWinnerAt(items, i + 1, w);
    }
  }

  // ---------------------------------------------------------------------------------------
  // validate_bid_items_sum
  // ---------------------------------------------------------------------------------------

  const NoItemsDataMessage := "No data to validate"
  const ItemsValidMessage := "Bid items validated"
  const ItemsMismatchPrefix := "Bid items sum mismatch: "

  /** A value usable as a dict key: lists and dicts are unhashable. */
  predicate Hashable(v: Value) {
    !v.List? && !v.Obj?
  }

  /** `item.get('bidder_name', 'unknown')`. */
  function ItemBidder(item: Fields): Value {
    Get(item, "bidder_name").GetOr(Str("unknown"))
  }

  /** The dict slot of a key: `True` and `1`, `False` and `0.0`, hash and compare alike. */
  function KeyClass(v: Value): Value {
    if NumericValue(v).Some? then Num(NumericValue(v).value) else v
  }

  /** Two values share a dict slot exactly when Python's `==` holds between them. */
  lemma KeyClassIsEquality(a: Value, b: Value)
    ensures PyEq(a, b) <==> KeyClass(a) == KeyClass(b)
  {
  }

  /** The `items_by_bidder` dict: the items filed under each key's slot. */
  type Groups = map<Value, seq<Fields>>

  /** `items_by_bidder[key].append(item)`, creating the group first when the key is new. */
  function AddToGroup(g: Groups, key: Value, item: Fields): (r: Groups)
    ensures r.Keys == g.Keys + {KeyClass(key)}
  {
    var c := KeyClass(key);
    g[c := (if c in g then g[c] else []) + [item]]
  }

  /** `items_by_bidder.get(k, [])`. */
  function Lookup(g: Groups, k: Value): seq<Fields> {
    if KeyClass(k) in g then g[KeyClass(k)] else []
  }

  /** The grouping of a list of item dicts, item by item. */
  function GroupAll(items: seq<Fields>): Groups {
    if items == [] then map[]
    else AddToGroup(GroupAll(items[..|items| - 1]), ItemBidder(items[|items| - 1]), items[|items| - 1])
  }

  /** The items of `items` whose bidder key equals `k`, in order. */
  function ItemsOf(items: seq<Fields>, k: Value): (r: seq<Fields>)
    ensures |r| <= |items|
    ensures forall j :: 0 <= j < |r| ==> r[j] in items && PyEq(ItemBidder(r[j]), k)
  {
    if items == [] then []
    else
      var last := items[|items| - 1];
      assert forall x :: x in items[..|items| - 1] ==> x in items;
      ItemsOf(items[..|items| - 1], k) + (if PyEq(ItemBidder(last), k) then [last] else [])
  }

  /** Looking a key up in the grouped items gives exactly the items whose bidder equals it, in list order. */
  lemma {:induction false} LookupGroupAll(items: seq<Fields>, k: Value)
    ensures Lookup(GroupAll(items), k) == ItemsOf(items, k)
  {
    if items != [] {
      var last := items[|items| - 1];
      LookupGroupAll(items[..|items| - 1], k);
      KeyClassIsEquality(ItemBidder(last), k);
    }
  }

  /**
   * The grouping loop's checks from position `i`: the first item that is not a dict raises
   * AttributeError, the first unhashable bidder key TypeError.
   */
  function GroupError(items: seq<Value>, i: nat): Option<string>
    requires i <= |items|
    decreases |items| - i
  {
    if i == |items| then None
    else if !items[i].Obj? then Some(NoGetError)
    else if !Hashable(ItemBidder(items[i].fields)) then Some(UnhashableError)
    else GroupError(items, i + 1)
  }

  /** The grouping raises nothing exactly when every item from `i` on is a dict with a hashable bidder key. */
  lemma {:induction false} GroupErrorNone(items: seq<Value>, i: nat)
    requires i <= |items|
    ensures GroupError(items, i).None? <==>
      forall j :: i <= j < |items| ==> items[j].Obj? && Hashable(ItemBidder(items[j].fields))
    decreases |items| - i
  {
    if i < |items| {
      GroupErrorNone(items, i + 1);
    }
  }

  /** The dicts of a list all of whose elements are dicts. */
  function Dicts(items: seq<Value>): (r: seq<Fields>)
    requires forall j :: 0 <= j < |items| ==> items[j].Obj?
    ensures |r| == |items| && forall j :: 0 <= j < |items| ==> r[j] == items[j].fields
  {
    seq(|items|, j requires 0 <= j < |items| => items[j].fields)
  }

  /** An item's price as the sum sees it. */
  function Price(item: Fields): Value {
    GetOrNull(item, "total_price")
  }

  /** All truthy prices of the items convert with `float`. */
  predicate PricesParse(items: seq<Fields>, rt: Runtime) {
    forall j :: 0 <= j < |items| && Truthy(Price(items[j])) ==> PyFloat(Price(items[j]), rt.parseFloat).Some?
  }

  /** `sum(float(item.get('total_price', 0)) for item in items if item.get('total_price'))`. */
  function ItemsSum(items: seq<Fields>, rt: Runtime): (r: Result<real>)
    ensures r.Ok? <==> PricesParse(items, rt)
  {
    if items == [] then Ok(0.0)
    else
      var prefix := items[..|items| - 1];
      assert forall j :: 0 <= j < |prefix| ==> prefix[j] == items[j];
      match ItemsSum(prefix, rt)
      case Raised(e) => Raised(e)
      case Ok(s) =>
        var price := Price(items[|items| - 1]);
        if !Truthy(price) then Ok(s)
        else match Float(price, rt)
          case Raised(e) => Raised(e)
          case Ok(p) => Ok(s + p)
  }

  /** Whether some item has a truthy price, i.e. whether `sum` added anything to its integer start 0. */
  predicate AnyPriced(items: seq<Fields>) {
    exists j :: 0 <= j < |items| && Truthy(Price(items[j]))
  }

  /** `str(items_sum)`: the integer `0` when nothing was added, a float otherwise. */
  function SumText(items: seq<Fields>, sum: real, rt: Runtime): string {
    if AnyPriced(items) then rt.numText(sum) else "0"
  }

  function BidderName(b: Fields): Value {
    GetOrNull(b, "bidder_name")
  }

  function BidderTotal(b: Fields): Value {
    GetOrNull(b, "total_bid_amount")
  }

  /** A bidder the sum check looks at: a truthy name and a truthy total. */
  predicate Checked(b: Fields) {
    Truthy(BidderName(b)) && Truthy(BidderTotal(b))
  }

  /**
   * The comparison of one bidder's total with the sum of its items: None when they are within $1,
   * else the mismatch line; `float` of either side may raise.
   */
  function TotalCheck(name: Value, total: Value, items: seq<Fields>, rt: Runtime): (r: Result<Option<string>>)
    ensures r.Ok? <==> PricesParse(items, rt) && PyFloat(total, rt.parseFloat).Some?
    ensures r.Ok? ==> (r.value.Some? <==> Abs(PyFloat(total, rt.parseFloat).value - ItemsSum(items, rt).value) > 1.0)
  {
    match ItemsSum(items, rt)
    case Raised(e) => Raised(e)
    case Ok(s) =>
      match Float(total, rt)
      case Raised(e) => Raised(e)
      case Ok(t) =>
        if Abs(t - s) > 1.0 then
          Ok(Some(ToStr(name, rt.numText) + ": total=$" + ToStr(total, rt.numText) + ", items_sum=$" + SumText(items, s, rt)))
        else Ok(None)
  }

  /** One bidder's check: None when it is skipped or its total is within $1 of its items' sum, else the mismatch line. */
  function BidderCheck(bidder: Value, groups: Groups, rt: Runtime): (r: Result<Option<string>>)
    ensures r.Ok? ==> bidder.Obj?
    ensures bidder.Obj? && !Checked(bidder.fields) ==> r == Ok(None)
    ensures bidder.Obj? && Checked(bidder.fields) && Hashable(BidderName(bidder.fields)) ==>
      r == TotalCheck(BidderName(bidder.fields), BidderTotal(bidder.fields), Lookup(groups, BidderName(bidder.fields)), rt)
    ensures bidder.Obj? && Checked(bidder.fields) && !Hashable(BidderName(bidder.fields)) ==> r == Raised(UnhashableError)
  {
    match AsDict(bidder)
    case Raised(e) => Raised(e)
    case Ok(b) =>
      var name := BidderName(b);
      var total := BidderTotal(b);
      if !Truthy(name) || !Truthy(total) then Ok(None)
      else if !Hashable(name) then Raised(UnhashableError)
      else TotalCheck(name, total, Lookup(groups, name), rt)
  }

  /** The per-bidder check the loop applies, over the grouped items. */
  function CheckWith(groups: Groups, rt: Runtime): Value -> Result<Option<string>> {
    b => BidderCheck(b, groups, rt)
  }

  /** The mismatch lines of the bidders under `check`, in order, or the first error among them. */
  function Mismatches(bidders: seq<Value>, check: Value -> Result<Option<string>>): Result<seq<string>> {
    if bidders == [] then Ok([])
    else
      match Mismatches(bidders[..|bidders| - 1], check)
      case Raised(e) => Raised(e)
      case Ok(ms) =>
        match check(bidders[|bidders| - 1])
        case Raised(e) => Raised(e)
        case Ok(None) => Ok(ms)
        case Ok(Some(m)) => Ok(ms + [m])
  }

  /** The validations succeed exactly when every one does, and find no mismatch exactly when none does. */
  lemma {:induction false} MismatchesOk(bidders: seq<Value>, check: Value -> Result<Option<string>>)
    ensures var r := Mismatches(bidders, check);
      (r.Ok? <==> forall j :: 0 <= j < |bidders| ==> check(bidders[j]).Ok?)
      && (r.Ok? ==> (r.value == [] <==> forall j :: 0 <= j < |bidders| ==> check(bidders[j]) == Ok(None)))
  {
    if bidders != [] {
      var prefix := bidders[..|bidders| - 1];
      MismatchesOk(prefix, check);
      assert forall j :: 0 <= j < |prefix| ==> prefix[j] == bidders[j];
    }
  }

  /**
   * The grouping loop of `validate_bid_items_sum`: the first item that is not a dict, or whose
   * bidder key is unhashable, raises; otherwise the items grouped by bidder.
   */
  function Grouped(items: seq<Value>): Result<Groups> {
    match GroupError(items, 0)
    case Some(e) => Raised(e)
    case None =>
      GroupErrorNone(items, 0);
      Ok(GroupAll(Dicts(items)))
  }

  /** What `validate_bid_items_sum` returns or raises. */
  function BidItemsSum(bidders: Value, bidItems: Value, rt: Runtime): (r: Result<Check>)
    ensures !Truthy(bidders) || !Truthy(bidItems) ==> r == Ok(Check(true, NoItemsDataMessage))
  {
    if !Truthy(bidders) || !Truthy(bidItems) then Ok(Check(true, NoItemsDataMessage))
    else match Iter(bidItems)
      case Raised(e) => Raised(e)
      case Ok(items) =>
        match Grouped(items)
        case Raised(e) => Raised(e)
        case Ok(groups) =>
          match Iter(bidders)
          case Raised(e) => Raised(e)
          case Ok(bs) => Summary(Mismatches(bs, CheckWith(groups, rt)))
  }

  /** The verdict on the collected mismatch lines. */
  function Summary(mismatches: Result<seq<string>>): (r: Result<Check>)
    ensures r.Ok? <==> mismatches.Ok?
    ensures r.Ok? ==> (r.value.valid <==> mismatches.value == [])
  {
    match mismatches
    case Raised(e) => Raised(e)
    case Ok(ms) =>
      if ms != [] then Ok(Check(false, ItemsMismatchPrefix + Text.Join("; ", ms)))
      else Ok(Check(true, ItemsValidMessage))
  }

  /** `validate_bid_items_sum`: group the items, then check each bidder in turn. */
  method ValidateBidItemsSum(bidders: Value, bidItems: Value, rt: Runtime) returns (r: Result<Check>)
    ensures r == BidItemsSum(bidders, bidItems, rt)
  {
    if !Truthy(bidders) || !Truthy(bidItems) {
      return Ok(Check(true, NoItemsDataMessage));
    }
    var items := Iter(bidItems);
    if items.Raised? {
      return Raised(items.error);
    }
    var groups := GroupItems(items.value);
    if groups.Raised? {
      return Raised(groups.error);
    }
    var bs := Iter(bidders);
    if bs.Raised? {
      return Raised(bs.error);
    }
    var mismatches := CollectMismatches(bs.value, groups.value, rt);
    r := Summary(mismatches);
  }

  /** The grouping loop: `items_by_bidder[bidder_name].append(item)` for each item in turn. */
  method GroupItems(items: seq<Value>) returns (r: Result<Groups>)
    ensures r == Grouped(items)
  {
    var groups: Groups := map[];
    var i := 0;
    while i < |items|
      invariant i <= |items|
      invariant GroupError(items, 0) == GroupError(items, i)
      invariant forall j :: 0 <= j < i ==> items[j].Obj?
      invariant groups == GroupAll(Dicts(items[..i]))
    {
      if !items[i].Obj? {
        return Raised(NoGetError);
      }
      var key := ItemBidder(items[i].fields);
      if !Hashable(key) {
        return Raised(UnhashableError);
      }
      GroupAllStep(items, i);
      groups := AddToGroup(groups, key, items[i].fields);
      i := i + 1;
    }
    assert items[..|items|] == items;
    return Ok(groups);
  }

  /** Grouping one more dict adds it to its key's group. */
  lemma GroupAllStep(items: seq<Value>, i: nat)
    requires i < |items| && forall j :: 0 <= j <= i ==> items[j].Obj?
    ensures GroupAll(Dicts(items[..i + 1]))
         == AddToGroup(GroupAll(Dicts(items[..i])), ItemBidder(items[i].fields), items[i].fields)
  {
    var d := Dicts(items[..i + 1]);
    assert d[..i] == Dicts(items[..i]);
  }

  /** The loop over the bidders, collecting the mismatch lines. */
  method CollectMismatches(bs: seq<Value>, groups: Groups, rt: Runtime) returns (r: Result<seq<string>>)
    ensures r == Mismatches(bs, CheckWith(groups, rt))
  {
    var check := CheckWith(groups, rt);
    var mismatches: seq<string> := [];
    var k := 0;
    while k < |bs|
      invariant k <= |bs|
      invariant Mismatches(bs[..k], check) == Ok(mismatches)
    {
      var c := BidderCheck(bs[k], groups, rt);
      assert c == check(bs[k]);
      MismatchesStep(bs, k, check, mismatches);
      if c.Raised? {
        MismatchesRaise(bs, k + 1, check);
        return Raised(c.error);
      }
      if c.value.Some? {
        mismatches := mismatches + [c.value.value];
      }
      k := k + 1;
    }
    assert bs[..|bs|] == bs;
    return Ok(mismatches);
  }

  /** Checking one more bidder extends the mismatch lines, or raises its error. */
  lemma MismatchesStep(bs: seq<Value>, k: nat, check: Value -> Result<Option<string>>, ms: seq<string>)
    requires k < |bs| && Mismatches(bs[..k], check) == Ok(ms)
    ensures Mismatches(bs[..k + 1], check) ==
      match check(bs[k])
      case Raised(e) => Raised(e)
      case Ok(None) => Ok(ms)
      case Ok(Some(m)) => Ok(ms + [m])
  {
    assert bs[..k + 1][..k] == bs[..k];
  }

  /** An error among the first `n` bidders is the error of the whole list. */
  lemma {:induction false} MismatchesRaise(bs: seq<Value>, n: nat, check: Value -> Result<Option<string>>)
    requires n <= |bs| && Mismatches(bs[..n], check).Raised?
    ensures Mismatches(bs, check) == Mismatches(bs[..n], check)
    decreases |bs| - n
  {
    if n < |bs| {
      assert bs[..n + 1][..n] == bs[..n];
      MismatchesRaise(bs, n + 1, check);
    } else {
      assert bs[..n] == bs;
    }
  }

  /** Every truthy price among the items filed under one key parses when every price of the list does. */
  lemma ItemsOfPrices(items: seq<Fields>, k: Value, rt: Runtime)
    requires PricesParse(items, rt)
    ensures PricesParse(ItemsOf(items, k), rt)
  {
  }

  /** A checked bidder's total is within $1 of the sum of the items filed under its name; an unchecked one passes. */
  predicate WithinDollar(bidder: Fields, items: seq<Fields>, rt: Runtime) {
    var total := PyFloat(BidderTotal(bidder), rt.parseFloat);
    var sum := ItemsSum(ItemsOf(items, BidderName(bidder)), rt);
    Checked(bidder) ==> total.Some? && sum.Ok? && Abs(total.value - sum.value) <= 1.0
  }

  /** One bidder dict's check, over groups that file each key's items as `items` does. */
  lemma BidderVerdict(bidder: Fields, items: seq<Fields>, groups: Groups, rt: Runtime)
    requires Hashable(BidderName(bidder)) && PricesParse(items, rt)
    requires Truthy(BidderTotal(bidder)) ==> PyFloat(BidderTotal(bidder), rt.parseFloat).Some?
    requires forall k :: Lookup(groups, k) == ItemsOf(items, k)
    ensures BidderCheck(Obj(bidder), groups, rt).Ok?
    ensures BidderCheck(Obj(bidder), groups, rt) == Ok(None) <==> WithinDollar(bidder, items, rt)
  {
    if Checked(bidder) {
      CheckedBidderVerdict(bidder, items, groups, rt);
    } else {
      UncheckedBidderVerdict(bidder, groups, rt);
    }
  }

  lemma CheckedBidderVerdict(bidder: Fields, items: seq<Fields>, groups: Groups, rt: Runtime)
    requires Checked(bidder) && Hashable(BidderName(bidder)) && PricesParse(items, rt)
    requires PyFloat(BidderTotal(bidder), rt.parseFloat).Some?
    requires Lookup(groups, BidderName(bidder)) == ItemsOf(items, BidderName(bidder))
    ensures BidderCheck(Obj(bidder), groups, rt).Ok?
    ensures BidderCheck(Obj(bidder), groups, rt) == Ok(None) <==>
      Abs(PyFloat(BidderTotal(bidder), rt.parseFloat).value
          - ItemsSum(ItemsOf(items, BidderName(bidder)), rt).value) <= 1.0
  {
    ItemsOfPrices(items, BidderName(bidder), rt);
  }

  lemma UncheckedBidderVerdict(bidder: Fields, groups: Groups, rt: Runtime)
    requires !Checked(bidder)
    ensures BidderCheck(Obj(bidder), groups, rt) == Ok(None)
  {
  }

  /** The validation of every bidder of the list, over groups that file each key's items as `items` does. */
  lemma AllBidderVerdicts(bidders: seq<Fields>, items: seq<Fields>, groups: Groups, rt: Runtime)
    requires forall j :: 0 <= j < |bidders| ==> Hashable(BidderName(bidders[j]))
    requires PricesParse(items, rt)
    requires forall j :: 0 <= j < |bidders| && Truthy(BidderTotal(bidders[j])) ==>
               PyFloat(BidderTotal(bidders[j]), rt.parseFloat).Some?
    requires forall k :: Lookup(groups, k) == ItemsOf(items, k)
    ensures forall j :: 0 <= j < |bidders| ==> CheckWith(groups, rt)(ObjList(bidders).items[j]).Ok?
    ensures forall j :: 0 <= j < |bidders| ==>
      (CheckWith(groups, rt)(ObjList(bidders).items[j]) == Ok(None) <==> WithinDollar(bidders[j], items, rt))
  {
    var bv := ObjList(bidders).items;
    forall j | 0 <= j < |bidders|
      ensures CheckWith(groups, rt)(bv[j]) == BidderCheck(Obj(bidders[j]), groups, rt)
      ensures BidderCheck(Obj(bidders[j]), groups, rt).Ok?
      ensures BidderCheck(Obj(bidders[j]), groups, rt) == Ok(None) <==> WithinDollar(bidders[j], items, rt)
    {
      BidderVerdict(bidders[j], items, groups, rt);
    }
  }

  /** Over non-empty lists of dicts whose items group, the result is the summary of the bidders' checks. */
  lemma BidItemsUnfold(bidders: seq<Fields>, items: seq<Fields>, groups: Groups, rt: Runtime)
    requires bidders != [] && items != []
    requires Grouped(ObjList(items).items) == Ok(groups)
    ensures BidItemsSum(ObjList(bidders), ObjList(items), rt)
         == Summary(Mismatches(ObjList(bidders).items, CheckWith(groups, rt)))
  {
  }

  /**
   * Over non-empty lists of dicts whose bidder names are hashable and whose prices and totals
   * convert, the bid items are valid exactly when every bidder with a name and a total is within
   * $1 of the sum of the items whose bidder name equals its own.
   */
  lemma BidItemsVerdict(bidders: seq<Fields>, items: seq<Fields>, rt: Runtime)
    requires bidders != [] && items != []
    requires forall j :: 0 <= j < |items| ==> Hashable(ItemBidder(items[j]))
    requires forall j :: 0 <= j < |bidders| ==> Hashable(BidderName(bidders[j]))
    requires PricesParse(items, rt)
    requires forall j :: 0 <= j < |bidders| && Truthy(BidderTotal(bidders[j])) ==>
               PyFloat(BidderTotal(bidders[j]), rt.parseFloat).Some?
    ensures var r := BidItemsSum(ObjList(bidders), ObjList(items), rt);
      r.Ok? && (r.value.valid <==> forall j :: 0 <= j < |bidders| ==> WithinDollar(bidders[j], items, rt))
  {
    GroupedLists(items);
    var groups := Grouped(ObjList(items).items).value;
    BidItemsUnfold(bidders, items, groups, rt);
    AllBidderVerdicts(bidders, items, groups, rt);
    MismatchesOk(ObjList(bidders).items, CheckWith(groups, rt));
  }

  /** A list of item dicts with hashable bidder keys groups without error, each key's items as `ItemsOf` lists them. */
  lemma GroupedLists(items: seq<Fields>)
    requires forall j :: 0 <= j < |items| ==> Hashable(ItemBidder(items[j]))
    ensures Grouped(ObjList(items).items).Ok?
    ensures forall k :: Lookup(Grouped(ObjList(items).items).value, k) == ItemsOf(items, k)
  {
    var iv := ObjList(items).items;
    NoGroupErrorInLists(items);
    GroupedNoError(iv);
    DictsOfObjList(items);
    var g := GroupAll(items);
    assert Grouped(iv) == Ok(g);
    forall k ensures Lookup(g, k) == ItemsOf(items, k) {
      LookupGroupAll(items, k);
    }
  }

  lemma NoGroupErrorInLists(items: seq<Fields>)
    requires forall j :: 0 <= j < |items| ==> Hashable(ItemBidder(items[j]))
    ensures GroupError(ObjList(items).items, 0).None?
  {
    var iv := ObjList(items).items;
    forall j | 0 <= j < |iv| ensures iv[j].Obj? && Hashable(ItemBidder(iv[j].fields)) {
      assert iv[j] == Obj(items[j]);
    }
    GroupErrorNone(iv, 0);
  }

  lemma GroupedNoError(iv: seq<Value>)
    requires GroupError(iv, 0).None?
    ensures forall j :: 0 <= j < |iv| ==> iv[j].Obj?
    ensures Grouped(iv) == Ok(GroupAll(Dicts(iv)))
  {
    GroupErrorNone(iv, 0);
  }

  lemma DictsOfObjList(items: seq<Fields>)
    ensures Dicts(ObjList(items).items) == items
  {
    assert Dicts(ObjList(items).items) == items;
  }

  // ---------------------------------------------------------------------------------------
  // validate_dates
  // ---------------------------------------------------------------------------------------

  /** The keys of the `dates` dict. */
  datatype DateKey = Available | Completion | BidOpening | Award

  /** The contract field each date comes from. */
  function DateField(k: DateKey): string {
    match k
    case Available => "date_available"
    case Completion => "completion_date"
    case BidOpening => "bid_opening_date"
    case Award => "award_date"
  }

  /** The loop's order over the dates. */
  const DateOrderKeys: seq<DateKey> := [Available, Completion, BidOpening, Award]

  /** A date the loop keeps: truthy text that `fromisoformat` accepts; anything else is skipped. */
  function ParsedDate(contract: Fields, k: DateKey, rt: Runtime): Option<int> {
    var v := GetOrNull(contract, DateField(k));
    if Truthy(v) && v.Str? then rt.parseDate(v.s) else None
  }

  /** The `dates` dict after the loop has seen the first `n` keys. */
  function DatesOf(contract: Fields, rt: Runtime, n: nat): (r: map<DateKey, int>)
    requires n <= |DateOrderKeys|
    ensures forall j :: 0 <= j < n ==> (DateOrderKeys[j] in r <==> ParsedDate(contract, DateOrderKeys[j], rt).Some?)
    ensures forall k :: k in r ==> ParsedDate(contract, k, rt) == Some(r[k])
  {
    if n == 0 then map[]
    else
      var prev := DatesOf(contract, rt, n - 1);
      var k := DateOrderKeys[n - 1];
      match ParsedDate(contract, k, rt)
      case Some(d) => prev[k := d]
      case None => prev
  }

  /** The parsing loop of `validate_dates`. */
  method ParseDates(contract: Fields, rt: Runtime) returns (dates: map<DateKey, int>)
    ensures dates == DatesOf(contract, rt, |DateOrderKeys|)
  {
    dates := map[];
    var i := 0;
    while i < |DateOrderKeys|
      invariant i <= |DateOrderKeys|
      invariant dates == DatesOf(contract, rt, i)
    {
      var k := DateOrderKeys[i];
      var value := GetOrNull(contract, DateField(k));
      if Truthy(value) && value.Str? {
        var d := rt.parseDate(value.s);
        if d.Some? {
          dates := dates[k := d.value];
        }
      }
      i := i + 1;
    }
  }

  const AvailableMessage := "Date available must be before completion date"
  const AwardOrderMessage := "Bid opening must be before award date"
  const OpeningMessage := "Bid opening should be before availability date"
  const DatesValidMessage := "Dates validated"

  /** Date `a` is strictly before date `b`, or one of them is missing. */
  predicate Precedes(dates: map<DateKey, int>, a: DateKey, b: DateKey) {
    a in dates && b in dates ==> dates[a] < dates[b]
  }

  /** The three order checks, in order; a missing date skips every check it takes part in. */
  function DateOrder(dates: map<DateKey, int>): (r: Check)
    ensures r.valid <==>
      Precedes(dates, Available, Completion)
      && (BidOpening in dates && Award in dates ==> dates[BidOpening] <= dates[Award])
      && Precedes(dates, BidOpening, Available)
    ensures !Precedes(dates, Available, Completion) ==> r.message == AvailableMessage
  {
    if Available in dates && Completion in dates && dates[Available] >= dates[Completion] then
      Check(false, AvailableMessage)
    else if BidOpening in dates && Award in dates && dates[BidOpening] > dates[Award] then
      Check(false, AwardOrderMessage)
    else if BidOpening in dates && Available in dates && dates[BidOpening] >= dates[Available] then
      Check(false, OpeningMessage)
    else Check(true, DatesValidMessage)
  }

  /** `validate_dates`. */
  method ValidateDates(contract: Fields, rt: Runtime) returns (r: Check)
    ensures r == DateOrder(DatesOf(contract, rt, |DateOrderKeys|))
  {
    var dates := ParseDates(contract, rt);
    r := DateOrder(dates);
  }

  /**
   * The dates of a contract are valid exactly when, among the dates that parse, availability
   * precedes completion, the bid opening is no later than the award, and the bid opening
   * precedes availability.
   */
  lemma DatesVerdict(contract: Fields, rt: Runtime)
    ensures var available := ParsedDate(contract, Available, rt);
      var completion := ParsedDate(contract, Completion, rt);
      var opening := ParsedDate(contract, BidOpening, rt);
      var award := ParsedDate(contract, Award, rt);
      DateOrder(DatesOf(contract, rt, |DateOrderKeys|)).valid <==>
        (available.Some? && completion.Some? ==> available.value < completion.value)
        && (opening.Some? && award.Some? ==> opening.value <= award.value)
        && (opening.Some? && available.Some? ==> opening.value < available.value)
  {
    var dates := DatesOf(contract, rt, |DateOrderKeys|);
    assert DateOrderKeys[0] == Available && DateOrderKeys[1] == Completion;
    assert DateOrderKeys[2] == BidOpening && DateOrderKeys[3] == Award;
  }

  // ---------------------------------------------------------------------------------------
  // validate_goals
  // ---------------------------------------------------------------------------------------

  const GoalsMissingMessage := "Goals not all specified"
  const GoalsValidMessage := "Goals validated"

  /** All three goals are present (not None). */
  predicate GoalsGiven(contract: Fields) {
    GetOrNull(contract, "mbe_goal") != Null && GetOrNull(contract, "wbe_goal") != Null
    && GetOrNull(contract, "combined_goal") != Null
  }

  /** A goal converted with `float`. */
  function Goal(contract: Fields, key: string, rt: Runtime): Option<real> {
    PyFloat(GetOrNull(contract, key), rt.parseFloat)
  }

  /** What `validate_goals` returns or raises. */
  function ValidateGoals(contract: Fields, rt: Runtime): (r: Result<Check>)
    ensures !GoalsGiven(contract) ==> r == Ok(Check(true, GoalsMissingMessage))
    ensures GoalsGiven(contract) ==>
      (r.Ok? <==> Goal(contract, "mbe_goal", rt).Some? && Goal(contract, "wbe_goal", rt).Some?
                  && Goal(contract, "combined_goal", rt).Some?)
    ensures GoalsGiven(contract) && r.Ok? ==>
      var expected := Goal(contract, "mbe_goal", rt).value + Goal(contract, "wbe_goal", rt).value;
      var actual := Goal(contract, "combined_goal", rt).value;
      (!r.value.valid <==> Abs(actual - expected) > 0.1 && actual < expected)
  {
    var mbeGoal := GetOrNull(contract, "mbe_goal");
    var wbeGoal := GetOrNull(contract, "wbe_goal");
    if !GoalsGiven(contract) then Ok(Check(true, GoalsMissingMessage))
    else match (Float(mbeGoal, rt), Float(wbeGoal, rt), Float(GetOrNull(contract, "combined_goal"), rt))
      case (Ok(mbe), Ok(wbe), Ok(actual)) =>
        var expected := mbe + wbe;
        if Abs(actual - expected) > 0.1 && actual < expected then
          Ok(Check(false, "Combined goal (" + rt.numText(actual) + ") inconsistent with MBE (" + ToStr(mbeGoal, rt.numText)
                          + ") + WBE (" + ToStr(wbeGoal, rt.numText) + ")"))
        else Ok(Check(true, GoalsValidMessage))
      case (Raised(e), _, _) => Raised(e)
      case (_, Raised(e), _) => Raised(e)
      case (_, _, Raised(e)) => Raised(e)
  }

  // ---------------------------------------------------------------------------------------
  // validate_all
  // ---------------------------------------------------------------------------------------

  const SkippedMessage := "Skipped validation for failed extraction"

  /** `{k: v for k, v in data.items() if not isinstance(v, list)}`. */
  function NonListEntries(data: Fields): (r: Fields)
    ensures forall j :: 0 <= j < |r| ==> !r[j].1.List? && r[j] in data
    ensures forall j :: 0 <= j < |data| && !data[j].1.List? ==> data[j] in r
  {
    if data == [] then []
    else (if data[0].1.List? then [] else [data[0]]) + NonListEntries(data[1..])
  }

  /** The four rule results, in the report's order. */
  datatype Rules = Rules(contractTotals: Check, bidItemsSum: Check, dates: Check, goals: Check)

  predicate AllValid(rules: Rules) {
    rules.contractTotals.valid && rules.bidItemsSum.valid && rules.dates.valid && rules.goals.valid
  }

  /** A check as the report holds it: the pair as a two-element list. */
  function CheckValue(c: Check): Value {
    List([Bool(c.valid), Str(c.message)])
  }

  /** The report for a successful extraction. */
  function Report(rules: Rules, filePath: Value): (r: Fields)
    ensures GetOrNull(r, "valid") == Bool(AllValid(rules))
  {
    var names := ["contract_totals", "bid_items_sum", "dates", "goals"];
    var checks := [rules.contractTotals, rules.bidItemsSum, rules.dates, rules.goals];
    var r := [("valid", Bool(AllValid(rules))),
              ("validations", Obj(seq(4, i requires 0 <= i < 4 => (names[i], CheckValue(checks[i]))))),
              ("messages", Obj(seq(4, i requires 0 <= i < 4 => (names[i], Str(checks[i].message))))),
              ("file_path", filePath)];
    GetAt(r, 0);
    r
  }

  /** The four rules over the data of a successful extraction, in order; the first error propagates. */
  function RunRules(data: Fields, rt: Runtime): (r: Result<Rules>)
    ensures r.Ok? ==> ContractTotals(NonListEntries(data), Get(data, "bidders").GetOr(List([])), rt) == Ok(r.value.contractTotals)
    ensures r.Ok? ==> BidItemsSum(Get(data, "bidders").GetOr(List([])), Get(data, "bid_items").GetOr(List([])), rt)
                        == Ok(r.value.bidItemsSum)
    ensures r.Ok? ==> r.value.dates == DateOrder(DatesOf(NonListEntries(data), rt, |DateOrderKeys|))
    ensures r.Ok? ==> ValidateGoals(NonListEntries(data), rt) == Ok(r.value.goals)
  {
    var contract := NonListEntries(data);
    var bidders := Get(data, "bidders").GetOr(List([]));
    var bidItems := Get(data, "bid_items").GetOr(List([]));
    match ContractTotals(contract, bidders, rt)
    case Raised(e) => Raised(e)
    case Ok(totals) =>
      match BidItemsSum(bidders, bidItems, rt)
      case Raised(e) => Raised(e)
      case Ok(items) =>
        match ValidateGoals(contract, rt)
        case Raised(e) => Raised(e)
        case Ok(goals) => Ok(Rules(totals, items, DateOrder(DatesOf(contract, rt, |DateOrderKeys|)), goals))
  }

  /**
   * `validate_all`: a result that is not a success is skipped as valid; otherwise the report's
   * `valid` is the conjunction of the four rules. `data.items()` on data that is not a dict raises.
   */
  function ValidateAll(result: Fields, rt: Runtime): (r: Result<Fields>)
    ensures GetOrNull(result, "status") != Str("success") ==>
      r == Ok([("valid", Bool(true)), ("message", Str(SkippedMessage))])
    ensures GetOrNull(result, "status") == Str("success") && r.Ok? ==>
      var data := Get(result, "data").GetOr(Obj([]));
      data.Obj? && RunRules(data.fields, rt).Ok?
      && GetOrNull(r.value, "valid") == Bool(AllValid(RunRules(data.fields, rt).value))
  {
    if GetOrNull(result, "status") != Str("success") then Ok([("valid", Bool(true)), ("message", Str(SkippedMessage))])
    else
      var data := Get(result, "data").GetOr(Obj([]));
      if !data.Obj? then Raised(NoItemsError)
      else match RunRules(data.fields, rt)
        case Raised(e) => Raised(e)
        case Ok(rules) => Ok(Report(rules, GetOrNull(result, "file_path")))
  }
}
