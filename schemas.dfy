/**
 * The validation models for extracted data: a contract, its bidders and bid items, the extracted
 * bundle and the result of one extraction. Validation takes the fields given (an absent field is
 * `None`) and either builds the record, with defaults filled in and validators applied, or raises
 * a validation error. The error names the first failing field, in declaration order.
 *
 * Dates and decimals are kept as given: type coercion of the optional fields is not modelled, and
 * a decimal is an exact real.
 */
module Schemas {
  import opened Wrappers
  import opened Values
  import Text

  /** The error for `field`, with the library's message. */
  function FieldError(field: string, message: string): string {
    field + ": " + message
  }

  const FieldRequired := "Field required"
  const TooShort := "String should have at least 1 character"
  const BlankContractNumber := "Value error, Contract number cannot be empty"
  const NegativeAmount := "Value error, Bid amount must be positive"
  const BelowZero := "Input should be greater than or equal to 0"
  const AboveOne := "Input should be less than or equal to 1"

  /** A required string field: present, or the "Field required" error. */
  function Required(field: string, v: Option<string>): (r: Result<string>)
    ensures r.Ok? <==> v.Some?
    ensures r.Ok? ==> r.value == v.value
  {
    if v.None? then Raised(FieldError(field, FieldRequired)) else Ok(v.value)
  }

  // ---------------------------------------------------------------------------------------------
  // Contract

  /**
   * `contract_number`: at least one character (the field constraint, checked first), then the
   * validator rejects a number that is blank after stripping and keeps it stripped and uppercased.
   */
  function ValidateContractNumber(v: string): (r: Result<string>)
    ensures r.Ok? <==> !Text.IsBlank(v)
    ensures v == [] ==> r == Raised(FieldError("contract_number", TooShort))
    ensures v != [] && Text.IsBlank(v) ==> r == Raised(FieldError("contract_number", BlankContractNumber))
    ensures r.Ok? ==> r.value == Text.Upper(Text.Strip(v)) && StoredNumber(r.value)
  {
    if |v| < 1 then Raised(FieldError("contract_number", TooShort))
    else
      var s := Text.Strip(v);
      if |s| == 0 then Raised(FieldError("contract_number", BlankContractNumber))
      else
        Text.UpperKeepsEnds(s);
        Text.UpperTwice(s);
        Ok(Text.Upper(s))
  }

  /** A contract number as validation stores it: non-empty, without surrounding blanks, uppercase. */
  predicate StoredNumber(n: string) {
    n != [] && !Text.IsSpace(n[0]) && !Text.IsSpace(n[|n| - 1]) && Text.Upper(n) == n
  }

  /** Validating a stored contract number gives it back unchanged. */
  lemma ContractNumberIdempotent(n: string)
    requires StoredNumber(n)
    ensures ValidateContractNumber(n) == Ok(n)
  {
    Text.StripTrimmed(n);
  }

  /** A number padded with blanks on both sides is stored without them. */
  lemma ContractNumberStripsPadding(pad: string, n: string)
    requires StoredNumber(n) && Text.IsBlank(pad)
    ensures ValidateContractNumber(pad + n + pad) == Ok(n)
  {
    Text.StripAround(pad, n, pad);
    assert !Text.IsSpace((pad + n + pad)[|pad|]);
  }

  /** `ContractData`: the two required strings; the optional fields are kept as given. */
  datatype ContractData = ContractData(contractNumber: string, sourceFilePath: string, optional: Fields)
  datatype ContractInput = ContractInput(contractNumber: Option<string>, sourceFilePath: Option<string>, optional: Fields)

  predicate ValidContract(c: ContractData) {
    StoredNumber(c.contractNumber)
  }

  function ValidateContract(i: ContractInput): (r: Result<ContractData>)
    ensures r.Ok? <==> i.contractNumber.Some? && !Text.IsBlank(i.contractNumber.value) && i.sourceFilePath.Some?
    ensures r.Ok? ==> ValidContract(r.value)
    ensures r.Ok? ==> (r.value.contractNumber == ValidateContractNumber(i.contractNumber.value).value
      && r.value.sourceFilePath == i.sourceFilePath.value && r.value.optional == i.optional)
    ensures i.contractNumber.None? ==> r == Raised(FieldError("contract_number", FieldRequired))
  {
    match Required("contract_number", i.contractNumber)
    case Raised(e) => Raised(e)
    case Ok(raw) =>
      match ValidateContractNumber(raw)
      case Raised(e) => Raised(e)
      case Ok(number) =>
        match Required("source_file_path", i.sourceFilePath)
        case Raised(e) => Raised(e)
        case Ok(path) => Ok(ContractData(number, path, i.optional))
  }

  /** The fields of a record, given back to validation. */
  function ContractFields(c: ContractData): ContractInput {
    ContractInput(Some(c.contractNumber), Some(c.sourceFilePath), c.optional)
  }

  /** A valid contract validates to itself. */
  lemma ContractRoundTrip(c: ContractData)
    requires ValidContract(c)
    ensures ValidateContract(ContractFields(c)) == Ok(c)
  {
    ContractNumberIdempotent(c.contractNumber);
  }

  // ---------------------------------------------------------------------------------------------
  // Bidder

  /** `validate_amount`: a negative amount raises; None, zero and positive amounts pass unchanged. */
  function ValidateAmount(v: Option<real>): (r: Result<Option<real>>)
    ensures r.Ok? <==> v.None? || v.value >= 0.0
    ensures r.Ok? ==> r.value == v
  {
    if v.Some? && v.value < 0.0 then Raised(FieldError("total_bid_amount", NegativeAmount)) else Ok(v)
  }

  datatype BidderData = BidderData(
    contractNumber: string, bidderName: string, bidderLocation: Option<string>,
    totalBidAmount: Option<real>, bidRank: Option<int>, percentageDiff: Option<real>, isWinner: bool)

  datatype BidderInput = BidderInput(
    contractNumber: Option<string>, bidderName: Option<string>, bidderLocation: Option<string>,
    totalBidAmount: Option<real>, bidRank: Option<int>, percentageDiff: Option<real>, isWinner: Option<bool>)

  /** A bidder as validation builds it: a non-empty name and no negative amount. */
  predicate ValidBidder(b: BidderData) {
    b.bidderName != [] && (b.totalBidAmount.None? || b.totalBidAmount.value >= 0.0)
  }

  /**
   * `BidderData`: the contract number and a name of at least one character are required (the
   * name is not stripped), the amount passes its validator, and `is_winner` defaults to False.
   */
  function ValidateBidder(i: BidderInput): (r: Result<BidderData>)
    ensures r.Ok? <==> (i.contractNumber.Some? && i.bidderName.Some? && i.bidderName.value != []
                        && (i.totalBidAmount.None? || i.totalBidAmount.value >= 0.0))
    ensures r.Ok? ==> ValidBidder(r.value)
    ensures r.Ok? ==> r.value.isWinner == i.isWinner.GetOr(false)
    ensures r.Ok? ==> (r.value.bidderName == i.bidderName.value && r.value.contractNumber == i.contractNumber.value
      && r.value.totalBidAmount == i.totalBidAmount && r.value.bidRank == i.bidRank
      && r.value.bidderLocation == i.bidderLocation && r.value.percentageDiff == i.percentageDiff)
  {
    match Required("contract_number", i.contractNumber)
    case Raised(e) => Raised(e)
    case Ok(contract) =>
      match Required("bidder_name", i.bidderName)
      case Raised(e) => Raised(e)
      case Ok(name) =>
        if |name| < 1 then Raised(FieldError("bidder_name", TooShort))
        else
          match ValidateAmount(i.totalBidAmount)
          case Raised(e) => Raised(e)
          case Ok(amount) =>
            Ok(BidderData(contract, name, i.bidderLocation, amount, i.bidRank, i.percentageDiff, i.isWinner.GetOr(false)))
  }

  function BidderFields(b: BidderData): BidderInput {
    BidderInput(Some(b.contractNumber), Some(b.bidderName), b.bidderLocation, b.totalBidAmount, b.bidRank,
      b.percentageDiff, Some(b.isWinner))
  }

  /** A valid bidder validates to itself. */
  lemma BidderRoundTrip(b: BidderData)
    requires ValidBidder(b)
    ensures ValidateBidder(BidderFields(b)) == Ok(b)
  {
  }

  /** A bidder given without `is_winner` is not the winner. */
  lemma WinnerDefaultsFalse(i: BidderInput)
    requires i.isWinner.None? && ValidateBidder(i).Ok?
    ensures !ValidateBidder(i).value.isWinner
  {
  }

  // ---------------------------------------------------------------------------------------------
  // Bid item

  datatype BidItemData = BidItemData(
    contractNumber: string, itemNumber: Option<string>, itemCode: Option<string>, description: Option<string>,
    quantity: Option<real>, unit: Option<string>, unitPrice: Option<real>, totalPrice: Option<real>,
    bidderName: Option<string>)

  /** `BidItemData`: only the contract number is required; every other field defaults to None. */
  function ValidateBidItem(contractNumber: Option<string>, item: BidItemData): (r: Result<BidItemData>)
    ensures r.Ok? <==> contractNumber.Some?
    ensures r.Ok? ==> r.value == item.(contractNumber := contractNumber.value)
  {
    match Required("contract_number", contractNumber)
    case Raised(e) => Raised(e)
    case Ok(n) => Ok(item.(contractNumber := n))
  }

  // ---------------------------------------------------------------------------------------------
  // Lists, the extracted bundle and the extraction result

  /** A list of bidders validates when every element does; the first failing element's error is raised. */
  function ValidateBidders(xs: seq<BidderInput>): (r: Result<seq<BidderData>>)
    ensures r.Ok? <==> forall k :: 0 <= k < |xs| ==> ValidateBidder(xs[k]).Ok?
    ensures r.Ok? ==> |r.value| == |xs| && forall k :: 0 <= k < |xs| ==> r.value[k] == ValidateBidder(xs[k]).value
    decreases |xs|
  {
    if xs == [] then Ok([])
    else
      assert forall k :: 1 <= k < |xs| ==> xs[1..][k - 1] == xs[k];
      match ValidateBidder(xs[0])
      case Raised(e) => Raised(e)
      case Ok(b) =>
        match ValidateBidders(xs[1..])
        case Raised(e) => Raised(e)
        case Ok(bs) => Ok([b] + bs)
  }

  /** A list of bid items: each element is its contract number and the rest of its fields, which are kept. */
  function ValidateBidItems(xs: seq<(Option<string>, BidItemData)>): (r: Result<seq<BidItemData>>)
    ensures r.Ok? <==> forall k :: 0 <= k < |xs| ==> xs[k].0.Some?
    ensures r.Ok? ==> |r.value| == |xs| && forall k :: 0 <= k < |xs| ==> r.value[k] == xs[k].1.(contractNumber := xs[k].0.value)
    decreases |xs|
  {
    if xs == [] then Ok([])
    else
      assert forall k :: 1 <= k < |xs| ==> xs[1..][k - 1] == xs[k];
      match ValidateBidItem(xs[0].0, xs[0].1)
      case Raised(e) => Raised(e)
      case Ok(b) =>
        match ValidateBidItems(xs[1..])
        case Raised(e) => Raised(e)
        case Ok(bs) => Ok([b] + bs)
  }

  datatype ExtractedData = ExtractedData(
    contract: ContractData, bidders: seq<BidderData>, bidItems: seq<BidItemData>, extractionMetadata: Fields)

  datatype ExtractedInput = ExtractedInput(
    contract: Option<ContractInput>, bidders: Option<seq<BidderInput>>,
    bidItems: Option<seq<(Option<string>, BidItemData)>>, extractionMetadata: Option<Fields>)

  /** `ExtractedData`: the contract is required; the lists default to empty and the metadata to `{}`. */
  function ValidateExtracted(i: ExtractedInput): (r: Result<ExtractedData>)
    ensures r.Ok? <==> (i.contract.Some? && ValidateContract(i.contract.value).Ok?
      && ValidateBidders(i.bidders.GetOr([])).Ok? && ValidateBidItems(i.bidItems.GetOr([])).Ok?)
    ensures r.Ok? ==> (r.value.contract == ValidateContract(i.contract.value).value
      && r.value.bidders == ValidateBidders(i.bidders.GetOr([])).value
      && r.value.bidItems == ValidateBidItems(i.bidItems.GetOr([])).value
      && r.value.extractionMetadata == i.extractionMetadata.GetOr([]))
  {
    if i.contract.None? then Raised(FieldError("contract", FieldRequired))
    else
      match ValidateContract(i.contract.value)
      case Raised(e) => Raised(e)
      case Ok(c) =>
        match ValidateBidders(i.bidders.GetOr([]))
        case Raised(e) => Raised(e)
        case Ok(bs) =>
          match ValidateBidItems(i.bidItems.GetOr([]))
          case Raised(e) => Raised(e)
          case Ok(items) => Ok(ExtractedData(c, bs, items, i.extractionMetadata.GetOr([])))
  }

  /** A valid contract with nothing else given validates with no bidders, no bid items and empty metadata. */
  lemma ExtractedDefaults(c: ContractData)
    requires ValidContract(c)
    ensures ValidateExtracted(ExtractedInput(Some(ContractFields(c)), None, None, None)) == Ok(ExtractedData(c, [], [], []))
  {
    ContractRoundTrip(c);
  }

  /** One invalid bidder rejects the whole bundle. */
  lemma OneBadBidderRejects(i: ExtractedInput, k: nat)
    requires i.bidders.Some? && k < |i.bidders.value| && ValidateBidder(i.bidders.value[k]).Raised?
    ensures ValidateExtracted(i).Raised?
  {
  }

  /** `confidence_score`: None, or a value in [0, 1]. */
  function ValidateConfidence(v: Option<real>): (r: Result<Option<real>>)
    ensures r.Ok? <==> v.None? || 0.0 <= v.value <= 1.0
    ensures r.Ok? ==> r.value == v
  {
    if v.Some? && v.value < 0.0 then Raised(FieldError("confidence_score", BelowZero))
    else if v.Some? && v.value > 1.0 then Raised(FieldError("confidence_score", AboveOne))
    else Ok(v)
  }

  datatype ExtractionResult = ExtractionResult(
    filePath: string, documentType: string, extractionMethod: string, status: string,
    errorMessage: Option<string>, confidenceScore: Option<real>, processingTime: Option<real>,
    data: Option<ExtractedData>)

  datatype ExtractionResultInput = ExtractionResultInput(
    filePath: Option<string>, documentType: Option<string>, extractionMethod: Option<string>, status: Option<string>,
    errorMessage: Option<string>, confidenceScore: Option<real>, processingTime: Option<real>,
    data: Option<ExtractedInput>)

  /** `ExtractionResult`: four required strings, an optional bounded confidence and optional data; every field is kept. */
  function ValidateResult(i: ExtractionResultInput): (r: Result<ExtractionResult>)
    ensures r.Ok? <==> (i.filePath.Some? && i.documentType.Some? && i.extractionMethod.Some? && i.status.Some?
      && (i.confidenceScore.None? || 0.0 <= i.confidenceScore.value <= 1.0)
      && (i.data.Some? ==> ValidateExtracted(i.data.value).Ok?))
    ensures r.Ok? && r.value.confidenceScore.Some? ==> 0.0 <= r.value.confidenceScore.value <= 1.0
    ensures r.Ok? ==> r.value.confidenceScore == i.confidenceScore && (r.value.data.Some? <==> i.data.Some?)
    ensures r.Ok? ==> (r.value.filePath == i.filePath.value && r.value.documentType == i.documentType.value
      && r.value.extractionMethod == i.extractionMethod.value && r.value.status == i.status.value)
    ensures r.Ok? ==> r.value.errorMessage == i.errorMessage && r.value.processingTime == i.processingTime
    ensures r.Ok? && i.data.Some? ==> r.value.data == Some(ValidateExtracted(i.data.value).value)
  {
    match Required("file_path", i.filePath)
    case Raised(e) => Raised(e)
    case Ok(path) =>
      match Required("document_type", i.documentType)
      case Raised(e) => Raised(e)
      case Ok(docType) =>
        match Required("extraction_method", i.extractionMethod)
        case Raised(e) => Raised(e)
        case Ok(how) =>
          match Required("status", i.status)
          case Raised(e) => Raised(e)
          case Ok(status) =>
            match ValidateConfidence(i.confidenceScore)
            case Raised(e) => Raised(e)
            case Ok(score) =>
              if i.data.None? then Ok(ExtractionResult(path, docType, how, status, i.errorMessage, score, i.processingTime, None))
              else
                match ValidateExtracted(i.data.value)
                case Raised(e) => Raised(e)
                case Ok(d) => Ok(ExtractionResult(path, docType, how, status, i.errorMessage, score, i.processingTime, Some(d)))
  }
}
