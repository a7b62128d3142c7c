/**
 * Document classification: the document type of a bid PDF from its file name, with the text of
 * its first page as a fallback, and the extractor registered for each type.
 */
module Classifier {
  import opened Wrappers
  import Text

  datatype DocumentType =
    | InvitationToBid
    | BidTabs
    | AwardLetter
    | ItemCReport
    | BidSummary
    | BidsAsRead
    | Unknown
  {
    /** The enum's string value. */
    function Name(): (r: string)
      ensures r != ""
    {
      match this
      case InvitationToBid => "invitation_to_bid"
      case BidTabs => "bid_tabs"
      case AwardLetter => "award_letter"
      case ItemCReport => "item_c_report"
      case BidSummary => "bid_summary"
      case BidsAsRead => "bids_as_read"
      case Unknown => "unknown"
    }
  }

  /** The extractor classes of the registry. */
  datatype Extractor =
    | InvitationToBidExtractor
    | BidTabsExtractor
    | AwardLetterExtractor
    | ItemCExtractor
    | BidSummaryExtractor
    | BidsAsReadExtractor

  /**
   * What reading the first page of the PDF gives: the reader fails (any exception), or the
   * text of each page.
   */
  datatype Content = Unreadable | Pages(pages: seq<string>)

  /** The classifier's `filename`: the lowercased last path component. */
  function FileName(path: string): (r: string)
    ensures '/' !in r
  {
    var b := Text.Basename(path);
    assert forall i :: 0 <= i < |b| ==> b[i] != '/';
    Text.Lower(b)
  }

  predicate Has(s: string, sub: string) {
    Text.Contains(s, sub)
  }

  predicate InvitationName(f: string) { Has(f, "invitation") && Has(f, "bid") }
  predicate BidTabsName(f: string) { Has(f, "bid tab") || Has(f, "bid_tab") || Has(f, "bidtab") }
  predicate AwardName(f: string) { Has(f, "award") && Has(f, "letter") }
  predicate ItemCName(f: string) { Has(f, "item c") || Has(f, "item_c") || Has(f, "itemc") }
  predicate BidSummaryName(f: string) { Has(f, "bid summary") || Has(f, "bidsummary") }
  predicate BidsAsReadName(f: string) { Has(f, "bids as read") || Has(f, "bids_as_read") }

  /** The filename rules, applied in order; the first that matches decides. */
  function ClassifyByFilename(filename: string): (r: DocumentType)
    ensures r == InvitationToBid <==> InvitationName(filename)
    ensures r == BidTabs <==> !InvitationName(filename) && BidTabsName(filename)
    ensures r == AwardLetter <==> !InvitationName(filename) && !BidTabsName(filename) && AwardName(filename)
    ensures r == ItemCReport <==>
      !InvitationName(filename) && !BidTabsName(filename) && !AwardName(filename) && ItemCName(filename)
    ensures r == BidSummary <==>
      !InvitationName(filename) && !BidTabsName(filename) && !AwardName(filename)
      && !ItemCName(filename) && BidSummaryName(filename)
    ensures r == BidsAsRead <==>
      !InvitationName(filename) && !BidTabsName(filename) && !AwardName(filename)
      && !ItemCName(filename) && !BidSummaryName(filename) && BidsAsReadName(filename)
    ensures r == Unknown <==>
      !InvitationName(filename) && !BidTabsName(filename) && !AwardName(filename)
      && !ItemCName(filename) && !BidSummaryName(filename) && !BidsAsReadName(filename)
  {
    if InvitationName(filename) then InvitationToBid
    else if BidTabsName(filename) then BidTabs
    else if AwardName(filename) then AwardLetter
    else if ItemCName(filename) then ItemCReport
    else if BidSummaryName(filename) then BidSummary
    else if BidsAsReadName(filename) then BidsAsRead
    else Unknown
  }

  predicate InvitationText(t: string) {
    Has(t, "notice to prospective bidders") || Has(t, "invitation to bid")
  }
  predicate AwardText(t: string) { Has(t, "notification of award") || Has(t, "pleased to inform you that") }
  predicate ItemCText(t: string) { Has(t, "item c") && (Has(t, "$ totals") || Has(t, "% diff")) }
  predicate BidTabsText(t: string) { Has(t, "roadway items") && (Has(t, "bidder") || Has(t, "contractor")) }
  predicate BidsAsReadText(t: string) { Has(t, "bids as read") }

  /**
   * The content rules, applied in order to the lowercased text of the first page; the first that
   * matches decides, and there is no content rule for a bid summary.
   */
  function ClassifyByContent(content: Content): (r: DocumentType)
    ensures content == Unreadable || content == Pages([]) ==> r == Unknown
    ensures r != BidSummary
    ensures content.Pages? && content.pages != [] ==>
      var text := Text.Lower(content.pages[0]);
      (r == InvitationToBid <==> InvitationText(text))
      && (r == AwardLetter <==> !InvitationText(text) && AwardText(text))
      && (r == ItemCReport <==> !InvitationText(text) && !AwardText(text) && ItemCText(text))
      && (r == BidTabs <==>
            !InvitationText(text) && !AwardText(text) && !ItemCText(text) && BidTabsText(text))
      && (r == BidsAsRead <==>
            !InvitationText(text) && !AwardText(text) && !ItemCText(text) && !BidTabsText(text)
            && BidsAsReadText(text))
      && (r == Unknown <==>
            !InvitationText(text) && !AwardText(text) && !ItemCText(text) && !BidTabsText(text)
            && !BidsAsReadText(text))
  {
    match content
    case Unreadable => Unknown
    case Pages(pages) =>
      if |pages| == 0 then Unknown
      else
        var text := Text.Lower(pages[0]);
        if InvitationText(text) then InvitationToBid
        else if AwardText(text) then AwardLetter
        else if ItemCText(text) then ItemCReport
        else if BidTabsText(text) then BidTabs
        else if BidsAsReadText(text) then BidsAsRead
        else Unknown
  }

  /** `classify`: the filename result unless it is UNKNOWN, otherwise the content result. */
  function Classify(path: string, content: Content): (r: DocumentType)
    ensures ClassifyByFilename(FileName(path)) != Unknown ==> r == ClassifyByFilename(FileName(path))
    ensures ClassifyByFilename(FileName(path)) == Unknown ==> r == ClassifyByContent(content)
  {
    var byName := ClassifyByFilename(FileName(path));
    if byName != Unknown then byName else ClassifyByContent(content)
  }

  /** `classify_filename_only`: the filename rules alone; no content is consulted. */
  function ClassifyFilenameOnly(path: string): (r: DocumentType)
    ensures r == Unknown || Classify(path, Unreadable) == r
  {
    ClassifyByFilename(FileName(path))
  }

  /** `get_extractor_class`: the six known types have an extractor, UNKNOWN has none. */
  function GetExtractorClass(t: DocumentType): (r: Option<Extractor>)
    ensures r.None? <==> t == Unknown
  {
    match t
    case InvitationToBid => Some(InvitationToBidExtractor)
    case BidTabs => Some(BidTabsExtractor)
    case AwardLetter => Some(AwardLetterExtractor)
    case ItemCReport => Some(ItemCExtractor)
    case BidSummary => Some(BidSummaryExtractor)
    case BidsAsRead => Some(BidsAsReadExtractor)
    case Unknown => None
  }

  /** Distinct document types get distinct extractors. */
  lemma ExtractorInjective(t1: DocumentType, t2: DocumentType)
    requires GetExtractorClass(t1).Some? && GetExtractorClass(t1) == GetExtractorClass(t2)
    ensures t1 == t2
  {
  }

  /** A file recognised by name is classified without regard to its content. */
  lemma ClassifyIgnoresContent(path: string, c1: Content, c2: Content)
    requires ClassifyFilenameOnly(path) != Unknown
    ensures Classify(path, c1) == Classify(path, c2) == ClassifyFilenameOnly(path)
  {
  }

  /**
   * Every spelling of the bid-tabs rule contains "bid", so a name that also mentions "invitation"
   * is an invitation to bid: a bid-tabs result means "invitation" is absent.
   */
  lemma BidTabsExcludesInvitation(filename: string)
    requires ClassifyByFilename(filename) == BidTabs
    ensures !Has(filename, "invitation")
  {
    assert Text.OccursAt("bid tab", "bid", 0);
    assert Text.OccursAt("bid_tab", "bid", 0);
    assert Text.OccursAt("bidtab", "bid", 0);
    if Has(filename, "bid tab") {
      Text.ContainsTrans(filename, "bid tab", "bid");
    } else if Has(filename, "bid_tab") {
      Text.ContainsTrans(filename, "bid_tab", "bid");
    } else {
      Text.ContainsTrans(filename, "bidtab", "bid");
    }
  }

  /** Likewise every spelling of the bids-as-read and bid-summary rules contains "bid". */
  lemma BidsAsReadExcludesInvitation(filename: string)
    requires ClassifyByFilename(filename) in {BidsAsRead, BidSummary}
    ensures !Has(filename, "invitation")
  {
    assert Text.OccursAt("bids as read", "bid", 0);
    assert Text.OccursAt("bids_as_read", "bid", 0);
    assert Text.OccursAt("bid summary", "bid", 0);
    assert Text.OccursAt("bidsummary", "bid", 0);
    if Has(filename, "bids as read") {
      Text.ContainsTrans(filename, "bids as read", "bid");
    } else if Has(filename, "bids_as_read") {
      Text.ContainsTrans(filename, "bids_as_read", "bid");
    } else if Has(filename, "bid summary") {
      Text.ContainsTrans(filename, "bid summary", "bid");
    } else if Has(filename, "bidsummary") {
      Text.ContainsTrans(filename, "bidsummary", "bid");
    }
  }
}
