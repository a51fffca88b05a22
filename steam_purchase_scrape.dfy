/** The utilities SteamWebScrape class (me.theforbiddenai tree): it reads the discount
    end date from a Steam store page's purchase sections and stores it on the game.
    The HTTP request and the Jsoup selectors are left out: a page is its sequence of
    `div.game_area_purchase_game` sections, each reduced to what the selectors ask
    of it. Finding and reading the date are the parameters of SteamWebScraper. */
module SteamPurchaseScrape {
  import opened Common
  import opened Domain
  import SteamWebScraper

  /** A purchase section: whether it holds a `div.discount_pct` containing "-100%",
      and the text of its `p.game_purchase_discount_quantity`, None when absent. */
  datatype PurchaseSection = PurchaseSection(fullDiscount: bool, discountQuantity: Option<string>)

  /** `findFirst` over the sections with a full discount. */
  function FirstFullDiscount(sections: seq<PurchaseSection>): Option<PurchaseSection>
    decreases |sections|
  {
    if sections == [] then None
    else if sections[0].fullDiscount then Some(sections[0])
    else FirstFullDiscount(sections[1..])
  }

  /** The section found is the first one with a full discount; none is found exactly
      when no section has one. */
  lemma {:induction false} FirstFullDiscountIsFirst(sections: seq<PurchaseSection>)
    ensures FirstFullDiscount(sections).None? <==> forall j :: 0 <= j < |sections| ==> !sections[j].fullDiscount
    ensures FirstFullDiscount(sections).Some?
      ==> exists k :: 0 <= k < |sections| && sections[k] == FirstFullDiscount(sections).value
                      && sections[k].fullDiscount
                      && forall j :: 0 <= j < k ==> !sections[j].fullDiscount
    decreases |sections|
  {
    if sections != [] && !sections[0].fullDiscount {
      FirstFullDiscountIsFirst(sections[1..]);
      var tail := sections[1..];
      assert forall j :: 1 <= j < |sections| ==> sections[j] == tail[j - 1];
      if FirstFullDiscount(tail).Some? {
        var k :| 0 <= k < |tail| && tail[k] == FirstFullDiscount(tail).value && tail[k].fullDiscount
                 && forall j :: 0 <= j < k ==> !tail[j].fullDiscount;
        assert sections[k + 1] == tail[k];
      }
    } else if sections != [] {
      assert sections[0] == FirstFullDiscount(sections).value;
    }
  }

  /** What one full-discount section gives: the sentinel without a quantity paragraph
      or without a date in it; otherwise the date, am/pm upper-cased, parsed. */
  function SectionEpoch(section: PurchaseSection, findDate: SteamWebScraper.DateFinder,
                        parseDate: SteamWebScraper.DateParser, year: int): (r: Result<int>)
    ensures section.discountQuantity.None? ==> r == Ok(NoExpirationEpoch)
    ensures section.discountQuantity.Some? && findDate(section.discountQuantity.value).None?
      ==> r == Ok(NoExpirationEpoch)
    ensures r.Err?
      <==> section.discountQuantity.Some? && findDate(section.discountQuantity.value).Some?
           && parseDate(SteamWebScraper.UpperMeridiem(findDate(section.discountQuantity.value).value), year).None?
  {
    match section.discountQuantity
    case None => Ok(NoExpirationEpoch)
    case Some(text) =>
      match findDate(text)
      case None => Ok(NoExpirationEpoch)
      case Some(date) =>
        var expirationDate := SteamWebScraper.UpperMeridiem(date);
        match parseDate(expirationDate, year)
        case None => Err("Unable to parse date " + expirationDate)
        case Some(epoch) => Ok(epoch)
  }

  /** The private `getExpirationEpoch(Document)`. */
  function PageExpirationEpoch(sections: seq<PurchaseSection>, findDate: SteamWebScraper.DateFinder,
                               parseDate: SteamWebScraper.DateParser, year: int): Result<int>
  {
    match FirstFullDiscount(sections)
    case None => Ok(NoExpirationEpoch)
    case Some(section) => SectionEpoch(section, findDate, parseDate, year)
  }

  /** Only the first full-discount section is read: sections before it have no full
      discount, and whatever follows it does not matter. A page without one gives
      the sentinel. */
  lemma {:induction false} OnlyFirstFullDiscountSection(
    before: seq<PurchaseSection>, section: PurchaseSection, after: seq<PurchaseSection>,
    findDate: SteamWebScraper.DateFinder, parseDate: SteamWebScraper.DateParser, year: int)
    requires forall j :: 0 <= j < |before| ==> !before[j].fullDiscount
    requires section.fullDiscount
    ensures PageExpirationEpoch(before + [section] + after, findDate, parseDate, year)
            == SectionEpoch(section, findDate, parseDate, year)
    ensures PageExpirationEpoch(before, findDate, parseDate, year) == Ok(NoExpirationEpoch)
    decreases |before|
  {
    if before != [] {
      OnlyFirstFullDiscountSection(before[1..], section, after, findDate, parseDate, year);
      assert (before + [section] + after)[1..] == before[1..] + [section] + after;
    }
  }

  /** `webscrapeExpirationEpoch` given the outcome of the page request: a request that
      throws IOException fails the future (it is rethrown as a RuntimeException);
      Ok(None) is a null response body, which leaves the game as it was; otherwise the
      epoch the page gives is stored and nothing else changes. A date the formatter
      rejects makes the future fail as well. */
  function WebscrapeExpirationEpoch(body: Response<seq<PurchaseSection>>, game: Game,
                                    findDate: SteamWebScraper.DateFinder,
                                    parseDate: SteamWebScraper.DateParser, year: int): (r: Result<Game>)
    ensures body == Ok(None) ==> r == Ok(game)
    ensures body.Err? ==> r == Err(body.reason)
    ensures r.Err? <==> body.Err?
                        || (body.value.Some? && PageExpirationEpoch(body.value.value, findDate, parseDate, year).Err?)
    ensures r.Ok? ==> r.value.(expirationEpoch := game.expirationEpoch) == game
    ensures r.Ok? && body.value.Some?
      ==> r.value.expirationEpoch == PageExpirationEpoch(body.value.value, findDate, parseDate, year).value
  {
    match body
    case Err(e) => Err(e)
    case Ok(None) => Ok(game)
    case Ok(Some(sections)) =>
      match PageExpirationEpoch(sections, findDate, parseDate, year)
      case Err(e) => Err(e)
      case Ok(epoch) => Ok(WithExpirationEpoch(game, epoch))
  }
}
